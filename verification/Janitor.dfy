/**
 Retention in the store of cluster snapshots (pkg/kubemodel/janitor.go): a walk over year, month and
 day directories that looks only into days up to the cutoff's own.
 */
module Janitor {
  import opened Results

  /* ---------- dates and time stamps ---------- */

  predicate Digits(s: string) { forall i :: 0 <= i < |s| ==> '0' <= s[i] <= '9' }

  function Number(s: string): nat
    requires Digits(s)
  {
    if s == [] then 0 else 10 * Number(s[..|s| - 1]) + ((s[|s| - 1] as int) - ('0' as int))
  }

  predicate Leap(year: nat) { year % 4 == 0 && (year % 100 != 0 || year % 400 == 0) }

  function DaysIn(year: nat, month: nat): nat {
    if month == 2 then if Leap(year) then 29 else 28
    else if month in {4, 6, 9, 11} then 30
    else 31
  }

  function DaysBeforeYear(year: nat): nat {
    if year == 0 then 0 else DaysBeforeYear(year - 1) + if Leap(year - 1) then 366 else 365
  }

  function DaysBeforeMonth(year: nat, month: nat): nat {
    if month <= 1 then 0 else DaysBeforeMonth(year, month - 1) + DaysIn(year, month - 1)
  }

  function DayNumber(year: nat, month: nat, day: nat): int {
    DaysBeforeYear(year) + DaysBeforeMonth(year, month) + day - 1
  }

  predicate IsDate(year: nat, month: nat, day: nat) { 1 <= month <= 12 && 1 <= day <= DaysIn(year, month) }

  /** The number of a day, from a four-digit year, a two-digit month and a two-digit day of that month. */
  function ParseDate(year: string, month: string, day: string): Option<nat> {
    if |year| == 4 && |month| == 2 && |day| == 2 && Digits(year) && Digits(month) && Digits(day)
      && IsDate(Number(year), Number(month), Number(day))
    then Some(DayNumber(Number(year), Number(month), Number(day)))
    else None
  }

  const DAY_SECONDS: nat := 86400

  /** What comes before the first dot. */
  function Stem(name: string): string {
    if name == [] || name[0] == '.' then [] else [name[0]] + Stem(name[1..])
  }

  /** The second named by fourteen digits, as in 20240131235959. */
  function ParseStamp(name: string): Option<nat> {
    var s := Stem(name);
    if |s| != 14 || !Digits(s) then None else
      var date := ParseDate(s[..4], s[4..6], s[6..8]);
      var hour, minute, second := Number(s[8..10]), Number(s[10..12]), Number(s[12..]);
      if date.None? || hour >= 24 || minute >= 60 || second >= 60 then None
      else Some(date.value * DAY_SECONDS + hour * 3600 + minute * 60 + second)
  }

  /* ---------- the calendar ---------- */

  /** A year's months make up 365 days, and 366 in a leap year. */
  lemma MonthsMakeYear(year: nat)
    ensures DaysBeforeMonth(year, 12) + DaysIn(year, 12) == if Leap(year) then 366 else 365
  {
    assert DaysBeforeMonth(year, 2) == 31;
    assert DaysBeforeMonth(year, 4) == 31 + DaysIn(year, 2) + 31;
    assert DaysBeforeMonth(year, 6) == DaysBeforeMonth(year, 4) + 30 + 31;
    assert DaysBeforeMonth(year, 8) == DaysBeforeMonth(year, 6) + 30 + 31;
    assert DaysBeforeMonth(year, 10) == DaysBeforeMonth(year, 8) + 31 + 30;
  }

  /** The calendar's leap years: every fourth, but of the centuries only every fourth. */
  lemma {:induction false} YearsInDays(year: nat)
    ensures DaysBeforeYear(year) == 365 * year + (year + 3) / 4 - (year + 99) / 100 + (year + 399) / 400
  {
    if year > 0 {
      var y := year - 1;
      YearsInDays(y);
      Fourths(y);
      Hundredths(y);
      FourHundredths(y);
      Divisors(y);
    }
  }

  lemma Fourths(y: nat)
    ensures (y + 4) / 4 == (y + 3) / 4 + if y % 4 == 0 then 1 else 0
  {
  }

  lemma Hundredths(y: nat)
    ensures (y + 100) / 100 == (y + 99) / 100 + if y % 100 == 0 then 1 else 0
  {
  }

  lemma FourHundredths(y: nat)
    ensures (y + 400) / 400 == (y + 399) / 400 + if y % 400 == 0 then 1 else 0
  {
  }

  lemma Divisors(y: nat)
    ensures (y % 400 == 0 ==> y % 100 == 0) && (y % 100 == 0 ==> y % 4 == 0)
  {
    var k, l := y / 400, y / 100;
    assert y == 400 * k + y % 400 && y == 100 * l + y % 100;
    if y % 400 == 0 { assert y == 100 * (4 * k); }
    if y % 100 == 0 { assert y == 4 * (25 * l); }
  }

  /** The day after the last of a month, or of a year, is the first of the next. */
  lemma NextDay(year: nat, month: nat, day: nat)
    requires IsDate(year, month, day)
    ensures day < DaysIn(year, month) ==> DayNumber(year, month, day + 1) == DayNumber(year, month, day) + 1
    ensures day == DaysIn(year, month) && month < 12 ==> DayNumber(year, month + 1, 1) == DayNumber(year, month, day) + 1
    ensures day == DaysIn(year, month) && month == 12 ==> DayNumber(year + 1, 1, 1) == DayNumber(year, month, day) + 1
  {
    hide Leap;
    if month == 12 { MonthsMakeYear(year); }
  }

  lemma {:induction false} MonthsGrow(year: nat, m: nat, n: nat)
    requires 1 <= m < n <= 12
    ensures DaysBeforeMonth(year, m) + DaysIn(year, m) <= DaysBeforeMonth(year, n)
  {
    if m < n - 1 { MonthsGrow(year, m, n - 1); }
  }

  lemma {:induction false} YearsGrow(y: nat, z: nat)
    requires y < z
    ensures DaysBeforeYear(y) + (if Leap(y) then 366 else 365) <= DaysBeforeYear(z)
  {
    if y < z - 1 { YearsGrow(y, z - 1); }
  }

  /** Later by the calendar. */
  predicate DateBefore(y: nat, m: nat, d: nat, y': nat, m': nat, d': nat) {
    y < y' || (y == y' && (m < m' || (m == m' && d < d')))
  }

  /** Days are numbered in the order of the calendar. */
  lemma DatesInOrder(y: nat, m: nat, d: nat, y': nat, m': nat, d': nat)
    requires IsDate(y, m, d) && IsDate(y', m', d') && DateBefore(y, m, d, y', m', d')
    ensures DayNumber(y, m, d) < DayNumber(y', m', d')
  {
    hide Leap, DaysIn, DaysBeforeMonth;
    if y < y' {
      YearsGrow(y, y');
      InYear(y, m);
    } else if m < m' {
      MonthsGrow(y, m, m');
    }
  }

  lemma InYear(year: nat, month: nat)
    requires 1 <= month <= 12
    ensures DaysBeforeMonth(year, month) + DaysIn(year, month) <= if Leap(year) then 366 else 365
  {
    hide Leap;
    MonthsMakeYear(year);
    if month < 12 { MonthsGrow(year, month, 12); }
  }

  function Power10(n: nat): nat { if n == 0 then 1 else 10 * Power10(n - 1) }

  lemma {:induction false} NumberConcat(a: string, b: string)
    requires Digits(a) && Digits(b)
    ensures Digits(a + b) && Number(a + b) == Shifted(Number(a), |b|) + Number(b) && Number(b) < Power10(|b|)
  {
    hide Shifted;
    ShiftedMore(Number(a), if b == [] then 0 else |b| - 1);
    if b == [] {
      assert a + b == a;
    } else {
      var n := |b| - 1;
      NumberConcat(a, b[..n]);
      assert (a + b)[..|a + b| - 1] == a + b[..n];
    }
  }

  function Shifted(x: nat, n: nat): nat { x * Power10(n) }

  lemma ShiftedMore(x: nat, n: nat)
    ensures Shifted(x, 0) == x && Shifted(x, n + 1) == 10 * Shifted(x, n)
  {
    var y := Power10(n);
    assert 10 * (x * y) == x * (10 * y);
  }

  /** The fields of fourteen digits. */
  datatype Fields = Fields(year: nat, month: nat, day: nat, hour: nat, minute: nat, second: nat)

  function FieldsOf(s: string): Fields
    requires |s| == 14 && Digits(s)
  {
    Fields(Number(s[..4]), Number(s[4..6]), Number(s[6..8]), Number(s[8..10]), Number(s[10..12]), Number(s[12..]))
  }

  lemma FieldsMakeNumber(s: string)
    requires |s| == 14 && Digits(s)
    ensures var f := FieldsOf(s);
            && f.year < 10000 && f.month < 100 && f.day < 100 && f.hour < 100 && f.minute < 100 && f.second < 100
            && Number(s) == ((((f.year * 100 + f.month) * 100 + f.day) * 100 + f.hour) * 100 + f.minute) * 100 + f.second
  {
    hide Number;
    assert Power10(2) == 100 && Power10(4) == 10000 by { PowersOfTen(); }
    NumberConcat([], s[..4]);
    assert [] + s[..4] == s[..4];
    AppendField(s, 4);
    AppendField(s, 6);
    AppendField(s, 8);
    AppendField(s, 10);
    AppendField(s, 12);
    assert s[..14] == s && s[12..14] == s[12..];
  }

  lemma PowersOfTen()
    ensures Power10(2) == 100 && Power10(4) == 10000
  {
    assert Power10(1) == 10;
    assert Power10(3) == 1000;
  }

  lemma AppendField(s: string, i: nat)
    requires i + 2 <= |s| && Digits(s)
    ensures Number(s[..i + 2]) == Number(s[..i]) * 100 + Number(s[i..i + 2]) && Number(s[i..i + 2]) < 100
  {
    assert s[..i + 2] == s[..i] + s[i..i + 2];
    NumberConcat(s[..i], s[i..i + 2]);
    PowersOfTen();
  }

  /** Names are in time order: of two time stamps, the one with the smaller digits is the earlier. */
  lemma StampsInOrder(a: string, b: string)
    requires ParseStamp(a).Some? && ParseStamp(b).Some?
    ensures ParseStamp(a).value < ParseStamp(b).value <==> Number(Stem(a)) < Number(Stem(b))
  {
    hide Number, DaysBeforeYear, DaysBeforeMonth, DaysIn;
    StampFields(a);
    StampFields(b);
    FieldsMakeNumber(Stem(a));
    FieldsMakeNumber(Stem(b));
    hide ParseStamp, Stem, FieldsOf, DateBefore, IsDate, DayNumber;
    var f, g := FieldsOf(Stem(a)), FieldsOf(Stem(b));
    DigitsOfDates(f, g);
    DigitsOfTimes(f, g);
    if DateBefore(f.year, f.month, f.day, g.year, g.month, g.day) {
      DatesInOrder(f.year, f.month, f.day, g.year, g.month, g.day);
    } else if DateBefore(g.year, g.month, g.day, f.year, f.month, f.day) {
      DatesInOrder(g.year, g.month, g.day, f.year, f.month, f.day);
    }
    DatesApart(f, g);
  }

  function DateDigits(f: Fields): nat { (f.year * 100 + f.month) * 100 + f.day }

  function TimeDigits(f: Fields): nat { (f.hour * 100 + f.minute) * 100 + f.second }

  function Seconds(f: Fields): nat { f.hour * 3600 + f.minute * 60 + f.second }

  lemma DigitsOfDates(f: Fields, g: Fields)
    requires f.month < 100 && f.day < 100 && g.month < 100 && g.day < 100
    ensures DateDigits(f) < DateDigits(g) <==> DateBefore(f.year, f.month, f.day, g.year, g.month, g.day)
    ensures DateDigits(g) < DateDigits(f) <==> DateBefore(g.year, g.month, g.day, f.year, f.month, f.day)
  {
  }

  lemma DigitsOfTimes(f: Fields, g: Fields)
    requires f.hour < 24 && f.minute < 60 && f.second < 60 && g.hour < 24 && g.minute < 60 && g.second < 60
    ensures TimeDigits(f) < TimeDigits(g) <==> Seconds(f) < Seconds(g)
    ensures TimeDigits(f) < 1000000 && TimeDigits(g) < 1000000 && Seconds(f) < 86400 && Seconds(g) < 86400
  {
    hide Seconds, TimeDigits;
    DigitsByTime(f, g);
    SecondsByTime(f, g);
  }

  predicate TimeBefore(f: Fields, g: Fields) { DateBefore(f.hour, f.minute, f.second, g.hour, g.minute, g.second) }

  lemma DigitsByTime(f: Fields, g: Fields)
    requires f.hour < 24 && f.minute < 60 && f.second < 60 && g.hour < 24 && g.minute < 60 && g.second < 60
    ensures TimeDigits(f) < TimeDigits(g) <==> TimeBefore(f, g)
    ensures TimeDigits(f) < 1000000 && TimeDigits(g) < 1000000
  {
  }

  lemma SecondsByTime(f: Fields, g: Fields)
    requires f.hour < 24 && f.minute < 60 && f.second < 60 && g.hour < 24 && g.minute < 60 && g.second < 60
    ensures Seconds(f) < Seconds(g) <==> TimeBefore(f, g)
    ensures Seconds(f) < 86400 && Seconds(g) < 86400
  {
  }

  /** Equal digits are equal dates. */
  lemma DatesApart(f: Fields, g: Fields)
    requires f.month < 100 && f.day < 100 && g.month < 100 && g.day < 100
    ensures DateDigits(f) == DateDigits(g) <==> f.year == g.year && f.month == g.month && f.day == g.day
  {
  }

  /** A time stamp is the second of its day, of the day its date names. */
  lemma StampFields(name: string)
    requires ParseStamp(name).Some?
    ensures |Stem(name)| == 14 && Digits(Stem(name))
    ensures var f := FieldsOf(Stem(name));
            && IsDate(f.year, f.month, f.day) && f.hour < 24 && f.minute < 60 && f.second < 60
            && ParseStamp(name).value == DayNumber(f.year, f.month, f.day) * 86400 + f.hour * 3600 + f.minute * 60 + f.second
  {
    hide Number, DaysBeforeYear, DaysBeforeMonth, DaysIn;
  }

  /** What comes before the first dot has none, and is all of the name or is followed by one. */
  lemma {:induction false} StemStops(name: string)
    ensures Stem(name) <= name && '.' !in Stem(name)
    ensures |Stem(name)| < |name| ==> name[|Stem(name)|] == '.'
  {
    if name != [] && name[0] != '.' { StemStops(name[1..]); }
  }

  function DayOf(t: int): int { t / DAY_SECONDS }

  /* ---------- the store ---------- */

  datatype Path = Path(year: string, month: string, day: string, name: string)

  /** A store whose listings and removals may fail; a directory exists while a file is in it. */
  class Store {
    var files: set<Path>
    const unlistable: set<seq<string>>
    const stuck: set<Path>

    constructor (files: set<Path>, unlistable: set<seq<string>>, stuck: set<Path>)
      ensures this.files == files && this.unlistable == unlistable && this.stuck == stuck
    {
      this.files, this.unlistable, this.stuck := files, unlistable, stuck;
    }

    method ListYears() returns (r: Option<set<string>>)
      ensures r == if [] in unlistable then None else Some(set p | p in files :: p.year)
    {
      if [] in unlistable { return None; }
      return Some(set p | p in files :: p.year);
    }

    method ListMonths(year: string) returns (r: Option<set<string>>)
      ensures r == if [year] in unlistable then None else Some(set p | p in files && p.year == year :: p.month)
    {
      if [year] in unlistable { return None; }
      return Some(set p | p in files && p.year == year :: p.month);
    }

    method ListDays(year: string, month: string) returns (r: Option<set<string>>)
      ensures r == if [year, month] in unlistable then None
                   else Some(set p | p in files && p.year == year && p.month == month :: p.day)
    {
      if [year, month] in unlistable { return None; }
      return Some(set p | p in files && p.year == year && p.month == month :: p.day);
    }

    method ListFiles(year: string, month: string, day: string) returns (r: Option<set<Path>>)
      ensures r == if [year, month, day] in unlistable then None
                   else Some(set p | p in files && p.year == year && p.month == month && p.day == day)
    {
      if [year, month, day] in unlistable { return None; }
      return Some(set p | p in files && p.year == year && p.month == month && p.day == day);
    }

    method Remove(p: Path) returns (ok: bool)
      modifies this`files
      ensures ok == (p !in stuck)
      ensures files == if ok then old(files) - {p} else old(files)
    {
      if p in stuck { return false; }
      files := files - {p};
      return true;
    }
  }

  /* ---------- what the walk removes ---------- */

  predicate Expired(p: Path, cutoff: int) {
    var t := ParseStamp(p.name);
    t.Some? && t.value < cutoff
  }

  /** The walk looks into a day whose date it can read and which is not after the cutoff's day. */
  predicate Due(year: string, month: string, day: string, cutoff: int) {
    var date := ParseDate(year, month, day);
    date.Some? && date.value <= DayOf(cutoff)
  }

  predicate DayDoomed(p: Path, cutoff: int, store: Store) {
    [p.year, p.month, p.day] !in store.unlistable && Expired(p, cutoff) && p !in store.stuck
  }

  predicate MonthDoomed(p: Path, cutoff: int, store: Store) {
    [p.year, p.month] !in store.unlistable && Due(p.year, p.month, p.day, cutoff) && DayDoomed(p, cutoff, store)
  }

  predicate YearDoomed(p: Path, cutoff: int, store: Store) {
    [p.year] !in store.unlistable && MonthDoomed(p, cutoff, store)
  }

  predicate Doomed(p: Path, cutoff: int, store: Store) {
    [] !in store.unlistable && YearDoomed(p, cutoff, store)
  }

  method CleanDay(store: Store, year: string, month: string, day: string, cutoff: int)
    modifies store`files
    ensures store.files ==
            set p | p in old(store.files) && !(p.year == year && p.month == month && p.day == day && DayDoomed(p, cutoff, store))
  {
    hide ParseStamp;
    var listed := store.ListFiles(year, month, day);
    if listed.None? { return; }
    var todo := listed.value;
    while todo != {}
      invariant todo <= listed.value
      invariant store.files == set p | p in old(store.files) && !(p in listed.value && p !in todo && DayDoomed(p, cutoff, store))
      decreases todo
    {
      var p :| p in todo;
      var t := ParseStamp(p.name);
      if t.Some? && t.value < cutoff {
        var _ := store.Remove(p);
      }
      todo := todo - {p};
    }
  }

  method PruneMonth(store: Store, year: string, month: string, cutoff: int)
    modifies store`files
    ensures store.files == set p | p in old(store.files) && !(p.year == year && p.month == month && MonthDoomed(p, cutoff, store))
  {
    hide ParseDate, DayDoomed;
    var listed := store.ListDays(year, month);
    if listed.None? { return; }
    var todo := listed.value;
    while todo != {}
      invariant todo <= listed.value
      invariant store.files == set p | p in old(store.files)
                                       && !(p.year == year && p.month == month && p.day !in todo
                                            && MonthDoomed(p, cutoff, store))
      decreases todo
    {
      var day :| day in todo;
      var date := ParseDate(year, month, day);
      if date.Some? && !(date.value > DayOf(cutoff)) {
        CleanDay(store, year, month, day, cutoff);
      }
      todo := todo - {day};
    }
  }

  method PruneYear(store: Store, year: string, cutoff: int)
    modifies store`files
    ensures store.files == set p | p in old(store.files) && !(p.year == year && YearDoomed(p, cutoff, store))
  {
    hide MonthDoomed;
    var listed := store.ListMonths(year);
    if listed.None? { return; }
    var todo := listed.value;
    while todo != {}
      invariant todo <= listed.value
      invariant store.files == set p | p in old(store.files) && !(p.year == year && p.month !in todo && YearDoomed(p, cutoff, store))
      decreases todo
    {
      var month :| month in todo;
      PruneMonth(store, year, month, cutoff);
      todo := todo - {month};
    }
  }

  /** Directories are met in any order. */
  method PruneResolution(store: Store, cutoff: int)
    modifies store`files
    ensures store.files == set p | p in old(store.files) && !Doomed(p, cutoff, store)
  {
    hide YearDoomed;
    var listed := store.ListYears();
    if listed.None? { return; }
    var todo := listed.value;
    while todo != {}
      invariant todo <= listed.value
      invariant store.files == set p | p in old(store.files) && !(p.year !in todo && Doomed(p, cutoff, store))
      decreases todo
    {
      var year :| year in todo;
      PruneYear(store, year, cutoff);
      todo := todo - {year};
    }
  }

  /* ---------- against a full scan ---------- */

  /** What a scan of every file, wherever it is, would leave. */
  function FullScan(files: set<Path>, cutoff: int): set<Path> { set p | p in files && !Expired(p, cutoff) }

  /** What the walk leaves (the `ensures` of PruneResolution) on a store whose operations succeed. */
  function Walked(files: set<Path>, cutoff: int): set<Path> {
    set p | p in files && !(Due(p.year, p.month, p.day, cutoff) && Expired(p, cutoff))
  }

  /** A file that sits in the directory of the day its name begins with. */
  predicate WellPlaced(p: Path) {
    var s := Stem(p.name);
    |s| >= 8 && p.year == s[..4] && p.month == s[4..6] && p.day == s[6..8]
  }

  /** An expired file in its own day's directory is never passed over. */
  lemma ExpiredIsDue(p: Path, cutoff: int)
    requires WellPlaced(p) && Expired(p, cutoff)
    ensures Due(p.year, p.month, p.day, cutoff)
  {
    hide ParseDate, Number;
    var date := ParseDate(p.year, p.month, p.day);
    StampOnItsDay(p.name);
    DayMonotone(ParseStamp(p.name).value, cutoff);
  }

  lemma StampOnItsDay(name: string)
    requires ParseStamp(name).Some?
    ensures |Stem(name)| == 14
    ensures var s := Stem(name); ParseDate(s[..4], s[4..6], s[6..8]) == Some(DayOf(ParseStamp(name).value))
  {
    hide ParseDate, Number;
  }

  lemma DayMonotone(t: int, u: int)
    requires t <= u
    ensures DayOf(t) <= DayOf(u)
  {
  }

  /** The walk leaves what a full scan would exactly when no expired file sits in a directory
      whose date cannot be read or is after the cutoff's day. */
  lemma WalkIsFullScanIff(files: set<Path>, cutoff: int)
    ensures Walked(files, cutoff) == FullScan(files, cutoff)
            <==> forall p :: p in files && Expired(p, cutoff) ==> Due(p.year, p.month, p.day, cutoff)
  {
    hide Expired, Due;
    if p :| p in files && Expired(p, cutoff) && !Due(p.year, p.month, p.day, cutoff) {
      assert p in Walked(files, cutoff) && p !in FullScan(files, cutoff);
    }
  }

  /** When every file that carries a time stamp sits in the directory of its day, skipping the later
      days changes nothing. */
  lemma WalkIsFullScan(files: set<Path>, cutoff: int)
    requires forall p :: p in files && ParseStamp(p.name).Some? ==> WellPlaced(p)
    ensures Walked(files, cutoff) == FullScan(files, cutoff)
  {
    hide ParseStamp, Due;
    forall p | p in files && Expired(p, cutoff) ensures Due(p.year, p.month, p.day, cutoff) { ExpiredIsDue(p, cutoff); }
  }

  /** A file in the directory of its day is left exactly if its time is the cutoff or later; one without a time is left. */
  lemma LivesUntilCutoff(files: set<Path>, cutoff: int, p: Path)
    requires p in files && (ParseStamp(p.name).Some? ==> WellPlaced(p))
    ensures p !in Walked(files, cutoff) <==> ParseStamp(p.name).Some? && ParseStamp(p.name).value < cutoff
  {
    hide ParseStamp, Due;
    if Expired(p, cutoff) { ExpiredIsDue(p, cutoff); }
  }

  /** One pass over any store is a full scan exactly when every expired file is in reach of the walk: in listable
      directories of a readable date not after the cutoff's day, and removable. If all operations succeed, it is one
      exactly when no expired file is misplaced, and so when every file sits in the directory of its day. */
  method PruneAsFullScan(store: Store, cutoff: int)
    modifies store`files
    ensures store.files == FullScan(old(store.files), cutoff)
            <==> forall p :: p in old(store.files) && Expired(p, cutoff) ==> Doomed(p, cutoff, store)
    ensures store.unlistable == {} && store.stuck == {} ==>
              (store.files == FullScan(old(store.files), cutoff)
               <==> forall p :: p in old(store.files) && Expired(p, cutoff) ==> Due(p.year, p.month, p.day, cutoff))
    ensures store.unlistable == {} && store.stuck == {}
            && (forall p :: p in old(store.files) && ParseStamp(p.name).Some? ==> WellPlaced(p)) ==>
              store.files == FullScan(old(store.files), cutoff)
  {
    hide ParseStamp, Due, WellPlaced;
    ghost var was := store.files;
    PruneResolution(store, cutoff);
    WalkIsFullScanIff(was, cutoff);
    if store.unlistable == {} && store.stuck == {} {
      assert store.files == Walked(was, cutoff);
      if forall p :: p in was && ParseStamp(p.name).Some? ==> WellPlaced(p) {
        WalkIsFullScan(was, cutoff);
      }
    }
    if p :| p in was && Expired(p, cutoff) && !Doomed(p, cutoff, store) {
      assert p in store.files && p !in FullScan(was, cutoff);
    }
  }
}
