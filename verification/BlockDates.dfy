/** Anchoring a row of day blocks to real dates, on the proleptic Gregorian calendar
    of years 1 to 9999.  Dates are compared by their day number. */
module BlockDates {
  import opened Common

  // ----- The calendar --------------------------------------------------------

  const MIN_YEAR := 1
  const MAX_YEAR := 9999

  predicate Leap(y: int) { y % 4 == 0 && (y % 100 != 0 || y % 400 == 0) }

  function YearLength(y: int): int { if Leap(y) then 366 else 365 }

  function MonthLength(y: int, m: int): int {
    if m == 2 then (if Leap(y) then 29 else 28) else if m == 4 || m == 6 || m == 9 || m == 11 then 30 else 31
  }

  datatype Date = Date(year: int, month: int, day: int)

  predicate Valid(d: Date) {
    MIN_YEAR <= d.year <= MAX_YEAR && 1 <= d.month <= 12 && 1 <= d.day <= MonthLength(d.year, d.month)
  }

  /** Days before a year, and before a month of it. */
  function YearStart(y: int): int { 365 * (y - 1) + (y - 1) / 4 - (y - 1) / 100 + (y - 1) / 400 }

  function MonthStart(y: int, m: int): int {
    if m <= 1 then 0 else MonthStart(y, m - 1) + MonthLength(y, m - 1)
  }

  function DayNumber(d: Date): int
  {
    YearStart(d.year) + MonthStart(d.year, d.month) + d.day
  }

  const LAST_DAY := 3652059

  lemma MultiplesBelow(y: int, k: int)
    requires k > 1
    ensures y / k == (y - 1) / k + if y % k == 0 then 1 else 0
  {
    var q, r := y / k, y % k;
    assert y == q * k + r;
    if r == 0 {
      assert y - 1 == (q - 1) * k + (k - 1);
      Division(q - 1, k - 1, k);
    } else {
      assert y - 1 == q * k + (r - 1);
      Division(q, r - 1, k);
    }
  }

  lemma YearsAdd(y: int)
    ensures YearStart(y + 1) == YearStart(y) + YearLength(y)
  {
    MultiplesBelow(y, 4);
    MultiplesBelow(y, 100);
    MultiplesBelow(y, 400);
    MultipleOf(y, 4, 25);
    MultipleOf(y, 100, 4);
  }

  lemma MultipleOf(y: int, k: int, times: int)
    requires k > 0 && times > 0 && k * times > 0
    ensures y % (k * times) == 0 ==> y % k == 0
  {
    if y % (k * times) == 0 {
      var q := y / (k * times);
      assert y == (q * times) * k + 0;
      Division(q * times, 0, k);
    }
  }

  lemma {:induction false} YearsApart(a: int, b: int)
    requires a <= b
    ensures YearStart(b) - YearStart(a) >= 365 * (b - a)
    decreases b - a
  {
    if a < b {
      YearsApart(a, b - 1);
      YearsAdd(b - 1);
    }
  }

  /** A date lies in its year. */
  lemma {:induction false} InYear(d: Date)
    requires Valid(d)
    ensures YearStart(d.year) < DayNumber(d) <= YearStart(d.year + 1)
    ensures 1 <= DayNumber(d) <= LAST_DAY
  {
    YearsAdd(d.year);
    MonthStarts(d.year);
    YearsApart(MIN_YEAR, d.year);
    YearsApart(d.year + 1, MAX_YEAR + 1);
  }

  lemma MonthStarts(y: int)
    ensures MonthStart(y, 1) == 0 && MonthStart(y, 2) == 31
    ensures forall m {:trigger MonthStart(y, m)} :: 3 <= m <= 12 ==>
      MonthStart(y, m) == [59, 90, 120, 151, 181, 212, 243, 273, 304, 334][m - 3] + if Leap(y) then 1 else 0
  {
    assert MonthStart(y, 1) == 0;
    assert MonthStart(y, 2) == MonthStart(y, 1) + MonthLength(y, 1);
    assert MonthStart(y, 3) == MonthStart(y, 2) + MonthLength(y, 2);
    assert MonthStart(y, 4) == MonthStart(y, 3) + 31;
    assert MonthStart(y, 5) == MonthStart(y, 4) + 30;
    assert MonthStart(y, 6) == MonthStart(y, 5) + 31;
    assert MonthStart(y, 7) == MonthStart(y, 6) + 30;
    assert MonthStart(y, 8) == MonthStart(y, 7) + 31;
    assert MonthStart(y, 9) == MonthStart(y, 8) + 31;
    assert MonthStart(y, 10) == MonthStart(y, 9) + 30;
    assert MonthStart(y, 11) == MonthStart(y, 10) + 31;
    assert MonthStart(y, 12) == MonthStart(y, 11) + 30;
  }

  /** Different dates have different numbers. */
  lemma DayNumberInjective(a: Date, b: Date)
    requires Valid(a) && Valid(b) && DayNumber(a) == DayNumber(b)
    ensures a == b
  {
    InYear(a);
    InYear(b);
    if a.year < b.year { YearsApart(a.year + 1, b.year); }
    if b.year < a.year { YearsApart(b.year + 1, a.year); }
    MonthStarts(a.year);
    assert a.year == b.year;
    if a.month < b.month { MonthsApart(a.year, a.month, b.month); }
    if b.month < a.month { MonthsApart(a.year, b.month, a.month); }
  }

  /** Every day from the first of January of year 1 to the last of December of year 9999
      is a date: the numbers 1 to LAST_DAY are used, each once, and no others. */
  lemma EveryDayIsADate(n: int) returns (d: Date)
    requires 1 <= n <= LAST_DAY
    ensures Valid(d) && DayNumber(d) == n
  {
    hide Leap, YearStart, MonthStart, MonthLength;
    Ends();
    var y := MIN_YEAR;
    while y < MAX_YEAR && YearStart(y + 1) < n
      invariant MIN_YEAR <= y <= MAX_YEAR && YearStart(y) < n
    {
      y := y + 1;
    }
    YearsAdd(y);
    var m := 1;
    MonthNext(y, 1);
    while m < 12 && MonthStart(y, m + 1) < n - YearStart(y)
      invariant 1 <= m <= 12 && MonthStart(y, m) < n - YearStart(y)
    {
      m := m + 1;
    }
    MonthNext(y, m);
    d := Date(y, m, n - YearStart(y) - MonthStart(y, m));
  }

  lemma Ends()
    ensures YearStart(MIN_YEAR) == 0 && YearStart(MAX_YEAR + 1) == LAST_DAY
  {
  }

  lemma MonthNext(y: int, m: nat)
    requires 1 <= m <= 12
    ensures MonthStart(y, 1) == 0
    ensures MonthStart(y, m + 1) == MonthStart(y, m) + MonthLength(y, m)
    ensures m == 12 ==> MonthStart(y, 13) == YearLength(y)
  {
    assert MonthStart(y, 1) == 0;
    if m == 12 { MonthStarts(y); }
  }

  lemma {:induction false} MonthsApart(y: int, m: nat, n: nat)
    requires 1 <= m < n
    ensures MonthStart(y, n) >= MonthStart(y, m) + MonthLength(y, m)
    decreases n
  {
    if m < n - 1 { MonthsApart(y, m, n - 1); }
  }

  // ----- The nearest year ----------------------------------------------------

  function Distance(d: Date, target: Date): nat
  {
    var days := DayNumber(d) - DayNumber(target);
    if days < 0 then -days else days
  }

  predicate Tried(year: int, target: Date) { target.year - 1 <= year <= target.year + 1 }

  /** The date of a month and day nearest to the target over ALL years; the earliest
      of two equally near ones. */
  ghost predicate Nearest(best: Date, month: int, day: int, target: Date)
  {
    && Valid(best) && best.month == month && best.day == day
    && (forall y :: Valid(Date(y, month, day)) ==> NoFarther(best, Date(y, month, day), target))
  }

  predicate NoFarther(a: Date, b: Date, target: Date)
  {
    Distance(a, target) < Distance(b, target) || (Distance(a, target) == Distance(b, target) && a.year <= b.year)
  }

  /** Nothing outside the three years is nearer than the best of them. */
  lemma NearestOfThree(best: Date, month: int, day: int, target: Date)
    requires Valid(target) && Valid(best) && best.month == month && best.day == day && Tried(best.year, target)
    requires forall y :: Tried(y, target) && Valid(Date(y, month, day)) ==> NoFarther(best, Date(y, month, day), target)
    ensures Nearest(best, month, day, target)
  {
    forall y | Valid(Date(y, month, day)) ensures NoFarther(best, Date(y, month, day), target) {
      if !Tried(y, target) {
        if Valid(Date(target.year, month, day)) {
          SameYearBeats(Date(y, month, day), target);
        } else {
          LeapDayBeats(best, Date(y, month, day), target);
        }
      }
    }
  }

  lemma Far(other: Date, target: Date)
    requires Valid(other) && Valid(target) && !Tried(other.year, target)
    ensures Distance(other, target) > 365
  {
    InYear(other);
    InYear(target);
    if other.year > target.year {
      YearsApart(target.year + 1, other.year);
    } else {
      YearsApart(other.year + 1, target.year);
    }
  }

  lemma SameYearBeats(other: Date, target: Date)
    requires Valid(other) && Valid(target) && !Tried(other.year, target)
    requires Valid(Date(target.year, other.month, other.day))
    ensures Distance(Date(target.year, other.month, other.day), target) < Distance(other, target)
  {
    Far(other, target);
    InYear(target);
    InYear(Date(target.year, other.month, other.day));
    YearsAdd(target.year);
  }

  lemma LeapYearsApart(a: int, b: int)
    requires Leap(a) && Leap(b) && a < b
    ensures b - a >= 4
  {
  }

  lemma LeapDay(d: Date)
    requires d.month == 2 && d.day == 29
    ensures DayNumber(d) == YearStart(d.year) + 60
    ensures Valid(d) ==> Leap(d.year)
  {
    MonthStarts(d.year);
  }

  /** Only February 29 can miss the target's own year. */
  lemma OnlyLeapDayMisses(best: Date, target: Date)
    requires Valid(best) && Valid(target) && !Valid(Date(target.year, best.month, best.day))
    ensures best.month == 2 && best.day == 29 && !Leap(target.year)
  {
  }

  /** Leap years are so far apart that one next to the target beats every other. */
  lemma LeapDayBeats(best: Date, other: Date, target: Date)
    requires Valid(best) && Valid(other) && Valid(target) && best.month == other.month && best.day == other.day
    requires Tried(best.year, target) && !Tried(other.year, target) && !Valid(Date(target.year, best.month, best.day))
    ensures Distance(best, target) < Distance(other, target)
  {
    OnlyLeapDayMisses(best, target);
    LeapDay(best);
    LeapDay(other);
    InYear(target);
    hide YearStart, Leap, MonthStart, DayNumber, Valid;
    if best.year < other.year { LeapYearsApart(best.year, other.year); } else { LeapYearsApart(other.year, best.year); }
    if other.year > target.year { LaterLeapDay(best, other, target); } else { EarlierLeapDay(best, other, target); }
  }

  lemma LaterLeapDay(best: Date, other: Date, target: Date)
    requires DayNumber(best) == YearStart(best.year) + 60 && DayNumber(other) == YearStart(other.year) + 60
    requires YearStart(target.year) < DayNumber(target) <= YearStart(target.year + 1)
    requires best.year == target.year - 1 || best.year == target.year + 1
    requires other.year >= best.year + 4
    ensures Distance(best, target) < Distance(other, target)
  {
    hide YearStart, DayNumber;
    YearsAdd(target.year - 1);
    YearsAdd(target.year);
    YearsApart(target.year + 1, other.year);
  }

  lemma EarlierLeapDay(best: Date, other: Date, target: Date)
    requires DayNumber(best) == YearStart(best.year) + 60 && DayNumber(other) == YearStart(other.year) + 60
    requires YearStart(target.year) < DayNumber(target) <= YearStart(target.year + 1)
    requires best.year == target.year - 1 || best.year == target.year + 1
    requires other.year <= best.year - 4 && other.year < target.year
    ensures Distance(best, target) < Distance(other, target)
  {
    hide YearStart, DayNumber;
    YearsAdd(target.year - 1);
    YearsAdd(target.year);
    YearsApart(other.year, target.year);
  }

  // ----- Parsing one block ---------------------------------------------------

  /** What a block's date text reads as: nothing, a full date, a month and day, or
      text in neither form. */
  datatype Label = Blank | Iso(year: int, month: int, day: int) | MonthDay(month: int, day: int) | Unreadable

  datatype Outcome<+T> = Ok(value: T) | ValueError | OverflowError

  function Closer(best: Option<Date>, candidate: Date, target: Date): Option<Date>
  {
    if !Valid(candidate) then best
    else if best.None? || Distance(candidate, target) < Distance(best.value, target) then Some(candidate)
    else best
  }

  /** The best of the first n tried years. */
  function BestOf(month: int, day: int, target: Date, n: nat): (best: Option<Date>)
    ensures best.Some? ==> Valid(best.value)
  {
    if n == 0 then None else Closer(BestOf(month, day, target, n - 1), Date(target.year - 2 + n, month, day), target)
  }

  function NearestDate(month: int, day: int, target: Date): Option<Date>
  {
    BestOf(month, day, target, 3)
  }

  method NearestTried(month: int, day: int, target: Date) returns (best: Option<Date>)
    requires Valid(target)
    ensures best == NearestDate(month, day, target)
  {
    hide Valid, Distance;
    best := None;
    for year := target.year - 1 to target.year + 2
      invariant best == BestOf(month, day, target, year - (target.year - 1))
    {
      best := Closer(best, Date(year, month, day), target);
    }
  }

  lemma {:induction false} BestOfTried(month: int, day: int, target: Date, n: nat)
    requires Valid(target)
    ensures var best := BestOf(month, day, target, n);
      && (best.None? <==> forall y :: target.year - 1 <= y < target.year - 1 + n ==> !Valid(Date(y, month, day)))
      && (best.Some? ==> best.value.month == month && best.value.day == day && target.year - 1 <= best.value.year < target.year - 1 + n)
      && (best.Some? ==> forall y :: target.year - 1 <= y < target.year - 1 + n && Valid(Date(y, month, day)) ==>
            NoFarther(best.value, Date(y, month, day), target))
  {
    hide Valid, Distance;
    if n > 0 { BestOfTried(month, day, target, n - 1); }
  }

  /** The date chosen is the nearest over all years, and none is chosen exactly when
      the month and day exist in none of the three years tried. */
  lemma NearestDateIsNearest(month: int, day: int, target: Date)
    requires Valid(target)
    ensures var best := NearestDate(month, day, target);
      && (best.None? <==> forall y :: Tried(y, target) ==> !Valid(Date(y, month, day)))
      && (best.Some? ==> Nearest(best.value, month, day, target))
  {
    hide Valid, Distance;
    BestOfTried(month, day, target, 3);
    var best := NearestDate(month, day, target);
    if best.Some? { NearestOfThree(best.value, month, day, target); }
  }

  /** One day and month in two years is at least 365 days apart. */
  lemma SameDayApart(a: Date, b: Date)
    requires Valid(a) && Valid(b) && a.month == b.month && a.day == b.day && a.year < b.year
    ensures DayNumber(b) - DayNumber(a) >= 365
  {
    YearsAdd(a.year);
    YearsApart(a.year + 1, b.year);
    MonthStarts(a.year);
    MonthStarts(b.year);
  }

  /** The label of a real day within half a year of the target reads back as it. */
  lemma LabelReadsBack(d: Date, target: Date)
    requires Valid(d) && Valid(target) && Distance(d, target) <= 182
    ensures NearestDate(d.month, d.day, target) == Some(d)
  {
    if !Tried(d.year, target) { Far(d, target); }
    NearestDateIsNearest(d.month, d.day, target);
    var best := NearestDate(d.month, d.day, target);
    assert Valid(Date(d.year, d.month, d.day));
    assert best.Some? && NoFarther(best.value, d, target);
    if best.value.year < d.year {
      SameDayApart(best.value, d);
    } else if d.year < best.value.year {
      SameDayApart(d, best.value);
    }
  }

  function Parse(text: Label, target: Date): Outcome<Option<int>>
  {
    match text
    case Iso(y, m, d) => if Valid(Date(y, m, d)) then Ok(Some(DayNumber(Date(y, m, d)))) else ValueError
    case MonthDay(m, d) =>
      var best := NearestDate(m, d, target);
      Ok(if best.None? then None else Some(DayNumber(best.value)))
    case _ => Ok(None)
  }

  // ----- Resolving a row of blocks -------------------------------------------

  datatype DayName = Today | Tomorrow | OtherName

  datatype Block = Block(text: Label, name: DayName)

  function ParseAll(blocks: seq<Block>, target: Date): (r: Outcome<seq<Option<int>>>)
    ensures r.Ok? <==> forall i :: 0 <= i < |blocks| ==> Parse(blocks[i].text, target).Ok?
    ensures r.Ok? ==> |r.value| == |blocks| && forall i :: 0 <= i < |blocks| ==> Parse(blocks[i].text, target) == Ok(r.value[i])
    ensures !r.Ok? ==> r.ValueError?
  {
    if blocks == [] then Ok([])
    else
      var front, last := ParseAll(blocks[..|blocks| - 1], target), Parse(blocks[|blocks| - 1].text, target);
      if !front.Ok? then front else if !last.Ok? then ValueError else Ok(front.value + [last.value])
  }

  function FirstSome(out: seq<Option<int>>): (a: nat)
    ensures a <= |out|
    ensures forall i :: 0 <= i < a ==> out[i].None?
    ensures a < |out| ==> out[a].Some?
  {
    if out == [] || out[0].Some? then 0 else 1 + FirstSome(out[1..])
  }

  /** base + timedelta(days=i - anchor) for every block. */
  function Spread(base: int, anchor: nat, n: nat): Outcome<seq<Option<int>>>
    requires anchor < n
  {
    if base - anchor >= 1 && base + (n - 1 - anchor) <= LAST_DAY then Ok(seq(n, i requires 0 <= i < n => Some(base + i - anchor)))
    else OverflowError
  }

  function ByName(blocks: seq<Block>, today: int): seq<Option<int>> {
    seq(|blocks|, i requires 0 <= i < |blocks| =>
      if blocks[i].name.Today? then Some(today) else if blocks[i].name.Tomorrow? then Some(today + 1) else None)
  }

  /** The specification of resolve_block_dates. */
  function Resolved(blocks: seq<Block>, target: Date, today: int): Outcome<seq<Option<int>>>
  {
    var parsed := ParseAll(blocks, target);
    if !parsed.Ok? then parsed
    else
      var a, named := FirstSome(parsed.value), ByName(blocks, today);
      var b := FirstSome(named);
      if a < |blocks| then Spread(parsed.value[a].value, a, |blocks|)
      else if today == LAST_DAY && exists i :: 0 <= i < |blocks| && blocks[i].name.Tomorrow? then OverflowError
      else if b < |blocks| then Spread(named[b].value, b, |blocks|)
      else parsed
  }

  method ResolveBlockDates(blocks: seq<Block>, target: Date, today: int) returns (r: Outcome<seq<Option<int>>>)
    requires Valid(target) && 1 <= today <= LAST_DAY
    ensures r == Resolved(blocks, target, today)
  {
    hide Valid, Parse;
    var out: seq<Option<int>> := [];
    for i := 0 to |blocks|
      invariant ParseAll(blocks[..i], target) == Ok(out)
    {
      assert blocks[..i + 1][..i] == blocks[..i];
      var parsed := Parse(blocks[i].text, target);
      if !parsed.Ok? {
        assert !Parse(blocks[i].text, target).Ok?;
        return ValueError;
      }
      out := out + [parsed.value];
    }
    assert blocks[..|blocks|] == blocks;
    ghost var dated := out;
    var anchor := FirstSome(out);
    if anchor < |blocks| {
      return Spread(out[anchor].value, anchor, |blocks|);
    }
    for i := 0 to |blocks|
      invariant |out| == |blocks|
      invariant forall j :: 0 <= j < i ==> out[j] == ByName(blocks, today)[j]
      invariant forall j :: i <= j < |blocks| ==> out[j] == None
      invariant today == LAST_DAY ==> forall j :: 0 <= j < i ==> !blocks[j].name.Tomorrow?
    {
      match blocks[i].name {
        case Today => out := out[i := Some(today)];
        case Tomorrow =>
          if today == LAST_DAY { return OverflowError; }
          out := out[i := Some(today + 1)];
        case OtherName =>
      }
    }
    assert out == ByName(blocks, today);
    anchor := FirstSome(out);
    if anchor < |blocks| {
      return Spread(out[anchor].value, anchor, |blocks|);
    }
    assert out == dated;
    return Ok(out);
  }

  // ----- What resolving promises ---------------------------------------------

  ghost predicate Dated(blocks: seq<Block>, target: Date)
  {
    exists i :: 0 <= i < |blocks| && Parse(blocks[i].text, target).Ok? && Parse(blocks[i].text, target).value.Some?
  }

  ghost predicate Named(blocks: seq<Block>) {
    exists i :: 0 <= i < |blocks| && !blocks[i].name.OtherName?
  }

  /** With any anchor the days are consecutive; without one there are none. */
  lemma ConsecutiveDays(blocks: seq<Block>, target: Date, today: int)
    requires Resolved(blocks, target, today).Ok?
    ensures var out := Resolved(blocks, target, today).value;
      && |out| == |blocks|
      && (Dated(blocks, target) || Named(blocks) ==>
            forall i, j :: 0 <= i < |out| && 0 <= j < |out| ==> out[i].Some? && out[j].Some? && out[j].value - out[i].value == j - i)
      && (!Dated(blocks, target) && !Named(blocks) ==> forall i :: 0 <= i < |out| ==> out[i].None?)
      && (forall i :: 0 <= i < |out| && out[i].Some? ==> 1 <= out[i].value <= LAST_DAY)
  {
    hide Parse;
    var parsed := ParseAll(blocks, target);
    assert parsed.Ok?;
    var a := FirstSome(parsed.value);
    if a < |blocks| {
      assert Parse(blocks[a].text, target) == Ok(parsed.value[a]);
      assert Dated(blocks, target);
    } else {
      assert !Dated(blocks, target);
      NamedAnchor(blocks, today);
    }
  }

  lemma NamedAnchor(blocks: seq<Block>, today: int)
    ensures Named(blocks) <==> FirstSome(ByName(blocks, today)) < |blocks|
  {
    var named := ByName(blocks, today);
    var b := FirstSome(named);
    if b < |blocks| { assert named[b].Some? && !blocks[b].name.OtherName?; }
    if Named(blocks) {
      var i :| 0 <= i < |blocks| && !blocks[i].name.OtherName?;
      assert named[i].Some?;
    }
  }

  /** One dated block is enough to make the machine's clock irrelevant. */
  lemma ClockIrrelevant(blocks: seq<Block>, target: Date, today: int, today': int)
    requires Dated(blocks, target)
    ensures Resolved(blocks, target, today) == Resolved(blocks, target, today')
  {
    hide Parse;
    var parsed := ParseAll(blocks, target);
    if parsed.Ok? {
      var i :| 0 <= i < |blocks| && Parse(blocks[i].text, target).Ok? && Parse(blocks[i].text, target).value.Some?;
      assert Parse(blocks[i].text, target) == Ok(parsed.value[i]);
      assert parsed.value[i].Some?;
    }
  }

  /** At most one block is the target's day, so no day is read twice. */
  lemma AtMostOneTarget(blocks: seq<Block>, target: Date, today: int, i: nat, j: nat)
    requires Resolved(blocks, target, today).Ok?
    requires var out := Resolved(blocks, target, today).value;
      i < |out| && j < |out| && out[i] == out[j] == Some(DayNumber(target))
    ensures i == j
  {
    ConsecutiveDays(blocks, target, today);
  }

  /** A label that names this day: its month and day, or its full date. */
  predicate Labels(text: Label, d: Date) { text == MonthDay(d.month, d.day) || text == Iso(d.year, d.month, d.day) }

  /** A row of real consecutive days, some of them labelled with their month and day or
      their full date, resolves to those days, if the first labelled one has a full
      date or is within half a year of the target, whatever today is. */
  lemma RealDaysRecovered(blocks: seq<Block>, days: seq<Date>, first: nat, target: Date, today: int)
    requires Valid(target) && |days| == |blocks| && first < |blocks|
    requires forall i :: 0 <= i < |days| ==> Valid(days[i]) && DayNumber(days[i]) == DayNumber(days[0]) + i
    requires forall i :: 0 <= i < first ==> blocks[i].text.Blank? || blocks[i].text.Unreadable?
    requires forall i :: first <= i < |blocks| ==>
      blocks[i].text.Blank? || blocks[i].text.Unreadable? || Labels(blocks[i].text, days[i])
    requires Labels(blocks[first].text, days[first])
    requires blocks[first].text.MonthDay? ==> Distance(days[first], target) <= 182
    ensures Resolved(blocks, target, today) == Ok(seq(|days|, i requires 0 <= i < |days| => Some(DayNumber(days[i]))))
  {
    hide Valid, DayNumber, NearestDate, Parse, Distance, Spread;
    var n := |blocks|;
    if blocks[first].text.MonthDay? { LabelReadsBack(days[first], target); }
    ParseLabel(days[first], blocks[first].text, target);
    forall i | 0 <= i < n ensures Parse(blocks[i].text, target).Ok? {
      if i >= first && Labels(blocks[i].text, days[i]) { LabelParses(days[i], blocks[i].text, target); } else { NoLabelParses(blocks[i].text, target); }
    }
    AnchorIs(blocks, first, DayNumber(days[first]), target);
    InYear(days[0]);
    InYear(days[n - 1]);
    SpreadIs(DayNumber(days[first]), first, days);
  }

  lemma LabelParses(d: Date, text: Label, target: Date)
    requires Valid(d) && Labels(text, d)
    ensures Parse(text, target).Ok?
  {
  }

  lemma NoLabelParses(text: Label, target: Date)
    requires text.Blank? || text.Unreadable?
    ensures Parse(text, target).Ok?
  {
  }

  /** Resolving raises a ValueError exactly when some block carries a full date that is
      no date. */
  lemma ValueErrorExactly(blocks: seq<Block>, target: Date, today: int)
    ensures Resolved(blocks, target, today).ValueError? <==>
      exists i :: 0 <= i < |blocks| && blocks[i].text.Iso? && !Valid(Date(blocks[i].text.year, blocks[i].text.month, blocks[i].text.day))
  {
    hide NearestDate, Valid, DayNumber;
    forall i | 0 <= i < |blocks|
      ensures !Parse(blocks[i].text, target).Ok? <==>
        blocks[i].text.Iso? && !Valid(Date(blocks[i].text.year, blocks[i].text.month, blocks[i].text.day))
    {
    }
  }

  /** And otherwise an OverflowError exactly when the row would leave the calendar: the
      days around the anchor, or tomorrow. */
  lemma OverflowErrorExactly(blocks: seq<Block>, target: Date, today: int, anchor: nat, base: int)
    requires anchor < |blocks| && forall i :: 0 <= i < anchor ==> Parse(blocks[i].text, target) == Ok(None)
    requires Parse(blocks[anchor].text, target) == Ok(Some(base))
    requires !Resolved(blocks, target, today).ValueError?
    ensures Resolved(blocks, target, today).OverflowError? <==> base - anchor < 1 || base + (|blocks| - 1 - anchor) > LAST_DAY
  {
    hide Parse;
    assert ParseAll(blocks, target).Ok?;
    AnchorIs(blocks, anchor, base, target);
  }

  /** Without a readable date the first block named today or tomorrow is that day. */
  lemma NamedDayIsToday(blocks: seq<Block>, target: Date, today: int, first: nat)
    requires !Dated(blocks, target) && Resolved(blocks, target, today).Ok?
    requires first < |blocks| && !blocks[first].name.OtherName? && forall i :: 0 <= i < first ==> blocks[i].name.OtherName?
    ensures Resolved(blocks, target, today).value[first] == Some(if blocks[first].name.Tomorrow? then today + 1 else today)
    ensures blocks[first].name.Tomorrow? ==> today < LAST_DAY
  {
    hide Parse;
    var parsed, named := ParseAll(blocks, target), ByName(blocks, today);
    var a := FirstSome(parsed.value);
    assert named[first].Some?;
    assert FirstSome(named) == first;
  }

  lemma ParseLabel(d: Date, text: Label, target: Date)
    requires Valid(d) && Labels(text, d)
    requires text.MonthDay? ==> NearestDate(d.month, d.day, target) == Some(d)
    ensures Parse(text, target) == Ok(Some(DayNumber(d)))
  {
  }

  lemma SpreadIs(base: int, anchor: nat, days: seq<Date>)
    requires anchor < |days| && base == DayNumber(days[anchor])
    requires forall i :: 0 <= i < |days| ==> DayNumber(days[i]) == DayNumber(days[0]) + i
    requires 1 <= DayNumber(days[0]) && DayNumber(days[|days| - 1]) <= LAST_DAY
    ensures Spread(base, anchor, |days|) == Ok(seq(|days|, i requires 0 <= i < |days| => Some(DayNumber(days[i]))))
  {
    hide DayNumber;
    var out := seq(|days|, i requires 0 <= i < |days| => Some(DayNumber(days[i])));
    var n := |days|;
    assert base == DayNumber(days[0]) + anchor && DayNumber(days[n - 1]) == DayNumber(days[0]) + (n - 1);
    assert Spread(base, anchor, n).Ok?;
    assert Spread(base, anchor, n).value == out;
  }

  /** The first readable text is the anchor. */
  lemma AnchorIs(blocks: seq<Block>, first: nat, day: int, target: Date)
    requires first < |blocks| && forall i :: 0 <= i < |blocks| ==> Parse(blocks[i].text, target).Ok?
    requires forall i :: 0 <= i < first ==>
      blocks[i].text.Blank? || blocks[i].text.Unreadable? || Parse(blocks[i].text, target) == Ok(None)
    requires Parse(blocks[first].text, target) == Ok(Some(day))
    ensures ParseAll(blocks, target).Ok? && FirstSome(ParseAll(blocks, target).value) == first
    ensures ParseAll(blocks, target).value[first] == Some(day)
  {
    hide NearestDate, Valid;
    var parsed := ParseAll(blocks, target);
    forall i | 0 <= i < first ensures parsed.value[i].None? {
      assert Parse(blocks[i].text, target) == Ok(parsed.value[i]);
    }
    assert Parse(blocks[first].text, target) == Ok(parsed.value[first]);
  }
}
