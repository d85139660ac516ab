/**
 * The history-fact fetchers (fetchFactForToday and fetchFactForDay) with the
 * HTTP request and the JSON decoding taken out. What the remote server sends
 * back for a path, already decoded to its `data.Events` list, and the value
 * that `randint` draws are parameters of the model, bundled as a `World`.
 */
module Facts {
  import opened Wrappers
  import opened Errors
  import opened Decimal

  /** One record of `data.Events`: its 'year' and 'text' fields. */
  datatype Fact = Fact(year: string, text: string)

  /**
   * The outside world of one invocation: `get(path)` is the decoded event list
   * the history server answers for a GET of `path`, and `pick(a, b)` is the
   * value `randint(a, b)` returns.
   */
  datatype World = World(get: string -> seq<Fact>, pick: (int, int) -> int)

  /** `pick` behaves like `randint`: it draws from [lo, hi], both ends included. */
  ghost predicate IsRandInt(pick: (int, int) -> int)
  {
    forall lo, hi :: lo <= hi ==> lo <= pick(lo, hi) <= hi
  }

  /** `randint(lo, hi)`: raises ValueError on an empty range. */
  function RandInt(w: World, lo: int, hi: int): (r: Result<int, Error>)
    requires IsRandInt(w.pick)
    ensures r.Success? <==> lo <= hi
    ensures r.Success? ==> lo <= r.value <= hi
    ensures r.Failure? ==> r.error == EmptyRange
  {
    if lo <= hi then Success(w.pick(lo, hi)) else Failure(EmptyRange)
  }

  /** `facts[i]` for the non-negative indices the fetchers use: IndexError past the end. */
  function Nth(facts: seq<Fact>, i: nat): (r: Result<Fact, Error>)
    ensures r.Success? <==> i < |facts|
    ensures r.Success? ==> r.value == facts[i]
    ensures r.Failure? ==> r.error == IndexOutOfRange
  {
    if i < |facts| then Success(facts[i]) else Failure(IndexOutOfRange)
  }

  /** `calendar.month_name`: index 0 is the empty string, 1 to 12 the English names. */
  const MonthNames: seq<string> := [
    "", "January", "February", "March", "April", "May", "June",
    "July", "August", "September", "October", "November", "December"]

  /** The twelve names are distinct and contain no space. */
  lemma MonthNamesDistinct(m1: int, m2: int)
    requires 1 <= m1 <= 12 && 1 <= m2 <= 12
    ensures MonthNames[m1] == MonthNames[m2] ==> m1 == m2
    ensures ' ' !in MonthNames[m1]
  {
  }

  const TodayPath: string := "/date"

  /** "/date/" + str(month) + "/" + str(day) */
  function DayPath(month: nat, day: nat): (p: string)
    ensures |p| > |TodayPath| && p[..|TodayPath|] == TodayPath
  {
    "/date/" + NatToDecimal(month) + "/" + NatToDecimal(day)
  }

  /**
   * The by-day request never asks for today's resource, and distinct dates
   * are distinct requests.
   */
  lemma DayPathInjective(m1: nat, d1: nat, m2: nat, d2: nat)
    ensures DayPath(m1, d1) != TodayPath
    ensures DayPath(m1, d1) == DayPath(m2, d2) ==> m1 == m2 && d1 == d2
  {
    if DayPath(m1, d1) == DayPath(m2, d2) {
      var a1, b1 := NatToDecimal(m1), NatToDecimal(d1);
      var a2, b2 := NatToDecimal(m2), NatToDecimal(d2);
      assert a1 + ['/'] + b1 == DayPath(m1, d1)[6..];
      assert a2 + ['/'] + b2 == DayPath(m2, d2)[6..];
      DigitsExclude(a1, '/');
      DigitsExclude(a2, '/');
      SplitAtSeparator(a1, b1, a2, b2, '/');
      NatToDecimalInjective(m1, m2);
      NatToDecimalInjective(d1, d2);
    }
  }

  /** 'Today in ' + factYear + ', ' + factText */
  function TodayText(f: Fact): string
  {
    "Today in " + f.year + ", " + f.text
  }

  /** 'On ' + calendar.month_name[month] + ' ' + str(day) + ' in ' + factYear + ', ' + factText */
  function DayText(month: int, day: nat, f: Fact): string
    requires 1 <= month <= 12
  {
    "On " + MonthNames[month] + " " + NatToDecimal(day) + " in " + f.year + ", " + f.text
  }

  /** The dated sentence read as: month name, space, day digits, space, the rest. */
  lemma DayTextShape(month: int, day: nat, f: Fact)
    requires 1 <= month <= 12
    ensures DayText(month, day, f) ==
      "On " + (MonthNames[month] + [' '] + (NatToDecimal(day) + [' '] + ("in " + f.year + ", " + f.text)))
  {
  }

  /** The dated sentence names its month and day unambiguously. */
  lemma DayTextNamesDate(m1: int, d1: nat, f1: Fact, m2: int, d2: nat, f2: Fact)
    requires 1 <= m1 <= 12 && 1 <= m2 <= 12
    ensures DayText(m1, d1, f1) == DayText(m2, d2, f2) ==> m1 == m2 && d1 == d2
  {
    if DayText(m1, d1, f1) == DayText(m2, d2, f2) {
      var n1, n2 := MonthNames[m1], MonthNames[m2];
      var a1, a2 := NatToDecimal(d1), NatToDecimal(d2);
      var t1 := "in " + f1.year + ", " + f1.text;
      var t2 := "in " + f2.year + ", " + f2.text;
      var x1 := n1 + [' '] + (a1 + [' '] + t1);
      var x2 := n2 + [' '] + (a2 + [' '] + t2);
      DayTextShape(m1, d1, f1);
      DayTextShape(m2, d2, f2);
      assert x1 == ("On " + x1)[3..] && x2 == ("On " + x2)[3..];
      MonthNamesDistinct(m1, m2);
      MonthNamesDistinct(m2, m1);
      SplitAtSeparator(n1, a1 + [' '] + t1, n2, a2 + [' '] + t2, ' ');
      DigitsExclude(a1, ' ');
      DigitsExclude(a2, ' ');
      SplitAtSeparator(a1, t1, a2, t2, ' ');
      NatToDecimalInjective(d1, d2);
    }
  }

  /**
   * One record drawn uniformly from a list: `randint(0, len(facts) - 1)`
   * followed by `facts[i]`, as fetchFactForDay does it.
   */
  function PickFact(w: World, facts: seq<Fact>): (r: Result<Fact, Error>)
    requires IsRandInt(w.pick)
    ensures r.Success? <==> |facts| > 0
    ensures r.Success? ==> r.value in facts && r.value == facts[w.pick(0, |facts| - 1)]
    ensures r.Failure? ==> r.error == EmptyRange
  {
    match RandInt(w, 0, |facts| - 1)
    case Failure(e) => Failure(e)
    case Success(i) => Nth(facts, i)
  }

  /**
   * fetchFactForToday as written: the index is drawn from [0, len(facts)],
   * one more than the list has, and the selection raises IndexError when the
   * draw lands on len(facts).
   */
  function FetchFactForToday(w: World): (r: Result<string, Error>)
    requires IsRandInt(w.pick)
    ensures var facts := w.get(TodayPath); var i := w.pick(0, |facts|);
      && (r.Success? <==> i < |facts|)
      && (r.Success? ==> r.value == TodayText(facts[i]))
      && (r.Failure? ==> r.error == IndexOutOfRange)
  {
    var facts := w.get(TodayPath);
    var count := |facts|;
    match RandInt(w, 0, count)
    case Failure(e) => Failure(e)
    case Success(i) =>
      match Nth(facts, i)
      case Failure(e) => Failure(e)
      case Success(f) => Success(TodayText(f))
  }

  /**
   * The draw of the today path admits len(facts): a generator that returns
   * the top of its range makes the fetch raise IndexError for every answer of
   * the server, and an empty answer makes it raise for every generator.
   */
  lemma TodayDrawCanPassEnd(get: string -> seq<Fact>, pick: (int, int) -> int)
    requires IsRandInt(pick)
    ensures IsRandInt((lo: int, hi: int) => hi)
    ensures FetchFactForToday(World(get, (lo: int, hi: int) => hi)) == Failure(IndexOutOfRange)
    ensures |get(TodayPath)| == 0 ==> FetchFactForToday(World(get, pick)) == Failure(IndexOutOfRange)
  {
  }

  /** A concrete answer that shows the defect: one record, and randint(0, 1) drawing 1. */
  lemma TodayOneRecordDrawOne()
    ensures var w := World((p: string) => [Fact("1999", "X")], (lo: int, hi: int) => hi);
      IsRandInt(w.pick) && FetchFactForToday(w) == Failure(IndexOutOfRange)
  {
  }

  /**
   * The today fetch with the draw it evidently intends: the same selection as
   * the by-day path, so it fails only when the server has no record.
   */
  function FetchFactForTodayFixed(w: World): (r: Result<string, Error>)
    requires IsRandInt(w.pick)
    ensures var facts := w.get(TodayPath);
      && (r.Success? <==> |facts| > 0)
      && (r.Success? ==> exists k :: 0 <= k < |facts| && r.value == TodayText(facts[k]))
      && (r.Failure? ==> r.error == EmptyRange)
  {
    match PickFact(w, w.get(TodayPath))
    case Failure(e) => Failure(e)
    case Success(f) => Success(TodayText(f))
  }

  /**
   * fetchFactForDay: GET /date/{month}/{day}, draw from [0, len(facts) - 1],
   * always in range when the list is non-empty; an empty list makes randint
   * raise.
   */
  function FetchFactForDay(w: World, month: int, day: nat): (r: Result<string, Error>)
    requires IsRandInt(w.pick)
    requires 1 <= month <= 12
    ensures var facts := w.get(DayPath(month, day));
      && (r.Success? <==> |facts| > 0)
      && (r.Success? ==> r.value == DayText(month, day, facts[w.pick(0, |facts| - 1)]))
      && (r.Success? ==> exists k :: 0 <= k < |facts| && r.value == DayText(month, day, facts[k]))
      && (r.Failure? ==> r.error == EmptyRange)
  {
    match PickFact(w, w.get(DayPath(month, day)))
    case Failure(e) => Failure(e)
    case Success(f) => Success(DayText(month, day, f))
  }

  /**
   * With the server answering [{1999, X}, {2001, Y}], every draw randint can
   * make gives a fact of year 1999 or 2001, and none raises.
   */
  lemma TwoRecordDayFact(w: World, month: int, day: nat)
    requires IsRandInt(w.pick)
    requires 1 <= month <= 12
    requires w.get(DayPath(month, day)) == [Fact("1999", "X"), Fact("2001", "Y")]
    ensures FetchFactForDay(w, month, day) == Success(DayText(month, day, Fact("1999", "X")))
         || FetchFactForDay(w, month, day) == Success(DayText(month, day, Fact("2001", "Y")))
  {
  }
}
