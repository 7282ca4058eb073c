/** `generateLast12MonthsData` of server/services/analytics/analytics.generator.ts:
    twelve consecutive 28-day windows ending tomorrow, each with the number
    of records created inside it. Days are integer ordinals and the records
    are given by their creation days. */
module Analytics {
  /** Days in one window. */
  const WindowDays := 28
  /** Number of windows reported. */
  const Windows := 12

  /** One reported window. The generator labels it with the locale text of
      its end date; here the label is that end day itself. */
  datatype MonthData = MonthData(month: int, count: nat)

  /** `countDocuments({createdAt: {$gte: start, $lt: end}})`. */
  function CountIn(createdAt: seq<int>, start: int, end: int): (c: nat)
    ensures c <= |createdAt|
    ensures end <= start ==> c == 0
  {
    if createdAt == [] then 0
    else CountIn(createdAt[..|createdAt| - 1], start, end) +
         (if start <= createdAt[|createdAt| - 1] < end then 1 else 0)
  }

  /** End (exclusive) of the `k`-th window, oldest first: the loop index
      `i = 11 - k` gives `tomorrow - 28 * i`. */
  function WindowEnd(today: int, k: nat): int {
    today + 1 - WindowDays * (Windows - 1 - k)
  }

  /** Start (inclusive) of the `k`-th window. */
  function WindowStart(today: int, k: nat): int {
    WindowEnd(today, k) - WindowDays
  }

  /** Each window starts where the previous one ends, so the windows run
      oldest to newest without gaps. */
  lemma WindowsContiguous(today: int, k: nat)
    requires 0 < k < Windows
    ensures WindowStart(today, k) == WindowEnd(today, k - 1)
    ensures WindowEnd(today, k - 1) < WindowEnd(today, k)
  {
  }

  /** The newest window ends tomorrow and the twelve cover 336 days. */
  lemma WindowsSpan(today: int)
    ensures WindowEnd(today, Windows - 1) == today + 1
    ensures WindowEnd(today, Windows - 1) - WindowStart(today, 0) == 336
  {
  }

  /** The windows are half-open, so a day falls in at most one of them. */
  lemma AtMostOneWindow(today: int, t: int, k1: nat, k2: nat)
    requires WindowStart(today, k1) <= t < WindowEnd(today, k1)
    requires WindowStart(today, k2) <= t < WindowEnd(today, k2)
    ensures k1 == k2
  {
  }

  /** Counting over `[a, c)` is counting over `[a, b)` and then `[b, c)`. */
  lemma {:induction false} CountInSplit(createdAt: seq<int>, a: int, b: int, c: int)
    requires a <= b <= c
    ensures CountIn(createdAt, a, c) == CountIn(createdAt, a, b) + CountIn(createdAt, b, c)
  {
    if createdAt != [] {
      CountInSplit(createdAt[..|createdAt| - 1], a, b, c);
    }
  }

  /** Sum of the reported counts. */
  function TotalCount(months: seq<MonthData>): nat {
    if months == [] then 0 else TotalCount(months[..|months| - 1]) + months[|months| - 1].count
  }

  /** `generateLast12MonthsData`: twelve entries, oldest first; entry `k`
      counts the records of window `k`; together they count every record of
      the 336 days ending tomorrow exactly once. */
  method GenerateLast12MonthsData(createdAt: seq<int>, today: int) returns (months: seq<MonthData>)
    ensures |months| == Windows
    ensures forall k: nat :: k < |months| ==>
              months[k] == MonthData(WindowEnd(today, k),
                                     CountIn(createdAt, WindowStart(today, k), WindowEnd(today, k)))
    ensures TotalCount(months) == CountIn(createdAt, today + 1 - 336, today + 1)
  {
    var currentDate := today + 1;
    months := [];
    var i := 11;
    while i >= 0
      invariant -1 <= i <= 11 && |months| == 11 - i
      invariant forall k: nat :: k < |months| ==>
                  months[k] == MonthData(WindowEnd(today, k),
                                         CountIn(createdAt, WindowStart(today, k), WindowEnd(today, k)))
      invariant TotalCount(months) == CountIn(createdAt, currentDate - 336, currentDate - 28 * (i + 1))
    {
      var endDate := currentDate - i * 28;
      var startDate := endDate - 28;
      var count := CountIn(createdAt, startDate, endDate);
      CountInSplit(createdAt, currentDate - 336, startDate, endDate);
      ghost var before := months;
      months := months + [MonthData(endDate, count)];
      assert months[..|months| - 1] == before;
      i := i - 1;
    }
  }
}
