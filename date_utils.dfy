/**
 * `DateUtils` of the weather service: whether a period is long, and the
 * splitting of a period into consecutive ranges (calendar months, or chunks of
 * three months) so that a long history can be requested piece by piece.
 */
module DateUtils {
  import opened Calendar

  /** A closed range of dates. */
  datatype DateRange = DateRange(start: Date, end: Date)

  ghost predicate WellFormed(r: DateRange)
  {
    ValidDate(r.start) && ValidDate(r.end) && !IsAfter(r.start, r.end)
  }

  /**
   * `ranges` covers every day from `start` to `end` exactly once, in order:
   * each range is non-empty and the next one starts the day after it ends.
   */
  ghost predicate Tiles(ranges: seq<DateRange>, start: Date, end: Date)
  {
    && ranges != []
    && ranges[0].start == start
    && ranges[|ranges| - 1].end == end
    && (forall i :: 0 <= i < |ranges| ==> WellFormed(ranges[i]))
    && (forall i :: 0 <= i < |ranges| - 1 ==>
          ValidDate(ranges[i].end) && NextDay(ranges[i].end) == ranges[i + 1].start)
  }

  /** Every range of a tiling starts no earlier than `start`. */
  lemma {:induction false} TileStartsWithin(ranges: seq<DateRange>, start: Date, end: Date, i: int)
    requires Tiles(ranges, start, end) && 0 <= i < |ranges|
    ensures !IsBefore(ranges[i].start, start)
  {
    if i > 0 {
      TileStartsWithin(ranges, start, end, i - 1);
      assert WellFormed(ranges[i - 1]);
    }
  }

  /** Every range of a tiling ends no later than `end`. */
  lemma {:induction false} TileEndsWithin(ranges: seq<DateRange>, start: Date, end: Date, i: int)
    requires Tiles(ranges, start, end) && 0 <= i < |ranges|
    ensures !IsAfter(ranges[i].end, end)
    decreases |ranges| - i
  {
    if i < |ranges| - 1 {
      TileEndsWithin(ranges, start, end, i + 1);
      assert WellFormed(ranges[i + 1]);
    }
  }

  /** Each range of a tiling lies inside the period it tiles. */
  lemma TilesWithin(ranges: seq<DateRange>, start: Date, end: Date)
    requires Tiles(ranges, start, end)
    ensures forall i :: 0 <= i < |ranges| ==>
              !IsBefore(ranges[i].start, start) && !IsAfter(ranges[i].end, end)
  {
    forall i | 0 <= i < |ranges|
      ensures !IsBefore(ranges[i].start, start) && !IsAfter(ranges[i].end, end)
    {
      TileStartsWithin(ranges, start, end, i);
      TileEndsWithin(ranges, start, end, i);
    }
  }

  /** `isLongPeriod`: more than `thresholdMonths` months between the two dates. */
  predicate IsLongPeriod(start: Date, end: Date, thresholdMonths: int)
  {
    MonthsBetween(start, end) > thresholdMonths
  }

  /** A period is long when it spans more than the threshold in whole months. */
  lemma IsLongPeriodCountsWholeMonths(start: Date, end: Date, thresholdMonths: int)
    requires ValidDate(start) && ValidDate(end) && !IsAfter(start, end)
    ensures IsLongPeriod(start, end, thresholdMonths)
        <==> ProlepticMonth(end) - ProlepticMonth(start) - (if end.day < start.day then 1 else 0) > thresholdMonths
  {
    MonthsBetweenCountsWholeMonths(start, end);
  }

  /** When a day's next day is after `e`, the day itself is not before `e`. */
  lemma NotBeforeWhenNextAfter(d: Date, e: Date)
    requires ValidDate(d) && ValidDate(e)
    requires IsAfter(NextDay(d), e)
    ensures !IsBefore(d, e)
  {
    if IsBefore(d, e) {
      NextDayIsNext(d, e);
    }
  }

  /**
   * Loop state of the splitting methods: the ranges so far tile the days from
   * `start` up to the day before `current`, and none of them passes `end`.
   */
  ghost predicate Covered(ranges: seq<DateRange>, start: Date, end: Date, current: Date)
  {
    && ValidDate(current)
    && (ranges == [] ==> current == start)
    && (ranges != [] ==>
          && !IsAfter(start, end)
          && Tiles(ranges, start, ranges[|ranges| - 1].end)
          && NextDay(ranges[|ranges| - 1].end) == current
          && !IsAfter(ranges[|ranges| - 1].end, end))
  }

  /** Appending a range from `current` to a day no later than `end` keeps the loop state. */
  lemma CoveredStep(ranges: seq<DateRange>, start: Date, end: Date, current: Date, rangeEnd: Date)
    requires Covered(ranges, start, end, current) && ValidDate(end) && !IsAfter(current, end)
    requires ValidDate(rangeEnd) && !IsAfter(current, rangeEnd) && !IsAfter(rangeEnd, end)
    ensures Covered(ranges + [DateRange(current, rangeEnd)], start, end, NextDay(rangeEnd))
  {
  }

  /** Once `current` passes `end`, the ranges tile the whole period (or it was empty). */
  lemma CoveredDone(ranges: seq<DateRange>, start: Date, end: Date, current: Date)
    requires Covered(ranges, start, end, current) && ValidDate(end) && IsAfter(current, end)
    ensures IsAfter(start, end) ==> ranges == []
    ensures !IsAfter(start, end) ==> Tiles(ranges, start, end)
  {
    if ranges != [] {
      NotBeforeWhenNextAfter(ranges[|ranges| - 1].end, end);
    }
  }

  /** Every range lies within one calendar month, and all but the last end with their month. */
  ghost predicate MonthChunks(ranges: seq<DateRange>)
  {
    && (forall i :: 0 <= i < |ranges| ==>
          ranges[i].start.year == ranges[i].end.year && ranges[i].start.month == ranges[i].end.month)
    && (forall i :: 0 <= i < |ranges| - 1 ==>
          ValidDate(ranges[i].start) && ranges[i].end == AtEndOfMonth(ranges[i].start))
  }

  /** The range from `current` to its month's end, or to `end` when that comes first, keeps the month chunks. */
  lemma MonthChunksStep(ranges: seq<DateRange>, current: Date, monthEnd: Date, end: Date)
    requires MonthChunks(ranges) && ValidDate(current) && ValidDate(end) && !IsAfter(current, end)
    requires ranges != [] ==> ValidDate(ranges[|ranges| - 1].start)
                              && ranges[|ranges| - 1].end == AtEndOfMonth(ranges[|ranges| - 1].start)
    requires monthEnd == if IsBefore(AtEndOfMonth(current), end) then AtEndOfMonth(current) else end
    ensures MonthChunks(ranges + [DateRange(current, monthEnd)])
  {
    var next := ranges + [DateRange(current, monthEnd)];
    assert forall i :: 0 <= i < |ranges| ==> next[i] == ranges[i];
  }

  /**
   * Loop state of `splitByMonths`: the ranges so far tile the days before
   * `current`, each within one month, and the last one ends its month or
   * the period.
   */
  ghost predicate MonthSplitSoFar(ranges: seq<DateRange>, start: Date, end: Date, current: Date)
  {
    && Covered(ranges, start, end, current)
    && MonthChunks(ranges)
    && (ranges != [] ==> ValidDate(ranges[|ranges| - 1].start))
    && (ranges != [] ==> ranges[|ranges| - 1].end == AtEndOfMonth(ranges[|ranges| - 1].start)
                         || ranges[|ranges| - 1].end == end)
  }

  lemma MonthSplitStep(ranges: seq<DateRange>, start: Date, end: Date, current: Date, monthEnd: Date)
    requires MonthSplitSoFar(ranges, start, end, current) && ValidDate(end) && !IsAfter(current, end)
    requires monthEnd == if IsBefore(AtEndOfMonth(current), end) then AtEndOfMonth(current) else end
    ensures ValidDate(monthEnd) && Ord(current) < Ord(NextDay(monthEnd))
    ensures MonthSplitSoFar(ranges + [DateRange(current, monthEnd)], start, end, NextDay(monthEnd))
  {
    assert ranges != [] ==> ranges[|ranges| - 1].end != end;
    OrdOrders(current, monthEnd);
    CoveredStep(ranges, start, end, current, monthEnd);
    MonthChunksStep(ranges, current, monthEnd, end);
  }

  /** `splitByMonths`: one range per calendar month touched by the period. */
  method SplitByMonths(start: Date, end: Date) returns (ranges: seq<DateRange>)
    requires ValidDate(start) && ValidDate(end)
    ensures IsAfter(start, end) ==> ranges == []
    ensures !IsAfter(start, end) ==> Tiles(ranges, start, end)
    ensures MonthChunks(ranges)
  {
    ranges := [];
    var current := start;
    while !IsAfter(current, end)
      invariant MonthSplitSoFar(ranges, start, end, current)
      decreases Ord(end) + 1 - Ord(current)
    {
      OrdOrders(current, end);
      var monthEnd := if IsBefore(AtEndOfMonth(current), end) then AtEndOfMonth(current) else end;
      MonthSplitStep(ranges, start, end, current, monthEnd);
      ranges := ranges + [DateRange(current, monthEnd)];
      current := NextDay(monthEnd);
    }
    CoveredDone(ranges, start, end, current);
  }

  /** `current.plusMonths(3).minusDays(1)`: the last day of a three-month chunk starting at `d`. */
  function ThreeMonthsEnd(d: Date): (r: Date)
    requires ValidDate(d)
    ensures ValidDate(r) && IsBefore(d, r)
  {
    var r := PrevDay(PlusMonths(d, 3));
    EarlierMonthIsBefore(d, r);
    r
  }

  /** A chunk never spans three whole months, whatever day it starts on. */
  lemma ChunkUnderThreeMonths(d: Date, e: Date)
    requires ValidDate(d) && ValidDate(e) && !IsAfter(d, e) && !IsAfter(e, ThreeMonthsEnd(d))
    ensures MonthsBetween(d, e) <= 2
  {
    var t := ThreeMonthsEnd(d);
    var later := PlusMonths(d, 3);
    MonthsBetweenCountsWholeMonths(d, e);
    if later.day > 1 {
      assert ProlepticMonth(t) == ProlepticMonth(d) + 3 && t.day < d.day;
    } else {
      assert ProlepticMonth(t) == ProlepticMonth(d) + 2;
    }
  }

  /** The range is the three-month chunk starting at its first day, cut at `end`. */
  ghost predicate IsChunk(r: DateRange, end: Date)
  {
    ValidDate(r.start) &&
    r.end == (if IsBefore(ThreeMonthsEnd(r.start), end) then ThreeMonthsEnd(r.start) else end)
  }

  ghost predicate ThreeMonthChunks(ranges: seq<DateRange>, end: Date)
  {
    forall i :: 0 <= i < |ranges| ==> IsChunk(ranges[i], end)
  }

  /** Reference: the three-month chunks from `current` to `end`, cut at `end`. */
  function ThreeMonthSplit(current: Date, end: Date): seq<DateRange>
    requires ValidDate(current) && ValidDate(end)
    decreases Ord(end) + 1 - Ord(current)
  {
    if IsAfter(current, end) then []
    else
      var threeMonthsLater := ThreeMonthsEnd(current);
      var rangeEnd := if IsBefore(threeMonthsLater, end) then threeMonthsLater else end;
      OrdOrders(current, end);
      OrdOrders(rangeEnd, end);
      [DateRange(current, rangeEnd)] + ThreeMonthSplit(NextDay(rangeEnd), end)
  }

  /** Loop state: the ranges so far followed by the chunks from `current` are the whole split. */
  ghost predicate SplitSoFar(ranges: seq<DateRange>, whole: seq<DateRange>, end: Date, current: Date)
  {
    ValidDate(current) && ValidDate(end) &&
    ranges + ThreeMonthSplit(current, end) == whole
  }

  lemma SplitStep(ranges: seq<DateRange>, whole: seq<DateRange>, end: Date, current: Date, rangeEnd: Date)
    requires SplitSoFar(ranges, whole, end, current) && !IsAfter(current, end)
    requires rangeEnd == if IsBefore(ThreeMonthsEnd(current), end) then ThreeMonthsEnd(current) else end
    ensures ValidDate(rangeEnd)
    ensures SplitSoFar(ranges + [DateRange(current, rangeEnd)], whole, end, NextDay(rangeEnd))
  {
    SplitUnfold(current, end, rangeEnd);
    var rest := ThreeMonthSplit(NextDay(rangeEnd), end);
    assert ranges + ([DateRange(current, rangeEnd)] + rest) == (ranges + [DateRange(current, rangeEnd)]) + rest;
  }

  /** The split from `current` is its first chunk followed by the split from the day after it. */
  lemma SplitUnfold(current: Date, end: Date, rangeEnd: Date)
    requires ValidDate(current) && ValidDate(end) && !IsAfter(current, end)
    requires rangeEnd == if IsBefore(ThreeMonthsEnd(current), end) then ThreeMonthsEnd(current) else end
    ensures ValidDate(rangeEnd) && ValidDate(NextDay(rangeEnd))
    ensures ThreeMonthSplit(current, end) == [DateRange(current, rangeEnd)] + ThreeMonthSplit(NextDay(rangeEnd), end)
  {
  }

  lemma SplitDone(ranges: seq<DateRange>, whole: seq<DateRange>, end: Date, current: Date)
    requires SplitSoFar(ranges, whole, end, current) && IsAfter(current, end)
    ensures ranges == whole
  {
    assert ranges + [] == ranges;
  }

  /** `splitByThreeMonths`: consecutive chunks of three months, the last one cut at `end`. */
  method SplitByThreeMonths(start: Date, end: Date) returns (ranges: seq<DateRange>)
    requires ValidDate(start) && ValidDate(end)
    ensures ranges == ThreeMonthSplit(start, end)
    ensures IsAfter(start, end) ==> ranges == []
    ensures !IsAfter(start, end) ==> Tiles(ranges, start, end)
    ensures ThreeMonthChunks(ranges, end)
  {
    ranges := [];
    var current := start;
    while !IsAfter(current, end)
      invariant SplitSoFar(ranges, ThreeMonthSplit(start, end), end, current)
      decreases Ord(end) + 1 - Ord(current)
    {
      OrdOrders(current, end);
      var threeMonthsLater := ThreeMonthsEnd(current);
      var rangeEnd := if IsBefore(threeMonthsLater, end) then threeMonthsLater else end;
      SplitStep(ranges, ThreeMonthSplit(start, end), end, current, rangeEnd);
      ranges := ranges + [DateRange(current, rangeEnd)];
      current := NextDay(rangeEnd);
    }
    SplitDone(ranges, ThreeMonthSplit(start, end), end, current);
    if !IsAfter(start, end) {
      ThreeMonthSplitTiles(start, end);
    }
    ThreeMonthSplitChunks(start, end);
  }

  /** The three-month chunks tile the period. */
  lemma {:induction false} ThreeMonthSplitTiles(current: Date, end: Date)
    requires ValidDate(current) && ValidDate(end) && !IsAfter(current, end)
    ensures Tiles(ThreeMonthSplit(current, end), current, end)
    decreases Ord(end) + 1 - Ord(current)
  {
    var threeMonthsLater := ThreeMonthsEnd(current);
    var rangeEnd := if IsBefore(threeMonthsLater, end) then threeMonthsLater else end;
    var first := DateRange(current, rangeEnd);
    SplitUnfold(current, end, rangeEnd);
    var next := NextDay(rangeEnd);
    var rest := ThreeMonthSplit(next, end);
    assert WellFormed(first);
    if IsAfter(next, end) {
      NotBeforeWhenNextAfter(rangeEnd, end);
      assert rangeEnd == end && rest == [];
    } else {
      OrdOrders(current, next);
      OrdOrders(current, end);
      ThreeMonthSplitTiles(next, end);
      TilesCons(first, rest, end);
    }
  }

  /** Every three-month chunk spans at most two whole months. */
  lemma ThreeMonthSplitShort(start: Date, end: Date)
    requires ValidDate(start) && ValidDate(end) && !IsAfter(start, end)
    ensures forall i :: 0 <= i < |ThreeMonthSplit(start, end)| ==>
      MonthsBetween(ThreeMonthSplit(start, end)[i].start, ThreeMonthSplit(start, end)[i].end) <= 2
  {
    var ranges := ThreeMonthSplit(start, end);
    ThreeMonthSplitTiles(start, end);
    ThreeMonthSplitChunks(start, end);
    forall i | 0 <= i < |ranges|
      ensures MonthsBetween(ranges[i].start, ranges[i].end) <= 2
    {
      assert WellFormed(ranges[i]) && IsChunk(ranges[i], end);
      ChunkUnderThreeMonths(ranges[i].start, ranges[i].end);
    }
  }

  /** A first range followed by a tiling from the day after it is a tiling. */
  lemma TilesCons(first: DateRange, rest: seq<DateRange>, end: Date)
    requires WellFormed(first)
    requires Tiles(rest, NextDay(first.end), end)
    ensures Tiles([first] + rest, first.start, end)
  {
    var all := [first] + rest;
    forall i | 0 <= i < |all|
      ensures WellFormed(all[i])
    {
      if i > 0 {
        assert all[i] == rest[i - 1];
      }
    }
    forall i | 0 <= i < |all| - 1
      ensures ValidDate(all[i].end) && NextDay(all[i].end) == all[i + 1].start
    {
      if i > 0 {
        assert all[i] == rest[i - 1] && all[i + 1] == rest[i];
      }
    }
  }

  /** Each three-month chunk ends three months less a day after it starts, or at `end`. */
  lemma {:induction false} ThreeMonthSplitChunks(current: Date, end: Date)
    requires ValidDate(current) && ValidDate(end)
    ensures ThreeMonthChunks(ThreeMonthSplit(current, end), end)
    decreases Ord(end) + 1 - Ord(current)
  {
    if !IsAfter(current, end) {
      var threeMonthsLater := ThreeMonthsEnd(current);
      var rangeEnd := if IsBefore(threeMonthsLater, end) then threeMonthsLater else end;
      var first := DateRange(current, rangeEnd);
      var next := NextDay(rangeEnd);
      OrdOrders(current, end);
      OrdOrders(rangeEnd, end);
      ThreeMonthSplitChunks(next, end);
      assert ThreeMonthSplit(current, end) == [first] + ThreeMonthSplit(next, end);
      ChunksCons(first, ThreeMonthSplit(next, end), end);
    }
  }

  lemma ChunksCons(first: DateRange, rest: seq<DateRange>, end: Date)
    requires IsChunk(first, end) && ThreeMonthChunks(rest, end)
    ensures ThreeMonthChunks([first] + rest, end)
  {
    var all := [first] + rest;
    forall i | 0 <= i < |all|
      ensures IsChunk(all[i], end)
    {
      if i > 0 {
        assert all[i] == rest[i - 1];
      }
    }
  }
}
