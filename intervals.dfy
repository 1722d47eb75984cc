/** Buffered-duration measurement over the time ranges a source buffer reports.
    Times are exact reals; the slack `epsilon` is a parameter (the session uses 0). */
module Intervals {

  /** One buffered time range, as `buffered.start(i)` / `buffered.end(i)` report it. */
  datatype Range = Range(start: real, end: real)

  /** The value the scan's running `bufferEnd` has after it has consumed `ranges`, starting from `acc`.
      The scan stops at the first range that starts after `currentTime`; a range extends the run
      when a run has already begun (`acc >= 0`) or when it reaches `currentTime` (with slack `epsilon`). */
  function ScanEnd(ranges: seq<Range>, currentTime: real, epsilon: real, acc: real): real
    decreases |ranges|
  {
    if ranges == [] || ranges[0].start > currentTime then acc
    else
      var end := ranges[0].end + epsilon;
      ScanEnd(ranges[1..], currentTime, epsilon, if acc >= 0.0 || currentTime <= end then end else acc)
  }

  /** The scan's result is its start value or the end, with slack, of a range that starts no later than `currentTime`. */
  lemma {:induction false} ScanEndSource(ranges: seq<Range>, currentTime: real, epsilon: real, acc: real)
    ensures var r := ScanEnd(ranges, currentTime, epsilon, acc);
      r == acc || exists i :: 0 <= i < |ranges| && ranges[i].start <= currentTime && r == ranges[i].end + epsilon
    decreases |ranges|
  {
    if ranges != [] && ranges[0].start <= currentTime {
      var end := ranges[0].end + epsilon;
      var acc' := if acc >= 0.0 || currentTime <= end then end else acc;
      ScanEndSource(ranges[1..], currentTime, epsilon, acc');
      var r := ScanEnd(ranges, currentTime, epsilon, acc);
      if r != acc' {
        var i :| 0 <= i < |ranges[1..]| && ranges[1..][i].start <= currentTime && r == ranges[1..][i].end + epsilon;
        assert ranges[i + 1] == ranges[1..][i];
      }
    }
  }

  /** Seconds of buffered data ahead of `currentTime`: the end of the run minus `currentTime`, never negative.
      The run is unset (`-1`) until some range reaches `currentTime`. */
  function BufferedTime(ranges: seq<Range>, currentTime: real, epsilon: real): (d: real)
    ensures d >= 0.0
  {
    var t := ScanEnd(ranges, currentTime, epsilon, -1.0) - currentTime;
    if t < 0.0 then 0.0 else t
  }

  /** The shape the host reports: each range is ordered and ranges are disjoint, ascending and not touching. */
  ghost predicate WellFormed(ranges: seq<Range>)
  {
    (forall i :: 0 <= i < |ranges| ==> ranges[i].start <= ranges[i].end) &&
    (forall i, j :: 0 <= i < j < |ranges| ==> ranges[i].end < ranges[j].start)
  }

  /** Range `r` contains `t`, allowing `epsilon` past its end. */
  predicate Covers(r: Range, t: real, epsilon: real)
  {
    r.start <= t <= r.end + epsilon
  }

  /** While the run has not begun and no range covers the playback position, the scan leaves `acc` alone. */
  lemma {:induction false} ScanUncovered(ranges: seq<Range>, currentTime: real, epsilon: real, acc: real)
    requires acc < 0.0
    requires forall i :: 0 <= i < |ranges| ==> !Covers(ranges[i], currentTime, epsilon)
    ensures ScanEnd(ranges, currentTime, epsilon, acc) == acc
    decreases |ranges|
  {
    if ranges != [] && ranges[0].start <= currentTime {
      assert !Covers(ranges[0], currentTime, epsilon);
      ScanUncovered(ranges[1..], currentTime, epsilon, acc);
    }
  }

  /** No covering range: nothing is buffered ahead of the playback position. */
  lemma ZeroWhenUncovered(ranges: seq<Range>, currentTime: real, epsilon: real)
    requires currentTime >= 0.0
    requires forall i :: 0 <= i < |ranges| ==> !Covers(ranges[i], currentTime, epsilon)
    ensures BufferedTime(ranges, currentTime, epsilon) == 0.0
  {
    ScanUncovered(ranges, currentTime, epsilon, -1.0);
  }

  /** Ranges after the first one that starts past `currentTime` are never looked at. */
  lemma {:induction false} ScanStops(ranges: seq<Range>, currentTime: real, epsilon: real, acc: real, j: nat)
    requires j < |ranges| && ranges[j].start > currentTime
    ensures ScanEnd(ranges, currentTime, epsilon, acc) == ScanEnd(ranges[..j], currentTime, epsilon, acc)
    decreases j
  {
    if j > 0 && ranges[0].start <= currentTime {
      var end := ranges[0].end + epsilon;
      var acc' := if acc >= 0.0 || currentTime <= end then end else acc;
      assert ranges[1..][j - 1] == ranges[j];
      ScanStops(ranges[1..], currentTime, epsilon, acc', j - 1);
      assert ranges[..j][1..] == ranges[1..][..j - 1];
    }
  }

  /** The measured duration depends only on the ranges before the first one starting after `currentTime`. */
  lemma StopsAtLaterStart(ranges: seq<Range>, currentTime: real, epsilon: real, j: nat)
    requires j < |ranges| && ranges[j].start > currentTime
    ensures BufferedTime(ranges, currentTime, epsilon) == BufferedTime(ranges[..j], currentTime, epsilon)
  {
    ScanStops(ranges, currentTime, epsilon, -1.0, j);
  }

  /** Scanning a prefix whose ranges all start no later than `currentTime`, then the rest, is scanning the whole. */
  lemma {:induction false} ScanSplit(ranges: seq<Range>, currentTime: real, epsilon: real, acc: real, k: nat)
    requires k <= |ranges|
    requires forall i :: 0 <= i < k ==> ranges[i].start <= currentTime
    ensures ScanEnd(ranges, currentTime, epsilon, acc)
         == ScanEnd(ranges[k..], currentTime, epsilon, ScanEnd(ranges[..k], currentTime, epsilon, acc))
    decreases k
  {
    if k > 0 {
      var end := ranges[0].end + epsilon;
      var acc' := if acc >= 0.0 || currentTime <= end then end else acc;
      ScanSplit(ranges[1..], currentTime, epsilon, acc', k - 1);
      assert ranges[1..][k - 1..] == ranges[k..];
      assert ranges[..k][1..] == ranges[1..][..k - 1];
    }
  }

  /** On well-formed ranges, when range `k` covers the playback position and is the last one starting
      at or before it, the duration is exactly that range's end plus the slack, minus the playback position. */
  lemma CoveringRun(ranges: seq<Range>, currentTime: real, epsilon: real, k: nat)
    requires WellFormed(ranges)
    requires k < |ranges| && Covers(ranges[k], currentTime, epsilon)
    requires k + 1 == |ranges| || ranges[k + 1].start > currentTime
    ensures BufferedTime(ranges, currentTime, epsilon) == ranges[k].end + epsilon - currentTime
  {
    forall i | 0 <= i < k ensures ranges[i].start <= currentTime {
      assert ranges[i].start <= ranges[i].end < ranges[k].start;
    }
    ScanSplit(ranges, currentTime, epsilon, -1.0, k);
    var acc := ScanEnd(ranges[..k], currentTime, epsilon, -1.0);
    var rest := ranges[k..];
    assert rest[0] == ranges[k];
    assert rest[1..] == ranges[k + 1..];
    assert ScanEnd(rest, currentTime, epsilon, acc) == ScanEnd(rest[1..], currentTime, epsilon, ranges[k].end + epsilon);
  }

  /** With no slack, the duration is the remaining length of the range containing the playback position. */
  lemma CoveringRangeExact(ranges: seq<Range>, currentTime: real, k: nat)
    requires WellFormed(ranges)
    requires k < |ranges| && ranges[k].start <= currentTime <= ranges[k].end
    ensures BufferedTime(ranges, currentTime, 0.0) == ranges[k].end - currentTime
  {
    if k + 1 < |ranges| {
      assert ranges[k].end < ranges[k + 1].start;
    }
    CoveringRun(ranges, currentTime, 0.0, k);
  }

  /** With no slack and a non-negative playback position, data is buffered ahead exactly when
      some range contains the position strictly before its end. */
  lemma PositiveIffInside(ranges: seq<Range>, currentTime: real)
    requires WellFormed(ranges) && currentTime >= 0.0
    ensures BufferedTime(ranges, currentTime, 0.0) > 0.0
        <==> exists i :: 0 <= i < |ranges| && ranges[i].start <= currentTime < ranges[i].end
  {
    if i :| 0 <= i < |ranges| && ranges[i].start <= currentTime < ranges[i].end {
      CoveringRangeExact(ranges, currentTime, i);
    } else if i :| 0 <= i < |ranges| && Covers(ranges[i], currentTime, 0.0) {
      CoveringRangeExact(ranges, currentTime, i);
    } else {
      ZeroWhenUncovered(ranges, currentTime, 0.0);
    }
  }
}
