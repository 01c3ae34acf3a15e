/** Maximal runs of equal liveness in an interval, and setting an interval's liveness. */
module Runs {
  import opened Ops
  import opened Documents
  import opened Ranges

  type Run = (nat, nat)

  function RunEnd(run: Run): nat { run.0 + run.1 }

  predicate InRun(run: Run, i: int) { run.0 <= i < RunEnd(run) }

  predicate Uniform(flags: seq<bool>, lo: nat, hi: nat, v: bool)
    requires hi <= |flags|
  {
    forall i :: lo <= i < hi ==> flags[i] == v
  }

  predicate Hits(runs: seq<Run>, i: int) {
    exists k :: 0 <= k < |runs| && InRun(runs[k], i)
  }

  /** `runs` are exactly the maximal runs of `v` in [lo, hi): nonempty, in order, never
      touching, and containing every position of liveness `v` and no other. */
  predicate MaximalRuns(flags: seq<bool>, lo: nat, hi: nat, v: bool, runs: seq<Run>)
    requires lo <= hi <= |flags|
  {
    && (forall k :: 0 <= k < |runs| ==> runs[k].1 > 0 && lo <= runs[k].0 && RunEnd(runs[k]) <= hi)
    && (forall j, k :: 0 <= j < k < |runs| ==> RunEnd(runs[j]) < runs[k].0)
    && (forall i :: lo <= i < hi ==> (flags[i] == v <==> Hits(runs, i)))
  }

  function RunsLen(runs: seq<Run>): nat {
    if runs == [] then 0 else RunsLen(runs[..|runs| - 1]) + runs[|runs| - 1].1
  }

  function Max(a: nat, b: nat): nat { if a < b then b else a }

  function Min(a: nat, b: nat): nat { if a < b then a else b }

  lemma RunsBound(flags: seq<bool>, lo: nat, hi: nat, v: bool, runs: seq<Run>)
    requires lo <= hi <= |flags| && MaximalRuns(flags, lo, hi, v, runs)
    ensures runs != [] ==> RunEnd(runs[|runs| - 1]) <= hi
  {}

  lemma HitsAppend(runs: seq<Run>, run: Run, i: int)
    ensures Hits(runs + [run], i) <==> Hits(runs, i) || InRun(run, i)
  {
    if k :| 0 <= k < |runs| && InRun(runs[k], i) { assert InRun((runs + [run])[k], i); }
    if InRun(run, i) { assert InRun((runs + [run])[|runs|], i); }
  }

  lemma NoRuns(flags: seq<bool>, lo: nat, hi: nat, v: bool)
    requires lo <= hi <= |flags| && Uniform(flags, lo, hi, !v)
    ensures MaximalRuns(flags, lo, hi, v, [])
  {}

  /** Going on over positions of the other liveness adds no run. */
  lemma RunsSkip(flags: seq<bool>, lo: nat, mid: nat, hi: nat, v: bool, runs: seq<Run>)
    requires lo <= mid <= hi <= |flags| && MaximalRuns(flags, lo, mid, v, runs) && Uniform(flags, mid, hi, !v)
    ensures MaximalRuns(flags, lo, hi, v, runs)
  {}

  /** Going on over positions of the same liveness adds one, if the last one has ended. */
  lemma RunsExtend(flags: seq<bool>, lo: nat, mid: nat, hi: nat, v: bool, runs: seq<Run>)
    requires lo <= mid < hi <= |flags| && MaximalRuns(flags, lo, mid, v, runs) && Uniform(flags, mid, hi, v)
    requires runs == [] || RunEnd(runs[|runs| - 1]) < mid
    ensures MaximalRuns(flags, lo, hi, v, runs + [(mid, hi - mid)])
  {
    forall i | lo <= i < hi ensures flags[i] == v <==> Hits(runs + [(mid, hi - mid)], i) {
      HitsAppend(runs, (mid, hi - mid), i);
    }
  }

  // ---------------------------------------------------------------- counting

  function CountOf(flags: seq<bool>, v: bool): (n: int) { if v then Count(flags) else |flags| - Count(flags) }

  lemma {:induction false} CountUniform(flags: seq<bool>, v: bool)
    requires forall i :: 0 <= i < |flags| ==> flags[i] == v
    ensures CountOf(flags, v) == |flags| && CountOf(flags, !v) == 0
    decreases |flags|
  {
    if flags != [] { CountUniform(flags[..|flags| - 1], v); }
  }

  lemma CountOfSplit(flags: seq<bool>, lo: nat, mid: nat, hi: nat, v: bool)
    requires lo <= mid <= hi <= |flags|
    ensures CountOf(flags[lo..hi], v) == CountOf(flags[lo..mid], v) + CountOf(flags[mid..hi], v)
  {
    assert flags[lo..hi] == flags[lo..mid] + flags[mid..hi];
    CountAppend(flags[lo..mid], flags[mid..hi]);
  }

  /** The last run, and what is before and after it. */
  lemma LastRun(flags: seq<bool>, lo: nat, hi: nat, v: bool, runs: seq<Run>)
    requires lo <= hi <= |flags| && MaximalRuns(flags, lo, hi, v, runs) && runs != []
    ensures var last := runs[|runs| - 1];
            && lo <= last.0 && RunEnd(last) <= hi
            && MaximalRuns(flags, lo, last.0, v, runs[..|runs| - 1])
            && Uniform(flags, last.0, RunEnd(last), v)
            && Uniform(flags, RunEnd(last), hi, !v)
  {
    var n := |runs| - 1;
    var init, last := runs[..n], runs[n];
    assert runs == init + [last];
    assert forall k :: 0 <= k < n ==> init[k] == runs[k] && RunEnd(init[k]) < last.0;
    forall i | lo <= i < hi ensures flags[i] == v <==> Hits(init, i) || InRun(last, i) { HitsAppend(init, last, i); }
    forall i | last.0 <= i < hi ensures !Hits(init, i) {}
  }

  lemma {:induction false} RunsCount(flags: seq<bool>, lo: nat, hi: nat, v: bool, runs: seq<Run>)
    requires lo <= hi <= |flags| && MaximalRuns(flags, lo, hi, v, runs)
    ensures RunsLen(runs) == CountOf(flags[lo..hi], v)
    decreases |runs|
  {
    if runs == [] {
      forall i | 0 <= i < hi - lo ensures flags[lo..hi][i] == !v { assert !Hits(runs, lo + i); }
      CountUniform(flags[lo..hi], !v);
    } else {
      hide Count, MaximalRuns, CountOf;
      var last := runs[|runs| - 1];
      LastRun(flags, lo, hi, v, runs);
      RunsCount(flags, lo, last.0, v, runs[..|runs| - 1]);
      CountUniform(flags[last.0..RunEnd(last)], v);
      CountUniform(flags[RunEnd(last)..hi], !v);
      CountOfSplit(flags, lo, last.0, hi, v);
      CountOfSplit(flags, last.0, RunEnd(last), hi, v);
    }
  }

  // ---------------------------------------------------------------- setting an interval

  function SetRange(flags: seq<bool>, lo: nat, hi: nat, live: bool): (r: seq<bool>)
    ensures |r| == |flags|
    ensures forall i :: 0 <= i < |flags| ==> r[i] == if lo <= i < hi then live else flags[i]
  {
    seq(|flags|, i requires 0 <= i < |flags| => if lo <= i < hi then live else flags[i])
  }

  lemma CountThree(flags: seq<bool>, lo: nat, hi: nat)
    requires lo <= hi <= |flags|
    ensures Count(flags) == Count(flags[..lo]) + Count(flags[lo..hi]) + Count(flags[hi..])
  {
    hide Count;
    assert flags == flags[..lo] + flags[lo..hi] + flags[hi..];
    CountAppend(flags[..lo], flags[lo..hi]);
    CountAppend(flags[..lo] + flags[lo..hi], flags[hi..]);
  }

  lemma SetRangeCount(flags: seq<bool>, lo: nat, hi: nat, live: bool)
    requires lo <= hi <= |flags|
    ensures Count(SetRange(flags, lo, hi, live))
         == Count(flags) + if live then CountOf(flags[lo..hi], false) else -CountOf(flags[lo..hi], true)
  {
    hide Count;
    var r := SetRange(flags, lo, hi, live);
    assert r[..lo] == flags[..lo] && r[hi..] == flags[hi..];
    CountThree(r, lo, hi);
    CountThree(flags, lo, hi);
    CountUniform(r[lo..hi], live);
  }
}
