/** The time smoother, web/navigation/time_smoother.cc. Times are whole microseconds;
    the saturation of base::Time at its extremes is not modelled. */
module TimeSmoother {

  type Time = int

  datatype Marks = Marks(low: Time, high: Time)

  const INITIAL: Marks := Marks(0, 0)

  /** Is `t` inside the run of adjusted times? */
  predicate Bumps(m: Marks, t: Time) {
    m.low <= t <= m.high
  }

  function Step(m: Marks, t: Time): Marks {
    if Bumps(m, t) then m.(high := m.high + 1) else Marks(t, t)
  }

  /** GetSmoothedTime returns the new high-water mark in either case. */
  class TimeSmoother {
    var lowWaterMark: Time
    var highWaterMark: Time

    ghost function View(): Marks
      reads this
    {
      Marks(lowWaterMark, highWaterMark)
    }

    constructor ()
      ensures View() == INITIAL
    {
      lowWaterMark, highWaterMark := 0, 0;
    }

    method GetSmoothedTime(t: Time) returns (r: Time)
      modifies this
      ensures View() == Step(old(View()), t) && r == View().high
    {
      if lowWaterMark <= t <= highWaterMark {
        highWaterMark := highWaterMark + 1;
        return highWaterMark;
      }
      lowWaterMark, highWaterMark := t, t;
      return t;
    }

    /** A run of calls. */
    method SmoothAll(ts: seq<Time>) returns (rs: seq<Time>)
      requires View() == INITIAL
      modifies this
      ensures rs == Smoothed(ts) && View() == MarksAfter(ts)
    {
      rs := [];
      for i := 0 to |ts|
        invariant rs == Smoothed(ts[..i]) && View() == MarksAfter(ts[..i])
      {
        assert ts[..i + 1][..i] == ts[..i];
        var r := GetSmoothedTime(ts[i]);
        rs := rs + [r];
      }
      assert ts[..|ts|] == ts;
    }
  }

  function MarksAfter(ts: seq<Time>): Marks {
    if ts == [] then INITIAL else Step(MarksAfter(ts[..|ts| - 1]), ts[|ts| - 1])
  }

  function Smoothed(ts: seq<Time>): (rs: seq<Time>)
    ensures |rs| == |ts|
  {
    if ts == [] then [] else Smoothed(ts[..|ts| - 1]) + [MarksAfter(ts).high]
  }

  lemma {:induction false} SmoothedAt(ts: seq<Time>, k: nat)
    requires k < |ts|
    ensures Smoothed(ts)[k] == MarksAfter(ts[..k + 1]).high
  {
    var before := ts[..|ts| - 1];
    if k == |ts| - 1 {
      assert ts[..k + 1] == ts;
    } else {
      SmoothedAt(before, k);
      assert before[..k + 1] == ts[..k + 1];
    }
  }

  // ---------------------------------------------------------------------------
  // Time that does not go back: the least strictly increasing times

  ghost predicate NonDecreasing(ts: seq<Time>) {
    forall i, j :: 0 <= i <= j < |ts| ==> ts[i] <= ts[j]
  }

  ghost predicate StrictlyIncreasing(rs: seq<Time>) {
    forall i, j :: 0 <= i < j < |rs| ==> rs[i] < rs[j]
  }

  /** Distinct, ascending, above zero and not before the times given. */
  ghost predicate Acceptable(ts: seq<Time>, rs: seq<Time>) {
    |rs| == |ts| && StrictlyIncreasing(rs) && forall i :: 0 <= i < |ts| ==> rs[i] > 0 && rs[i] >= ts[i]
  }

  /** On such inputs a call returns the later of its input and one past its last answer. */
  lemma {:induction false} ForwardStep(ts: seq<Time>)
    requires NonDecreasing(ts) && (ts != [] ==> ts[0] >= 0)
    ensures var m := MarksAfter(ts);
      && 0 <= m.low <= m.high
      && (ts != [] ==> m.low <= ts[|ts| - 1])
      && (ts != [] ==>
            var h, t := MarksAfter(ts[..|ts| - 1]).high, ts[|ts| - 1];
            m.high == if t <= h then h + 1 else t)
  {
    if ts != [] {
      ForwardStep(ts[..|ts| - 1]);
    }
  }

  lemma IncreasingSnoc(rs: seq<Time>, r: Time)
    requires rs != []
    ensures StrictlyIncreasing(rs + [r]) <==> StrictlyIncreasing(rs) && rs[|rs| - 1] < r
  {
    var longer := rs + [r];
    if StrictlyIncreasing(longer) {
      assert forall i :: 0 <= i < |rs| ==> rs[i] == longer[i];
      assert longer[|rs| - 1] < longer[|rs|];
    }
    if StrictlyIncreasing(rs) && rs[|rs| - 1] < r {
      assert forall i :: 0 <= i < |rs| ==> rs[i] <= rs[|rs| - 1];
    }
  }

  lemma {:induction false} ForwardIsAcceptable(ts: seq<Time>)
    requires NonDecreasing(ts) && (ts != [] ==> ts[0] >= 0)
    ensures Acceptable(ts, Smoothed(ts))
  {
    if ts != [] {
      var before := ts[..|ts| - 1];
      ForwardStep(ts);
      ForwardStep(before);
      ForwardIsAcceptable(before);
      if before != [] {
        SmoothedAt(before, |before| - 1);
        assert before[..|before|] == before;
        IncreasingSnoc(Smoothed(before), MarksAfter(ts).high);
      }
    }
  }

  /** For times that never go back, starting at zero or later, the smoothed times are
      pointwise the least of all acceptable ones. */
  lemma {:induction false} ForwardIsLeast(ts: seq<Time>, rs: seq<Time>, k: nat)
    requires NonDecreasing(ts) && (ts != [] ==> ts[0] >= 0) && Acceptable(ts, rs) && k < |ts|
    ensures Acceptable(ts, Smoothed(ts)) && Smoothed(ts)[k] <= rs[k]
  {
    ForwardIsAcceptable(ts);
    SmoothedAt(ts, k);
    ForwardStep(ts[..k + 1]);
    assert ts[..k + 1][..k] == ts[..k];
    if k > 0 {
      ForwardIsLeast(ts, rs, k - 1);
      SmoothedAt(ts, k - 1);
    }
  }

  // ---------------------------------------------------------------------------
  // Any input

  /** The number of bumped calls since the last reset, that is, the last call that was
      not bumped. */
  function BumpsSinceReset(ts: seq<Time>): nat {
    if ts == [] then 0
    else if Bumps(MarksAfter(ts[..|ts| - 1]), ts[|ts| - 1]) then BumpsSinceReset(ts[..|ts| - 1]) + 1
    else 0
  }

  /** The marks are in order, as far apart as there were bumped calls since the reset;
      an answer is not before its input, and after it by at most that number. */
  lemma {:induction false} StaysClose(ts: seq<Time>)
    ensures MarksAfter(ts).low <= MarksAfter(ts).high
    ensures MarksAfter(ts).high == MarksAfter(ts).low + BumpsSinceReset(ts)
    ensures ts != [] ==> ts[|ts| - 1] <= Smoothed(ts)[|ts| - 1] <= ts[|ts| - 1] + BumpsSinceReset(ts)
  {
    if ts != [] {
      StaysClose(ts[..|ts| - 1]);
    }
  }

  /** The answers since the last reset are the consecutive microseconds up to the last. */
  lemma {:induction false} RunIsConsecutive(ts: seq<Time>, k: nat)
    requires k < |ts| && k <= BumpsSinceReset(ts)
    ensures Smoothed(ts)[|ts| - 1 - k] == MarksAfter(ts).high - k
  {
    if k > 0 {
      RunIsConsecutive(ts[..|ts| - 1], k - 1);
    }
  }

  /** A call answers later than the one before it exactly when its input has not jumped
      back below the start of the run. */
  lemma LaterIff(ts: seq<Time>, t: Time)
    ensures MarksAfter(ts + [t]).high > MarksAfter(ts).high <==> t >= MarksAfter(ts).low
  {
    assert (ts + [t])[..|ts|] == ts;
    StaysClose(ts);
  }

  /** No input jumps back below the start of the run that it finds. */
  predicate NeverBelowRun(ts: seq<Time>) {
    ts == [] || (NeverBelowRun(ts[..|ts| - 1]) && ts[|ts| - 1] >= MarksAfter(ts[..|ts| - 1]).low)
  }

  /** So the answers, from the initial time zero on, are strictly increasing exactly for
      the input sequences that never do. */
  lemma {:induction false} IncreasingIff(ts: seq<Time>)
    ensures StrictlyIncreasing([0] + Smoothed(ts)) <==> NeverBelowRun(ts)
  {
    if ts != [] {
      var before, t := ts[..|ts| - 1], ts[|ts| - 1];
      assert before + [t] == ts;
      IncreasingIff(before);
      LaterIff(before, t);
      var rs, rs' := [0] + Smoothed(before), [0] + Smoothed(ts);
      assert rs' == rs + [MarksAfter(ts).high];
      LastIsHigh(before);
      IncreasingSnoc(rs, MarksAfter(ts).high);
    }
  }

  // ---------------------------------------------------------------------------
  // The answers, from inputs and earlier answers only

  /** The answer before call `k`. */
  function Before(rs: seq<Time>, k: nat): Time
    requires k <= |rs|
  {
    if k == 0 then 0 else rs[k - 1]
  }

  /** Call `k` starts a new run: its input is above the answer before it, or has jumped back
      below the start of the run. */
  predicate Starts(ts: seq<Time>, rs: seq<Time>, k: nat)
    requires k < |ts| == |rs|
    decreases k, 1
  {
    ts[k] > Before(rs, k) || ts[k] < StartBefore(ts, rs, k)
  }

  /** The input that started the run before call `k`, zero if none did. */
  function StartBefore(ts: seq<Time>, rs: seq<Time>, k: nat): Time
    requires k <= |ts| == |rs|
    decreases k, 0
  {
    if k == 0 then 0 else if Starts(ts, rs, k - 1) then ts[k - 1] else StartBefore(ts, rs, k - 1)
  }

  /** An input that starts a run is its own answer; any other is answered one microsecond
      after the answer before it. */
  predicate Answers(ts: seq<Time>, rs: seq<Time>, k: nat)
    requires k < |ts| == |rs|
  {
    rs[k] == if Starts(ts, rs, k) then ts[k] else Before(rs, k) + 1
  }

  lemma {:induction false} MarksFromAnswers(ts: seq<Time>, k: nat)
    requires k <= |ts|
    ensures MarksAfter(ts[..k]) == Marks(StartBefore(ts, Smoothed(ts), k), Before(Smoothed(ts), k))
    ensures k < |ts| ==> Answers(ts, Smoothed(ts), k)
  {
    if k > 0 {
      MarksFromAnswers(ts, k - 1);
      SmoothedAt(ts, k - 1);
      assert ts[..k][..k - 1] == ts[..k - 1];
    }
    if k < |ts| {
      SmoothedAt(ts, k);
      assert ts[..k + 1][..k] == ts[..k];
    }
  }

  /** For any inputs, these are the answers and no others are. */
  lemma AnswersIff(ts: seq<Time>, rs: seq<Time>)
    requires |rs| == |ts|
    ensures rs == Smoothed(ts) <==> forall k :: 0 <= k < |ts| ==> Answers(ts, rs, k)
  {
    forall k | 0 <= k < |ts| ensures Answers(ts, Smoothed(ts), k) {
      MarksFromAnswers(ts, k);
    }
    if forall k :: 0 <= k < |ts| ==> Answers(ts, rs, k) {
      SameAnswers(ts, rs, Smoothed(ts), |ts|);
      assert rs == rs[..|ts|] && Smoothed(ts) == Smoothed(ts)[..|ts|];
    }
  }

  lemma {:induction false} SameAnswers(ts: seq<Time>, rs: seq<Time>, rs': seq<Time>, k: nat)
    requires k <= |ts| == |rs| == |rs'|
    requires forall j :: 0 <= j < |ts| ==> Answers(ts, rs, j) && Answers(ts, rs', j)
    ensures rs[..k] == rs'[..k] && StartBefore(ts, rs, k) == StartBefore(ts, rs', k)
  {
    if k > 0 {
      SameAnswers(ts, rs, rs', k - 1);
      assert Before(rs, k - 1) == Before(rs', k - 1) by {
        assert k > 1 ==> rs[..k - 1][k - 2] == rs'[..k - 1][k - 2];
      }
      assert Answers(ts, rs, k - 1) && Answers(ts, rs', k - 1);
      assert rs[..k] == rs[..k - 1] + [rs[k - 1]] && rs'[..k] == rs'[..k - 1] + [rs'[k - 1]];
    }
  }

  /** An answer is its input exactly if the input starts a run. */
  lemma AdjustedIff(ts: seq<Time>, k: nat)
    requires k < |ts|
    ensures Smoothed(ts)[k] == ts[k] <==> Starts(ts, Smoothed(ts), k)
  {
    MarksFromAnswers(ts, k);
  }

  lemma LastIsHigh(ts: seq<Time>)
    ensures ([0] + Smoothed(ts))[|ts|] == MarksAfter(ts).high
  {
  }
}
