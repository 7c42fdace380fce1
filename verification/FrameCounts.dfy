/**
 What the frame counters of an output stream count (out_write, out_set_parameters and
 adev_open_output_stream of bluetooth/audio/hw/stream_apis.cc), over whole runs of
 StreamProtocol.
 */
module FrameCounts {
  import opened AudioSession
  import opened StreamProtocol
  import opened Options
  import opened Arithmetic

  /** In every reachable state no more frames are rendered than presented. */
  lemma RenderedAtMostPresented(ss: seq<State>, es: seq<Event>, i: nat, p: nat)
    requires Run(ss, es) && i < |ss| && p in ss[i].streams
    ensures ss[i].streams[p].rendered <= ss[i].streams[p].presented
  {
    RunKeepsInv(ss, es, i);
    assert StreamOk(ss[i], p);
  }

  // ------------------------------------------------------------ resets

  /** closing=true stops stream `x`: never together with A2dpSuspended=true on an A2DP stream,
      always together with another A2dpSuspended value on one, and otherwise unless the port is
      disabled. */
  predicate Stops(x: Stream, suspended: Option<bool>) {
    if suspended.Some? && IsA2dp(x.sessionType) then !suspended.value else x.state != DISABLED
  }

  datatype Counter = Rendered | Presented

  function CountOf(x: Stream, c: Counter): nat {
    if c == Rendered then x.rendered else x.presented
  }

  /** The action pauses stream `x`: out_pause or out_standby on a STARTED port, or
      A2dpSuspended=true on an A2DP stream. */
  predicate Pauses(x: Stream, a: Action) {
    (a.Pause? && x.state == STARTED)
    || (a.SetParameters? && a.suspended == Some(true) && IsA2dp(x.sessionType))
  }

  /** Event `e` opens stream `p`, or stops it by closing=true; a pause resets the rendered frames. */
  ghost predicate Resets(s: State, e: Event, s': State, p: nat, c: Counter) {
    p in s'.streams
    && (p in s.streams ==>
          e.Do? && e.p == p
          && ((e.action.SetParameters? && e.action.closing && Stops(s.streams[p], e.action.suspended))
              || (c == Rendered && Pauses(s.streams[p], e.action))))
  }

  /** The frames that the data given to a write makes up, if anything of it was written. */
  function Requested(s: State, e: Event, p: nat): nat {
    if IsWrite(s, e, p) then s.streams[p].call.bytes / s.streams[p].frameSize else 0
  }

  /** The frames that the data actually written makes up. */
  function Delivered(s: State, e: Event, p: nat): nat {
    if IsWrite(s, e, p) then e.action.n / s.streams[p].frameSize else 0
  }

  /** WriteData of stream `p` returns with something written. */
  predicate IsWrite(s: State, e: Event, p: nat) {
    e.Do? && e.p == p && e.action.WriteData? && e.action.n > 0
    && p in s.streams && s.streams[p].call.WriteAdmitted?
  }

  function SumRequested(ss: seq<State>, es: seq<Event>, r: nat, i: nat, p: nat): nat
    requires r <= i <= |es| < |ss|
    decreases i - r
  {
    if i == r then 0 else SumRequested(ss, es, r, i - 1, p) + Requested(ss[i - 1], es[i - 1], p)
  }

  function SumDelivered(ss: seq<State>, es: seq<Event>, r: nat, i: nat, p: nat): nat
    requires r <= i <= |es| < |ss|
    decreases i - r
  {
    if i == r then 0 else SumDelivered(ss, es, r, i - 1, p) + Delivered(ss[i - 1], es[i - 1], p)
  }

  /** How one action moves the counter. */
  lemma ActionCounts(s: State, a: Action, p: nat, c: Counter)
    requires p in s.streams
    requires StreamEnabled(s.streams[p], a, IsReady(s, s.streams[p].sessionType))
    ensures var x, y := s.streams[p], StreamStep(s.streams[p], a);
      CountOf(y, c) == if (a.SetParameters? && a.closing && Stops(x, a.suspended)) || (c == Rendered && Pauses(x, a))
                       then 0 else CountOf(x, c) + Requested(s, Do(p, a), p)
  {
  }

  lemma StepCounts(s: State, e: Event, p: nat, c: Counter)
    requires Inv(s) && Enabled(s, e) && p in Step(s, e).streams
    ensures var y := Step(s, e).streams[p];
      CountOf(y, c) == if Resets(s, e, Step(s, e), p, c) then 0
                       else CountOf(s.streams[p], c) + Requested(s, e, p)
  {
    if p in s.streams {
      if e.Do? && e.p == p {
        ActionCounts(s, e.action, p, c);
      } else {
        OthersOnlyNotify(s, e, p);
      }
    }
  }

  // ------------------------------------------------------------ what is counted

  /** Event `r` is the last reset of stream `p` before state `i`. */
  ghost predicate LastReset(ss: seq<State>, es: seq<Event>, r: nat, i: nat, p: nat, c: Counter)
    requires |ss| == |es| + 1
  {
    r < i <= |es| && Resets(ss[r], es[r], ss[r + 1], p, c)
    && (forall k :: r < k <= i ==> p in ss[k].streams)
    && forall k :: r < k < i ==> !Resets(ss[k], es[k], ss[k + 1], p, c)
  }

  lemma {:induction false} HasLastReset(ss: seq<State>, es: seq<Event>, i: nat, p: nat, c: Counter) returns (r: nat)
    requires |ss| == |es| + 1 && ss[0].streams == map[] && i < |ss| && p in ss[i].streams
    ensures LastReset(ss, es, r, i, p, c)
  {
    assert i > 0;
    if Resets(ss[i - 1], es[i - 1], ss[i], p, c) {
      r := i - 1;
    } else {
      r := HasLastReset(ss, es, i - 1, p, c);
    }
  }

  /** Event `k` moves the counter of stream `p` as it should. */
  ghost predicate CountsAt(ss: seq<State>, es: seq<Event>, k: nat, p: nat, c: Counter)
    requires |ss| == |es| + 1 && k < |es|
  {
    p in ss[k + 1].streams ==>
      CountOf(ss[k + 1].streams[p], c) ==
        if p !in ss[k].streams || Resets(ss[k], es[k], ss[k + 1], p, c) then 0
        else CountOf(ss[k].streams[p], c) + Requested(ss[k], es[k], p)
  }

  lemma RunCounts(ss: seq<State>, es: seq<Event>, k: nat, p: nat, c: Counter)
    requires Run(ss, es) && k < |es|
    ensures CountsAt(ss, es, k, p, c)
  {
    RunKeepsInv(ss, es, k);
    assert Joined(ss, es, k);
    if p in ss[k + 1].streams {
      StepCounts(ss[k], es[k], p, c);
    }
  }

  lemma LastResetBefore(ss: seq<State>, es: seq<Event>, r: nat, i: nat, p: nat, c: Counter)
    requires |ss| == |es| + 1 && LastReset(ss, es, r, i, p, c) && r + 1 < i
    ensures LastReset(ss, es, r, i - 1, p, c) && !Resets(ss[i - 1], es[i - 1], ss[i], p, c)
  {
  }

  lemma {:induction false} CountIsSum(ss: seq<State>, es: seq<Event>, r: nat, i: nat, p: nat, c: Counter)
    requires |ss| == |es| + 1 && LastReset(ss, es, r, i, p, c)
    requires forall k :: r <= k < i ==> CountsAt(ss, es, k, p, c)
    ensures CountOf(ss[i].streams[p], c) == SumRequested(ss, es, r + 1, i, p)
  {
    assert CountsAt(ss, es, i - 1, p, c);
    if i > r + 1 {
      LastResetBefore(ss, es, r, i, p, c);
      CountIsSum(ss, es, r, i - 1, p, c);
    }
  }

  lemma DeliveredAtMostRequested(ss: seq<State>, es: seq<Event>, k: nat, p: nat)
    requires Run(ss, es) && k < |es|
    ensures Delivered(ss[k], es[k], p) <= Requested(ss[k], es[k], p)
  {
    if IsWrite(ss[k], es[k], p) {
      assert Joined(ss, es, k);
      DivMonotone(es[k].action.n, ss[k].streams[p].call.bytes, ss[k].streams[p].frameSize);
    }
  }

  ghost predicate CountedInFull(ss: seq<State>, es: seq<Event>, r: nat, i: nat, p: nat)
    requires i <= |es| < |ss|
  {
    forall k :: r <= k < i ==> Delivered(ss[k], es[k], p) == Requested(ss[k], es[k], p)
  }

  lemma {:induction false} SumsAgree(ss: seq<State>, es: seq<Event>, r: nat, i: nat, p: nat)
    requires Run(ss, es) && r <= i <= |es|
    ensures SumDelivered(ss, es, r, i, p) <= SumRequested(ss, es, r, i, p)
    ensures SumDelivered(ss, es, r, i, p) == SumRequested(ss, es, r, i, p)
      <==> CountedInFull(ss, es, r, i, p)
    decreases i - r
  {
    if r < i {
      SumsAgree(ss, es, r, i - 1, p);
      DeliveredAtMostRequested(ss, es, i - 1, p);
    }
  }

  /** In every run a counter holds the frames requested by the writes since its last reset of which
      anything was written. They are the frames written exactly when each of these writes wrote as
      many frames as it was asked to. */
  lemma CountsRequests(ss: seq<State>, es: seq<Event>, i: nat, p: nat, c: Counter) returns (r: nat)
    requires Run(ss, es) && i < |ss| && p in ss[i].streams
    ensures LastReset(ss, es, r, i, p, c)
    ensures CountOf(ss[i].streams[p], c) == SumRequested(ss, es, r + 1, i, p)
    ensures CountOf(ss[i].streams[p], c) == SumDelivered(ss, es, r + 1, i, p)
      <==> CountedInFull(ss, es, r + 1, i, p)
  {
    r := HasLastReset(ss, es, i, p, c);
    forall k: nat | r <= k < i
      ensures CountsAt(ss, es, k, p, c)
    {
      RunCounts(ss, es, k, p, c);
    }
    CountIsSum(ss, es, r, i, p, c);
    SumsAgree(ss, es, r + 1, i, p);
  }
}
