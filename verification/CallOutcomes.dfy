/**
 What the stack's messages and the stream calls come to, over every run of StreamProtocol and
 in terms of its states and events alone (bluetooth/audio/hw/device_port_proxy.cc,
 bluetooth/audio/hw/stream_apis.cc,
 bluetooth/audio/utils/aidl_session/BluetoothAudioSession.cpp).
 */
module CallOutcomes {
  import opened AudioSession
  import opened StreamProtocol
  import opened Options

  // ------------------------------------------------------------ results of the stack

  /** A result reaches every open stream of its session and changes its state alone. A start that
      fails leaves the stream ready for another one; a suspension that fails disables it. */
  lemma ResultMoves(ss: seq<State>, es: seq<Event>, i: nat, p: nat)
    requires Run(ss, es) && i < |es| && es[i].ControlStatus?
    requires p in ss[i].streams && ss[i].streams[p].sessionType == es[i].t
    ensures p in ss[i + 1].streams
    ensures var x, y, status := ss[i].streams[p], ss[i + 1].streams[p], es[i].status;
      y == x.(state := y.state)
      && (x.state == STARTING ==> y.state == if status == SUCCESS then STARTED else STANDBY)
      && (x.state == SUSPENDING ==> y.state == if status == SUCCESS then STANDBY else DISABLED)
      && (x.state == STARTED ==> y.state == if status == FAILURE then STARTED else STANDBY)
      && (x.state == STANDBY || x.state == DISABLED ==> y.state == x.state)
  {
    RunKeepsInv(ss, es, i);
    assert Joined(ss, es, i);
    NotifyMoves(ss[i], es[i].t, ControlResult(es[i].status), p);
  }

  /** A result leaves the streams of other sessions alone. */
  lemma ResultSpares(ss: seq<State>, es: seq<Event>, i: nat, p: nat)
    requires Run(ss, es) && i < |es| && es[i].ControlStatus?
    requires p in ss[i].streams && ss[i].streams[p].sessionType != es[i].t
    ensures p in ss[i + 1].streams && ss[i + 1].streams[p] == ss[i].streams[p]
  {
    RunKeepsInv(ss, es, i);
    assert Joined(ss, es, i);
    NotifyMoves(ss[i], es[i].t, ControlResult(es[i].status), p);
  }

  /** Stream `p` can be brought to STARTING by out_resume. */
  ghost predicate CanStart(ss: seq<State>, es: seq<Event>, p: nat) {
    exists tt: seq<State>, ds: seq<Event> :: Run(tt, ds) && |ds| == |es| + 3 && es <= ds && ss <= tt
      && ds[|es|] == Do(p, Resume) && ds[|es| + 1] == Do(p, StartRead(true)) && ds[|es| + 2] == Do(p, StartSet)
      && p in tt[|ds|].streams && tt[|ds|].streams[p].state == STARTING
  }

  lemma Extended(ss: seq<State>, es: seq<Event>, p: nat, a: Action)
    returns (tt: seq<State>, ds: seq<Event>)
    requires Run(ss, es) && p in ss[|es|].streams
    requires StreamEnabled(ss[|es|].streams[p], a, IsReady(ss[|es|], ss[|es|].streams[p].sessionType))
    ensures Run(tt, ds) && ss <= tt && ds == es + [Do(p, a)]
    ensures p in tt[|ds|].streams && tt[|ds|].streams[p] == StreamStep(ss[|es|].streams[p], a)
  {
    RunExtends(ss, es, Do(p, a));
    tt, ds := ss + [Step(ss[|es|], Do(p, a))], es + [Do(p, a)];
  }

  /** A STANDBY stream without a call can be started. */
  lemma StandbyCanStart(ss: seq<State>, es: seq<Event>, p: nat)
    requires Run(ss, es) && p in ss[|es|].streams
    requires ss[|es|].streams[p].state == STANDBY && ss[|es|].streams[p].call.Idle?
    ensures CanStart(ss, es, p)
  {
    var tt, ds := Extended(ss, es, p, Resume);
    tt, ds := Extended(tt, ds, p, StartRead(true));
    tt, ds := Extended(tt, ds, p, StartSet);
    assert ds == es + [Do(p, Resume), Do(p, StartRead(true)), Do(p, StartSet)];
  }

  /** After a start that the stack failed, the stream can be started again: at once if Start has
      returned, and after its wait has ended if it has not. */
  lemma FailedStartCanBeRepeated(ss: seq<State>, es: seq<Event>, p: nat) returns (tt: seq<State>, ds: seq<Event>)
    requires Run(ss, es) && |es| > 0 && es[|es| - 1].ControlStatus? && es[|es| - 1].status != SUCCESS
    requires p in ss[|es| - 1].streams && ss[|es| - 1].streams[p].sessionType == es[|es| - 1].t
    requires ss[|es| - 1].streams[p].state == STARTING
    requires ss[|es| - 1].streams[p].call in {Idle, StartWaiting(FromResume)}
    ensures Run(tt, ds) && ss <= tt && CanStart(tt, ds, p)
    ensures ds == if ss[|es| - 1].streams[p].call.Idle? then es else es + [Do(p, StartWake(false))]
  {
    tt, ds := ss, es;
    ResultMoves(ss, es, |es| - 1, p);
    if ss[|es| - 1].streams[p].call.StartWaiting? {
      tt, ds := Extended(ss, es, p, StartWake(false));
    }
    StandbyCanStart(tt, ds, p);
  }

  // ------------------------------------------------------------ where calls begin

  /** out_resume begins a Start exactly on a STANDBY port, out_pause and out_standby a Suspend
      exactly on a STARTED one; on another port they leave everything as it is. */
  lemma CallsBegin(ss: seq<State>, es: seq<Event>, i: nat, p: nat)
    requires Run(ss, es) && i < |es| && (es[i] == Do(p, Resume) || es[i] == Do(p, Pause))
    ensures p in ss[i].streams && p in ss[i + 1].streams
    ensures var x, y := ss[i].streams[p], ss[i + 1].streams[p];
      if es[i] == Do(p, Resume) && x.state == STANDBY then y == x.(call := StartEntering(FromResume))
      else if es[i] == Do(p, Pause) && x.state == STARTED then y == x.(rendered := 0, call := SuspendEntering(false))
      else y == x
  {
    assert Joined(ss, es, i);
  }

  /** out_set_parameters: closing leaves the port DISABLED unless a suspension has begun; without
      closing, A2dpSuspended=true leaves an A2DP port DISABLED or begins a suspension of a STARTED
      one, another value makes a DISABLED one STANDBY, and on other streams it changes nothing. */
  lemma ParametersSet(ss: seq<State>, es: seq<Event>, i: nat, p: nat)
    requires Run(ss, es) && i < |es| && es[i].Do? && es[i].p == p && es[i].action.SetParameters?
    ensures p in ss[i].streams && p in ss[i + 1].streams
    ensures var x, y, a := ss[i].streams[p], ss[i + 1].streams[p], es[i].action;
      var a2dp := x.sessionType == A2DP_SOFTWARE_ENCODING_DATAPATH
                  || x.sessionType == A2DP_HARDWARE_OFFLOAD_ENCODING_DATAPATH;
      if a2dp && a.suspended == Some(true) then
        if x.state == STARTED then y == x.(rendered := 0, call := SuspendEntering(true))
        else y == x.(rendered := 0, state := DISABLED)
      else if a.closing then
        y == if x.state == DISABLED && !(a2dp && a.suspended == Some(false)) then x
             else x.(rendered := 0, presented := 0, state := DISABLED)
      else if a2dp && a.suspended == Some(false) && x.state == DISABLED then y == x.(state := STANDBY)
      else y == x
  {
    assert Joined(ss, es, i);
  }

  /** Suspend, however it ends, leaves the port DISABLED when it came from A2dpSuspended=true, and
      as the stack has left it when it came from out_pause or out_standby. */
  lemma SuspendReturns(ss: seq<State>, es: seq<Event>, n: nat, p: nat) returns (i: nat)
    requires Run(ss, es) && n < |es| && es[n].Do? && es[n].p == p
    requires es[n].action in {SuspendRead(false), SuspendIssue(false), SuspendWake(true), SuspendWake(false)}
    ensures i < n && BeginsSuspend(ss, es, i, p) && forall j :: i < j <= n ==> InSuspend(ss[j], p)
    ensures p in ss[n].streams && p in ss[n + 1].streams
    ensures var x, y := ss[n].streams[p], ss[n + 1].streams[p];
      y == x.(call := Idle, state := if es[i].action.SetParameters? then DISABLED else x.state)
  {
    RunIsTraced(ss, es);
    assert Joined(ss, es, n);
    var a, b, c := SuspendHistory(ss, es, n, p);
    i := a;
  }

  // ------------------------------------------------------------ out_write

  /** The bytes of the write that the call belongs to, if it belongs to one. */
  function WriteBytes(c: Call): Option<nat> {
    match c
    case WriteResuming(b) => Some(b)
    case WriteRefused(b) => Some(b)
    case WriteAdmitted(b) => Some(b)
    case StartEntering(FromWrite(b)) => Some(b)
    case StartSetting(FromWrite(b)) => Some(b)
    case StartPending(FromWrite(b)) => Some(b)
    case StartWaiting(FromWrite(b)) => Some(b)
    case _ => None
  }

  ghost predicate InWrite(s: State, p: nat, b: nat) {
    p in s.streams && WriteBytes(s.streams[p].call) == Some(b)
  }

  /** Event `k` lets the write go on to WriteData: the Start inside it returns true, or out_resume
      finds the port STARTED. */
  ghost predicate AdmitsAt(ss: seq<State>, es: seq<Event>, k: int, p: nat)
    requires |ss| == |es| + 1
  {
    0 <= k < |es|
    && (es[k] == Do(p, StartWake(true))
        || (es[k] == Do(p, WriteResume) && p in ss[k].streams && ss[k].streams[p].state == STARTED))
  }

  /** The write that began at event `i` has been admitted before state `n`. */
  ghost predicate Admitted(ss: seq<State>, es: seq<Event>, i: nat, n: nat, p: nat)
    requires |ss| == |es| + 1 && i < n < |ss|
  {
    (p in ss[i].streams && ss[i].streams[p].state == STARTED)
    || exists k :: i < k < n && AdmitsAt(ss, es, k, p)
  }

  lemma MovesInWrite(x: Stream, e: Event, p: nat, ready: bool, y: Stream)
    requires Moves(x, e, p, ready, y) && WriteBytes(y.call).Some?
    ensures WriteBytes(x.call) == WriteBytes(y.call)
         || (e == Do(p, Write(WriteBytes(y.call).value)) && x.call.Idle?
             && (y.call.WriteAdmitted? <==> x.state == STARTED))
    ensures WriteBytes(x.call).Some? ==>
      (y.call.WriteAdmitted? <==>
         x.call.WriteAdmitted? || e == Do(p, StartWake(true)) || (e == Do(p, WriteResume) && x.state == STARTED))
  {
  }

  /** A write in progress goes back to its beginning, and is admitted exactly as the events since
      then say. */
  lemma {:induction false} WriteHistory(ss: seq<State>, es: seq<Event>, n: nat, p: nat, b: nat) returns (i: nat)
    requires Traced(ss, es) && n < |ss| && InWrite(ss[n], p, b)
    ensures i < n && es[i] == Do(p, Write(b))
    ensures forall j :: i < j <= n ==> InWrite(ss[j], p, b)
    ensures ss[n].streams[p].call.WriteAdmitted? <==> Admitted(ss, es, i, n, p)
  {
    assert FollowsAt(ss, es, n - 1, p);
    var s := ss[n - 1];
    MovesInWrite(s.streams[p], es[n - 1], p, IsReady(s, s.streams[p].sessionType), ss[n].streams[p]);
    i := n - 1;
    if InWrite(s, p, b) {
      i := WriteHistory(ss, es, n - 1, p, b);
      AdmittedNext(ss, es, i, n - 1, p);
    }
  }

  lemma AdmittedNext(ss: seq<State>, es: seq<Event>, i: nat, n: nat, p: nat)
    requires |ss| == |es| + 1 && i < n < |es|
    ensures Admitted(ss, es, i, n + 1, p) <==> Admitted(ss, es, i, n, p) || AdmitsAt(ss, es, n, p)
  {
  }

  /** What becomes of a write of `b` bytes: it ends in WriteData, with at most `b` bytes, exactly when
      the port was STARTED at its first look, or at the look of out_resume inside it, or the Start
      inside it returned true. Otherwise it reports all bytes on a DISABLED port and none on another. */
  lemma WriteOutcome(ss: seq<State>, es: seq<Event>, n: nat, p: nat) returns (i: nat, b: nat)
    requires Run(ss, es) && n < |es| && es[n].Do? && es[n].p == p
    requires es[n].action.WriteData? || es[n].action.WriteReturn?
    ensures i < n && es[i] == Do(p, Write(b)) && forall j :: i < j <= n ==> InWrite(ss[j], p, b)
    ensures p in ss[n].streams && (es[n].action.WriteData? <==> Admitted(ss, es, i, n, p))
    ensures es[n].action.WriteData? ==> es[n].action.n <= b
    ensures es[n].action.WriteReturn? ==> es[n].action.n == if ss[n].streams[p].state == DISABLED then b else 0
    ensures p in ss[n + 1].streams && ss[n + 1].streams[p].call.Idle?
  {
    RunIsTraced(ss, es);
    assert Joined(ss, es, n);
    b := ss[n].streams[p].call.bytes;
    i := WriteHistory(ss, es, n, p, b);
  }

  // ------------------------------------------------------------ readiness

  predicate Hardware(t: SessionType) {
    t in {A2DP_HARDWARE_OFFLOAD_ENCODING_DATAPATH, A2DP_HARDWARE_OFFLOAD_DECODING_DATAPATH,
          LE_AUDIO_HARDWARE_OFFLOAD_ENCODING_DATAPATH, LE_AUDIO_HARDWARE_OFFLOAD_DECODING_DATAPATH,
          LE_AUDIO_BROADCAST_HARDWARE_OFFLOAD_ENCODING_DATAPATH, HFP_HARDWARE_OFFLOAD_DATAPATH}
  }

  /** The kinds of configuration, by the kind of session that takes them. */
  predicate Suits(t: SessionType, tag: ConfigTag) {
    if !Hardware(t) then tag == pcmConfig
    else if t == HFP_HARDWARE_OFFLOAD_DATAPATH then tag == hfpConfig
    else if t == LE_AUDIO_BROADCAST_HARDWARE_OFFLOAD_ENCODING_DATAPATH then tag == leAudioBroadcastConfig
    else if t in {LE_AUDIO_HARDWARE_OFFLOAD_ENCODING_DATAPATH, LE_AUDIO_HARDWARE_OFFLOAD_DECODING_DATAPATH}
    then tag == leAudioConfig
    else tag == a2dp || tag == a2dpConfig
  }

  /** What a start makes of a session's link. */
  lemma LinkReadies(t: SessionType, l: Link, iface: bool, q: QueueDesc, tag: ConfigTag)
    requires t != UNKNOWN
    ensures !iface || !Suits(t, tag) ==> LinkStarted(t, l, iface, q, tag) == l
    ensures iface && Suits(t, tag) ==>
      (Ready(t, LinkStarted(t, l, iface, q, tag)) <==> q == ValidQueue || (q == NoQueue && Hardware(t)))
    ensures StartReported(t, iface, q, tag) <==> iface && Suits(t, tag) && q != InvalidQueue
  {
    assert TagAccepted(t, tag) <==> Suits(t, tag);
  }

  /** A start without an interface or with an unsuited configuration changes nothing about a session.
      Otherwise the session is then ready iff its queue is valid, or there is none and its data
      path is in hardware; and its streams are DISABLED unless the queue is invalid. */
  lemma StartReadies(ss: seq<State>, es: seq<Event>, i: nat, t: SessionType)
    requires Run(ss, es) && i < |es| && es[i].SessionStarted? && es[i].t == t
    ensures !es[i].iface || !Suits(t, es[i].tag) ==>
      (IsReady(ss[i + 1], t) <==> IsReady(ss[i], t)) && ss[i + 1].streams == ss[i].streams
    ensures es[i].iface && Suits(t, es[i].tag) ==>
      (IsReady(ss[i + 1], t) <==> es[i].q == ValidQueue || (es[i].q == NoQueue && Hardware(t)))
    ensures es[i].iface && Suits(t, es[i].tag) ==>
      if es[i].q == InvalidQueue then ss[i + 1].streams == ss[i].streams
      else forall p :: p in ss[i].streams && ss[i].streams[p].sessionType == t ==>
             p in ss[i + 1].streams && ss[i + 1].streams[p] == ss[i].streams[p].(state := DISABLED)
  {
    assert Joined(ss, es, i);
    LinkReadies(t, LinkOf(ss[i], t), es[i].iface, es[i].q, es[i].tag);
    AllDisabled(ss, es, i, t);
  }

  lemma AllDisabled(ss: seq<State>, es: seq<Event>, i: nat, t: SessionType)
    requires Run(ss, es) && i < |es|
    ensures forall p :: p in ss[i].streams && ss[i].streams[p].sessionType == t ==>
      Notify(ss[i], t, SessionChanged)[p] == ss[i].streams[p].(state := DISABLED)
  {
    RunKeepsInv(ss, es, i);
    forall p | p in ss[i].streams && ss[i].streams[p].sessionType == t
      ensures Notify(ss[i], t, SessionChanged)[p] == ss[i].streams[p].(state := DISABLED)
    {
      NotifyMoves(ss[i], t, SessionChanged, p);
    }
  }
}
