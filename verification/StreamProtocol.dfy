/**
 Output streams over sessions and ports as one state machine
 (bluetooth/audio/hw/stream_apis.cc on top of bluetooth/audio/hw/device_port_proxy.cc and
 bluetooth/audio/utils/aidl_session/BluetoothAudioSession.cpp).

 Each stream is driven by one caller at a time; `call` says where that call stands. A step is
 one atomic piece of a stream call (entering it, looking at the port's state, assigning it, the
 answer of the session to a start or suspend request, waking from the wait, returning from a
 write) or one message of the stack to a session. Steps of different streams and of the stack interleave freely.
 */
module StreamProtocol {
  import opened AudioSession
  import opened Options

  type Positive = n: int | n > 0 witness 1

  /** Which call a Start belongs to. */
  datatype Caller = FromResume | FromWrite(bytes: nat)

  datatype Call =
    | Idle
    | StartEntering(caller: Caller)  // Start is called and has not looked at the port yet
    | StartSetting(caller: Caller)   // Start has found STANDBY and is about to set STARTING
    | StartPending(caller: Caller)   // STARTING is set, StartStream not yet answered
    | StartWaiting(caller: Caller)   // StartStream succeeded, waiting to leave STARTING
    | SuspendEntering(param: bool)   // `param`: from A2dpSuspended=true
    | SuspendSetting(param: bool)    // Suspend has found STARTED and is about to set SUSPENDING
    | SuspendPending(param: bool)    // SUSPENDING is set
    | SuspendWaiting(param: bool)
    | WriteResuming(bytes: nat)      // out_write found the port not STARTED and is about to resume
    | WriteRefused(bytes: nat)       // out_write could not resume
    | WriteAdmitted(bytes: nat)      // out_write is about to call WriteData

  datatype Stream = Stream(
    cookie: nat,
    sessionType: SessionType,
    state: StreamState,
    frameSize: Positive,
    rendered: nat,
    presented: nat,
    call: Call)

  datatype State = State(
    links: map<SessionType, Link>,
    observers: map<SessionType, map<nat, nat>>,
    streams: map<nat, Stream>)

  /** One atomic piece of a stream call. */
  datatype Action =
    | Resume
    | Pause                          // out_pause and out_standby
    | SetParameters(suspended: Option<bool>, closing: bool)
    | Write(bytes: nat)              // out_write looks at the port
    | WriteResume                    // out_write resumes, which looks at the port again
    | StartRead(ok: bool)            // Start looks at the port
    | StartSet                       // Start sets the port STARTING
    | StartIssue(ok: bool)           // the session answers the request of Start
    | StartWake(ok: bool)            // Start's wait ends and Start returns
    | SuspendRead(ok: bool)
    | SuspendSet
    | SuspendIssue(ok: bool)
    | SuspendWake(ok: bool)
    | WriteReturn(n: nat)            // a refused out_write returns
    | WriteData(n: nat)              // WriteData returns, and out_write with it

  datatype Event =
    | Open(p: nat, t: SessionType, frameSize: Positive)
    | Close(p: nat)
    | Do(p: nat, action: Action)
    | SessionStarted(t: SessionType, iface: bool, q: QueueDesc, tag: ConfigTag)
    | SessionEnded(t: SessionType)
    | ControlStatus(t: SessionType, status: Status)
    | ConfigChanged(t: SessionType)

  const INITIAL := State(map[], map[], map[])

  function LinkOf(s: State, t: SessionType): Link {
    if t in s.links then s.links[t] else NO_LINK
  }

  function ObserversOf(s: State, t: SessionType): map<nat, nat> {
    if t in s.observers then s.observers[t] else map[]
  }

  predicate IsReady(s: State, t: SessionType) {
    Ready(t, LinkOf(s, t))
  }

  /** The session types a port can have. */
  predicate PortType(t: SessionType) {
    (t == A2DP_SOFTWARE_ENCODING_DATAPATH
     || t == HEARING_AID_SOFTWARE_ENCODING_DATAPATH
     || t == LE_AUDIO_SOFTWARE_ENCODING_DATAPATH
     || t == LE_AUDIO_SOFTWARE_DECODING_DATAPATH
     || t == LE_AUDIO_BROADCAST_SOFTWARE_ENCODING_DATAPATH)
  }

  // ------------------------------------------------------------ steps of one stream

  /** The step is possible for stream `x`, whose session is ready or not. */
  predicate StreamEnabled(x: Stream, a: Action, ready: bool) {
    match a
    case Resume => x.call.Idle?
    case Pause => x.call.Idle?
    case SetParameters(_, _) => x.call.Idle?
    case Write(_) => x.call.Idle?
    case WriteResume => x.call.WriteResuming?
    case StartRead(ok) => x.call.StartEntering? && ok == (x.state == STANDBY)
    case StartSet => x.call.StartSetting?
    case StartIssue(ok) => x.call.StartPending? && (ok ==> ready)
    case StartWake(ok) => x.call.StartWaiting? && ok == (x.state == STARTED)
    case SuspendRead(ok) => x.call.SuspendEntering? && ok == (x.state == STARTED)
    case SuspendSet => x.call.SuspendSetting?
    case SuspendIssue(ok) => x.call.SuspendPending? && (ok ==> ready)
    case SuspendWake(ok) => x.call.SuspendWaiting? && ok == (x.state == STANDBY)
    case WriteReturn(n) =>
      x.call.WriteRefused? && n == if x.state == DISABLED then x.call.bytes else 0
    case WriteData(n) => x.call.WriteAdmitted? && n <= x.call.bytes
  }

  /** What follows Start in the call that made it. */
  function EndStart(x: Stream, c: Caller, ok: bool): Stream {
    match c
    case FromResume => x.(call := Idle)
    case FromWrite(bytes) => x.(call := if ok then WriteAdmitted(bytes) else WriteRefused(bytes))
  }

  function EndSuspend(x: Stream, param: bool): Stream {
    if param then x.(state := DISABLED, call := Idle) else x.(call := Idle)
  }

  function SuspendedPart(x: Stream, suspended: Option<bool>): Stream {
    if suspended.None? || !IsA2dp(x.sessionType) then x
    else if suspended.value then
      if x.state == STARTED then x.(rendered := 0, call := SuspendEntering(true))
      else x.(rendered := 0, state := DISABLED)
    else if x.state == DISABLED then x.(state := STANDBY)
    else x
  }

  /** Stopping resets both counters, unless the port is disabled already. */
  function StopPart(x: Stream): Stream {
    if x.state == DISABLED then x else x.(rendered := 0, presented := 0, state := DISABLED)
  }

  function StreamStep(x: Stream, a: Action): Stream {
    match a
    case Resume => if x.state == STANDBY then x.(call := StartEntering(FromResume)) else x
    case Pause => if x.state == STARTED then x.(rendered := 0, call := SuspendEntering(false)) else x
    case SetParameters(suspended, closing) =>
      var y := SuspendedPart(x, suspended);
      if closing && y.call.Idle? then StopPart(y) else y
    case Write(bytes) =>
      x.(call := if x.state == STARTED then WriteAdmitted(bytes) else WriteResuming(bytes))
    case WriteResume =>
      if !x.call.WriteResuming? then x
      else if x.state == STANDBY then x.(call := StartEntering(FromWrite(x.call.bytes)))
      else if x.state == STARTED then x.(call := WriteAdmitted(x.call.bytes))
      else x.(call := WriteRefused(x.call.bytes))
    case StartRead(ok) =>
      if !x.call.StartEntering? then x
      else if ok then x.(call := StartSetting(x.call.caller)) else EndStart(x, x.call.caller, false)
    case StartSet =>
      if x.call.StartSetting? then x.(state := STARTING, call := StartPending(x.call.caller)) else x
    case StartIssue(ok) =>
      if !x.call.StartPending? then x
      else if ok then x.(call := StartWaiting(x.call.caller)) else EndStart(x, x.call.caller, false)
    case StartWake(ok) => if x.call.StartWaiting? then EndStart(x, x.call.caller, ok) else x
    case SuspendRead(ok) =>
      if !x.call.SuspendEntering? then x
      else if ok then x.(call := SuspendSetting(x.call.param)) else EndSuspend(x, x.call.param)
    case SuspendSet =>
      if x.call.SuspendSetting? then x.(state := SUSPENDING, call := SuspendPending(x.call.param)) else x
    case SuspendIssue(ok) =>
      if !x.call.SuspendPending? then x
      else if ok then x.(call := SuspendWaiting(x.call.param)) else EndSuspend(x, x.call.param)
    case SuspendWake(ok) => if x.call.SuspendWaiting? then EndSuspend(x, x.call.param) else x
    case WriteReturn(_) => x.(call := Idle)
    case WriteData(n) =>
      if n > 0 && x.call.WriteAdmitted? then
        var frames := x.call.bytes / x.frameSize;
        x.(rendered := x.rendered + frames, presented := x.presented + frames, call := Idle)
      else x.(call := Idle)
  }

  // ------------------------------------------------------------ steps of the system

  /** The stack's notice reaches the streams registered with session `t` under their cookie. */
  function Notify(s: State, t: SessionType, n: Notice): map<nat, Stream> {
    var obs := ObserversOf(s, t);
    map p | p in s.streams ::
      var x := s.streams[p];
      if x.cookie in obs && obs[x.cookie] == p then x.(state := Handle(x.state, n)) else x
  }

  function FirstFree(taken: map<nat, nat>, from: nat, n: nat): (c: nat)
    ensures from <= c <= from + n
    ensures forall k :: from <= k < c ==> k in taken
    ensures c < from + n ==> c !in taken
    decreases n
  {
    if n == 0 || from !in taken then from else FirstFree(taken, from + 1, n - 1)
  }

  /** SetUp: a port that finds its session not ready, or all cookies taken, is discarded. */
  function OpenStream(s: State, p: nat, t: SessionType, frameSize: Positive): State {
    var obs := ObserversOf(s, t);
    var cookie := FirstFree(obs, CookieInit(t), COOKIE_SIZE);
    if !IsReady(s, t) || cookie == CookieUpperBound(t) then s
    else s.(streams := s.streams[p := Stream(cookie, t, STANDBY, frameSize, 0, 0, Idle)],
            observers := s.observers[t := obs[cookie := p]])
  }

  function CloseStream(s: State, p: nat): State
    requires p in s.streams
  {
    var x := s.streams[p];
    s.(streams := s.streams - {p},
       observers := s.observers[x.sessionType := ObserversOf(s, x.sessionType) - {x.cookie}])
  }

  predicate Enabled(s: State, e: Event) {
    match e
    case Open(p, t, _) => p !in s.streams && PortType(t)
    case Close(p) => p in s.streams && s.streams[p].call.Idle?
    case SessionStarted(t, _, _, _) => t != UNKNOWN
    case SessionEnded(t) => t != UNKNOWN
    case ControlStatus(t, _) => t != UNKNOWN
    case ConfigChanged(t) => TagAccepted(t, leAudioConfig)
    case Do(p, a) =>
      p in s.streams && StreamEnabled(s.streams[p], a, IsReady(s, s.streams[p].sessionType))
  }

  function Step(s: State, e: Event): State
    requires Enabled(s, e)
  {
    match e
    case Open(p, t, frameSize) => OpenStream(s, p, t, frameSize)
    case Close(p) => CloseStream(s, p)
    case SessionStarted(t, iface, q, tag) =>
      s.(links := s.links[t := LinkStarted(t, LinkOf(s, t), iface, q, tag)],
         streams := if StartReported(t, iface, q, tag) then Notify(s, t, SessionChanged) else s.streams)
    case SessionEnded(t) =>
      s.(links := s.links[t := NO_LINK],
         streams := if IsReady(s, t) then Notify(s, t, SessionChanged) else s.streams)
    case ControlStatus(t, status) => s.(streams := Notify(s, t, ControlResult(status)))
    case ConfigChanged(t) => s.(links := s.links[t := LinkOf(s, t).(config := true)])
    case Do(p, a) => s.(streams := s.streams[p := StreamStep(s.streams[p], a)])
  }

  /** Event `i` is possible and leads from state `i` to the next one. */
  ghost predicate Joined(ss: seq<State>, es: seq<Event>, i: int)
    requires |ss| == |es| + 1 && 0 <= i < |es|
  {
    Enabled(ss[i], es[i]) && ss[i + 1] == Step(ss[i], es[i])
  }

  /** A run: states joined by events, from the initial state. */
  ghost predicate Run(ss: seq<State>, es: seq<Event>) {
    |ss| == |es| + 1 && ss[0] == INITIAL && forall i :: 0 <= i < |es| ==> Joined(ss, es, i)
  }

  // ------------------------------------------------------------ what every state keeps

  ghost predicate StreamOk(s: State, p: nat)
    requires p in s.streams
  {
    var x := s.streams[p];
    x.sessionType != UNKNOWN
    && InWindow(x.sessionType, x.cookie)
    && x.cookie in ObserversOf(s, x.sessionType)
    && ObserversOf(s, x.sessionType)[x.cookie] == p
    && x.rendered <= x.presented
  }

  ghost predicate ObserverOk(s: State, t: SessionType, c: nat)
    requires c in ObserversOf(s, t)
  {
    var p := ObserversOf(s, t)[c];
    p in s.streams && s.streams[p].cookie == c && s.streams[p].sessionType == t
  }

  /** Cookies and streams correspond one to one, every cookie lies in the window of its session,
      and no more frames are rendered than presented. */
  ghost predicate Inv(s: State) {
    (forall p :: p in s.streams ==> StreamOk(s, p))
    && (forall t, c :: c in ObserversOf(s, t) ==> ObserverOk(s, t, c))
  }

  lemma StreamStepKeeps(x: Stream, a: Action)
    ensures var y := StreamStep(x, a);
      y.cookie == x.cookie && y.sessionType == x.sessionType
      && (x.rendered <= x.presented ==> y.rendered <= y.presented)
  {
  }

  /** Registering a new stream under a free cookie of its session. */
  lemma RegisterKeepsInv(s: State, p: nat, x: Stream, s': State)
    requires Inv(s) && p !in s.streams && x.sessionType != UNKNOWN && x.rendered <= x.presented
    requires InWindow(x.sessionType, x.cookie) && x.cookie !in ObserversOf(s, x.sessionType)
    requires s'.streams == s.streams[p := x]
    requires s'.observers == s.observers[x.sessionType := ObserversOf(s, x.sessionType)[x.cookie := p]]
    ensures Inv(s')
  {
    forall q | q in s'.streams
      ensures StreamOk(s', q)
    {
      if q != p {
        assert StreamOk(s, q);
      }
    }
    forall u, c | c in ObserversOf(s', u)
      ensures ObserverOk(s', u, c)
    {
      if c in ObserversOf(s, u) {
        assert ObserverOk(s, u, c);
      }
    }
  }

  lemma OpenKeepsInv(s: State, p: nat, t: SessionType, frameSize: Positive)
    requires Inv(s) && p !in s.streams && PortType(t)
    ensures Inv(OpenStream(s, p, t, frameSize))
  {
    var s' := OpenStream(s, p, t, frameSize);
    if s' != s {
      RegisterKeepsInv(s, p, s'.streams[p], s');
    }
  }

  lemma CloseKeepsInv(s: State, p: nat)
    requires Inv(s) && p in s.streams
    ensures Inv(CloseStream(s, p))
  {
    var s' := CloseStream(s, p);
    assert StreamOk(s, p);
    forall q | q in s'.streams
      ensures StreamOk(s', q)
    {
      assert StreamOk(s, q);
    }
    forall u, c | c in ObserversOf(s', u)
      ensures ObserverOk(s', u, c)
    {
      assert ObserverOk(s, u, c);
    }
  }

  /** Steps that neither register nor unregister. */
  lemma SameTableKeepsInv(s: State, s': State)
    requires Inv(s) && s'.observers == s.observers && s'.streams.Keys == s.streams.Keys
    requires forall p :: p in s.streams ==>
      s'.streams[p].cookie == s.streams[p].cookie
      && s'.streams[p].sessionType == s.streams[p].sessionType
      && s'.streams[p].rendered <= s'.streams[p].presented
    ensures Inv(s')
  {
    forall q | q in s'.streams
      ensures StreamOk(s', q)
    {
      assert StreamOk(s, q);
    }
    forall u, c | c in ObserversOf(s', u)
      ensures ObserverOk(s', u, c)
    {
      assert ObserverOk(s, u, c);
    }
  }

  lemma NotifyKeepsInv(s: State, t: SessionType, n: Notice, s': State)
    requires Inv(s) && s'.observers == s.observers
    requires s'.streams == s.streams || s'.streams == Notify(s, t, n)
    ensures Inv(s')
  {
    forall q | q in s.streams
      ensures s'.streams[q].cookie == s.streams[q].cookie
      ensures s'.streams[q].sessionType == s.streams[q].sessionType
      ensures s'.streams[q].rendered <= s'.streams[q].presented
    {
      assert StreamOk(s, q);
    }
    SameTableKeepsInv(s, s');
  }

  lemma ActionKeepsInv(s: State, p: nat, a: Action, s': State)
    requires Inv(s) && p in s.streams && s'.observers == s.observers
    requires s'.streams == s.streams[p := StreamStep(s.streams[p], a)]
    ensures Inv(s')
  {
    StreamStepKeeps(s.streams[p], a);
    forall q | q in s.streams
      ensures s'.streams[q].rendered <= s'.streams[q].presented
    {
      assert StreamOk(s, q);
    }
    SameTableKeepsInv(s, s');
  }

  lemma StepKeepsInv(s: State, e: Event)
    requires Inv(s) && Enabled(s, e)
    ensures Inv(Step(s, e))
  {
    match e
    case Open(p, t, frameSize) => OpenKeepsInv(s, p, t, frameSize);
    case Close(p) => CloseKeepsInv(s, p);
    case Do(p, a) => ActionKeepsInv(s, p, a, Step(s, e));
    case SessionStarted(t, _, _, _) => NotifyKeepsInv(s, t, SessionChanged, Step(s, e));
    case SessionEnded(t) => NotifyKeepsInv(s, t, SessionChanged, Step(s, e));
    case ControlStatus(t, status) => NotifyKeepsInv(s, t, ControlResult(status), Step(s, e));
    case ConfigChanged(t) => NotifyKeepsInv(s, t, SessionChanged, Step(s, e));
  }

  lemma {:induction false} RunKeepsInv(ss: seq<State>, es: seq<Event>, i: nat)
    requires Run(ss, es) && i < |ss|
    ensures Inv(ss[i])
  {
    if i > 0 {
      RunKeepsInv(ss, es, i - 1);
      assert Joined(ss, es, i - 1);
      StepKeepsInv(ss[i - 1], es[i - 1]);
    }
  }

  /** In every reachable state a cookie decodes to the session of its stream and belongs to no
      other stream. */
  lemma CookiesCorrespond(ss: seq<State>, es: seq<Event>, i: nat, p: nat, q: nat)
    requires Run(ss, es) && i < |ss| && p in ss[i].streams && q in ss[i].streams
    ensures var x, y := ss[i].streams[p], ss[i].streams[q];
      InWindow(x.sessionType, x.cookie)
      && CookieSessionType(x.cookie) == x.sessionType
      && x.cookie != COOKIE_UNDEFINED
      && (x.cookie == y.cookie ==> p == q)
  {
    RunKeepsInv(ss, es, i);
    var x, y := ss[i].streams[p], ss[i].streams[q];
    assert StreamOk(ss[i], p) && StreamOk(ss[i], q);
    CookieDecodes(x.sessionType, y.sessionType, x.cookie);
  }

  /** Opening takes the least free cookie; it fails exactly when the session is not ready or all
      16 cookies are in use. */
  lemma OpenTakesLeastFree(s: State, p: nat, t: SessionType, frameSize: Positive)
    requires Inv(s) && p !in s.streams && PortType(t)
    ensures var s' := OpenStream(s, p, t, frameSize);
      (p !in s'.streams <==>
         !IsReady(s, t) || forall c :: InWindow(t, c) ==> c in ObserversOf(s, t))
      && (p in s'.streams ==>
            s'.streams[p].state == STANDBY && s'.streams[p].call.Idle?
            && s'.streams[p].sessionType == t && s'.streams[p].frameSize == frameSize
            && InWindow(t, s'.streams[p].cookie)
            && LeastFree(t, ObserversOf(s, t), s'.streams[p].cookie))
  {
    var cookie := FirstFree(ObserversOf(s, t), CookieInit(t), COOKIE_SIZE);
    if cookie < CookieUpperBound(t) {
      assert InWindow(t, cookie);
    }
  }

  // ------------------------------------------------------------ one stream along a run

  /** What a step can do to a stream that is there before and after it. */
  ghost predicate Moves(x: Stream, e: Event, p: nat, ready: bool, y: Stream) {
    (y == x && !(e.Do? && e.p == p))
    || (e.Do? && e.p == p && StreamEnabled(x, e.action, ready) && y == StreamStep(x, e.action))
    || (e.ControlStatus? && e.t == x.sessionType
        && y == x.(state := Handle(x.state, ControlResult(e.status))))
    || ((e.SessionStarted? || e.SessionEnded?) && e.t == x.sessionType && y == x.(state := DISABLED))
  }

  /** A stream just opened. */
  ghost predicate Fresh(x: Stream) {
    x.state == STANDBY && x.call == Idle
  }

  ghost predicate Follows(s: State, e: Event, s': State, p: nat) {
    p in s'.streams ==>
      if p in s.streams then Moves(s.streams[p], e, p, IsReady(s, s.streams[p].sessionType), s'.streams[p])
      else Fresh(s'.streams[p])
  }

  lemma NotifyMoves(s: State, t: SessionType, n: Notice, p: nat)
    requires Inv(s) && p in s.streams
    ensures Notify(s, t, n)[p] ==
      if s.streams[p].sessionType == t then s.streams[p].(state := Handle(s.streams[p].state, n))
      else s.streams[p]
  {
    var x := s.streams[p];
    assert StreamOk(s, p);
    if x.cookie in ObserversOf(s, t) {
      assert ObserverOk(s, t, x.cookie);
    }
  }

  lemma StepFollows(s: State, e: Event, p: nat)
    requires Inv(s) && Enabled(s, e)
    ensures Follows(s, e, Step(s, e), p)
  {
    if p in s.streams {
      match e
      case SessionStarted(t, _, _, _) => NotifyMoves(s, t, SessionChanged, p);
      case SessionEnded(t) => NotifyMoves(s, t, SessionChanged, p);
      case ControlStatus(t, status) => NotifyMoves(s, t, ControlResult(status), p);
      case _ =>
    }
  }

  ghost predicate FollowsAt(ss: seq<State>, es: seq<Event>, i: int, p: nat)
    requires 0 <= i < |es| && |ss| == |es| + 1
  {
    Follows(ss[i], es[i], ss[i + 1], p)
  }

  /** The states of a run, as seen from the streams. */
  ghost predicate Traced(ss: seq<State>, es: seq<Event>) {
    |ss| == |es| + 1 && ss[0].streams == map[]
    && forall i, p :: 0 <= i < |es| ==> FollowsAt(ss, es, i, p)
  }

  lemma RunIsTraced(ss: seq<State>, es: seq<Event>)
    requires Run(ss, es)
    ensures Traced(ss, es)
  {
    forall i, p: nat | 0 <= i < |es|
      ensures FollowsAt(ss, es, i, p)
    {
      RunKeepsInv(ss, es, i);
      assert Joined(ss, es, i);
      StepFollows(ss[i], es[i], p);
    }
  }

  // ------------------------------------------------------------ state changes of one port

  lemma MovesToStarted(x: Stream, e: Event, p: nat, ready: bool, y: Stream)
    requires Moves(x, e, p, ready, y) && y.state == STARTED && x.state != STARTED
    ensures x.state == STARTING && e == ControlStatus(x.sessionType, SUCCESS)
  {
  }

  /** In every run a port enters STARTED only from STARTING, on a SUCCESS of its session. */
  lemma EntersStarted(ss: seq<State>, es: seq<Event>, i: nat, p: nat)
    requires Run(ss, es) && i < |es| && p in ss[i + 1].streams
    requires ss[i + 1].streams[p].state == STARTED
    requires p !in ss[i].streams || ss[i].streams[p].state != STARTED
    ensures p in ss[i].streams && ss[i].streams[p].state == STARTING
    ensures es[i] == ControlStatus(ss[i].streams[p].sessionType, SUCCESS)
  {
    RunKeepsInv(ss, es, i);
    assert Joined(ss, es, i);
    StepFollows(ss[i], es[i], p);
    var s, e := ss[i], es[i];
    assert Follows(s, e, ss[i + 1], p);
    if p in s.streams {
      MovesToStarted(s.streams[p], e, p, IsReady(s, s.streams[p].sessionType), ss[i + 1].streams[p]);
    }
  }

  /** The action makes a DISABLED port something else: an A2dpSuspended value other than true, not
      undone by closing, on an A2DP stream, or the second half of a Start or Suspend. */
  predicate Reenables(x: Stream, e: Event, p: nat) {
    e.Do? && e.p == p
    && (e.action.StartSet? || e.action.SuspendSet?
        || (e.action == SetParameters(Some(false), false) && IsA2dp(x.sessionType)))
  }

  lemma MovesFromDisabled(x: Stream, e: Event, p: nat, ready: bool, y: Stream)
    requires Moves(x, e, p, ready, y) && x.state == DISABLED
    ensures y.state != DISABLED <==> Reenables(x, e, p)
  {
  }

  /** In every run the next step makes a DISABLED port something else exactly when it is an
      A2dpSuspended value other than true, or a Start or Suspend setting the state it has chosen
      before. */
  lemma LeavesDisabled(ss: seq<State>, es: seq<Event>, i: nat, p: nat)
    requires Run(ss, es) && i < |es| && p in ss[i].streams && p in ss[i + 1].streams
    requires ss[i].streams[p].state == DISABLED
    ensures ss[i + 1].streams[p].state != DISABLED <==> Reenables(ss[i].streams[p], es[i], p)
  {
    RunKeepsInv(ss, es, i);
    assert Joined(ss, es, i);
    StepFollows(ss[i], es[i], p);
    var s := ss[i];
    MovesFromDisabled(s.streams[p], es[i], p, IsReady(s, s.streams[p].sessionType), ss[i + 1].streams[p]);
  }

  /** Start or Suspend has looked at the port and is about to set it. */
  predicate Setting(x: Stream) { x.call.StartSetting? || x.call.SuspendSetting? }

  /** Start or Suspend looks at stream `p` and goes on. */
  predicate Looks(e: Event, p: nat) {
    e == Do(p, StartRead(true)) || e == Do(p, SuspendRead(true))
  }

  /** At `m` the session of stream `p` changes and disables the port. */
  ghost predicate ChangedAt(ss: seq<State>, es: seq<Event>, m: int, p: nat)
    requires |ss| == |es| + 1
  {
    0 <= m < |es| && p in ss[m].streams && (es[m].SessionStarted? || es[m].SessionEnded?)
    && es[m].t == ss[m].streams[p].sessionType && ss[m].streams[p].state != DISABLED
  }

  lemma MovesSetting(x: Stream, e: Event, p: nat, ready: bool, y: Stream)
    requires Moves(x, e, p, ready, y) && Setting(y)
    ensures Setting(x) || (Looks(e, p) && y.state != DISABLED)
    ensures y.state == STANDBY || y.state == STARTED || y.state == DISABLED || x.state == y.state
    ensures Setting(x) && y.state == DISABLED && (x.state == STANDBY || x.state == STARTED) ==>
      (e.SessionStarted? || e.SessionEnded?) && e.t == x.sessionType
    ensures !Setting(x) ==> y.state == STANDBY || y.state == STARTED
  {
  }

  /** While Start or Suspend is between its look and its setting, the port is DISABLED only if its
      session has changed since the look. */
  lemma {:induction false} SettingHistory(ss: seq<State>, es: seq<Event>, n: nat, p: nat)
    returns (i: nat, m: int)
    requires Traced(ss, es) && n < |ss| && p in ss[n].streams && Setting(ss[n].streams[p])
    ensures i < n && Looks(es[i], p)
    ensures forall j :: i < j <= n ==> p in ss[j].streams && Setting(ss[j].streams[p])
    ensures ss[n].streams[p].state in {STANDBY, STARTED, DISABLED}
    ensures ss[n].streams[p].state == DISABLED ==> i < m < n && ChangedAt(ss, es, m, p)
  {
    assert FollowsAt(ss, es, n - 1, p);
    var s := ss[n - 1];
    MovesSetting(s.streams[p], es[n - 1], p, IsReady(s, s.streams[p].sessionType), ss[n].streams[p]);
    i, m := n - 1, n - 1;
    if Setting(s.streams[p]) {
      var a, b := SettingHistory(ss, es, n - 1, p);
      i := a;
      m := if s.streams[p].state == DISABLED then b else n - 1;
    }
  }

  /** The exception among the steps of LeavesDisabled: a Start or Suspend sets a DISABLED port only
      if the session changed, and disabled the port, after that same call had looked at it. */
  lemma SetsDisabledPort(ss: seq<State>, es: seq<Event>, n: nat, p: nat) returns (i: nat, m: nat)
    requires Run(ss, es) && n < |es| && (es[n] == Do(p, StartSet) || es[n] == Do(p, SuspendSet))
    requires p in ss[n].streams && ss[n].streams[p].state == DISABLED
    ensures i < m < n && Looks(es[i], p) && ChangedAt(ss, es, m, p)
    ensures forall j :: i < j <= n ==> p in ss[j].streams && Setting(ss[j].streams[p])
  {
    RunIsTraced(ss, es);
    assert Joined(ss, es, n);
    var a, b := SettingHistory(ss, es, n, p);
    i, m := a, b;
  }

  // ------------------------------------------------------------ what a successful Start means

  /** Stream `p` is inside Start. */
  predicate InStart(s: State, p: nat) {
    p in s.streams && Starting(s.streams[p].call)
  }

  predicate Starting(c: Call) {
    c.StartEntering? || c.StartSetting? || c.StartPending? || c.StartWaiting?
  }

  /** Event `i` begins a Start of stream `p`. */
  ghost predicate BeginsStart(ss: seq<State>, es: seq<Event>, i: nat, p: nat)
    requires |ss| == |es| + 1
  {
    i < |es| && p in ss[i].streams && StartsHere(ss[i].streams[p], es[i], p)
  }

  ghost predicate StartsHere(x: Stream, e: Event, p: nat) {
    e.Do? && e.p == p && x.state == STANDBY
    && ((e.action.Resume? && x.call.Idle?) || (e.action.WriteResume? && x.call.WriteResuming?))
  }

  /** At `k` a ready session accepted the start request of stream `p`. */
  ghost predicate IssuedAt(ss: seq<State>, es: seq<Event>, k: int, p: nat)
    requires |ss| == |es| + 1
  {
    0 <= k < |es| && es[k] == Do(p, StartIssue(true))
    && p in ss[k].streams && IsReady(ss[k], ss[k].streams[p].sessionType)
  }

  /** At `m` a SUCCESS reached stream `p` while it was STARTING. */
  ghost predicate SuccessAt(ss: seq<State>, es: seq<Event>, m: int, p: nat)
    requires |ss| == |es| + 1
  {
    0 <= m < |es| && p in ss[m].streams && ss[m].streams[p].state == STARTING
    && es[m] == ControlStatus(ss[m].streams[p].sessionType, SUCCESS)
  }

  /** How a stream comes to be inside Start. */
  lemma MovesIntoStart(x: Stream, e: Event, p: nat, ready: bool, y: Stream)
    requires Moves(x, e, p, ready, y) && Starting(y.call)
    ensures Starting(x.call) || (StartsHere(x, e, p) && y.call.StartEntering? && y.state == STANDBY)
    ensures y.call.StartWaiting? ==> x.call.StartWaiting? || (e == Do(p, StartIssue(true)) && ready)
    ensures y.state == STARTED ==>
      x.state == STARTED || (x.state == STARTING && e == ControlStatus(x.sessionType, SUCCESS))
  {
  }

  /** While a stream is inside Start, its state is STARTED only after a SUCCESS, and it waits only
      after a request to a ready session. */
  lemma {:induction false} StartHistory(ss: seq<State>, es: seq<Event>, n: nat, p: nat)
    returns (i: nat, k: int, m: int)
    requires Traced(ss, es) && n < |ss| && InStart(ss[n], p)
    ensures i < n && BeginsStart(ss, es, i, p)
    ensures forall j :: i < j <= n ==> InStart(ss[j], p)
    ensures ss[n].streams[p].state == STARTED ==> i < m < n && SuccessAt(ss, es, m, p)
    ensures ss[n].streams[p].call.StartWaiting? ==> i < k < n && IssuedAt(ss, es, k, p)
  {
    assert FollowsAt(ss, es, n - 1, p);
    var s := ss[n - 1];
    MovesIntoStart(s.streams[p], es[n - 1], p, IsReady(s, s.streams[p].sessionType), ss[n].streams[p]);
    i, k, m := n - 1, n - 1, n - 1;
    if InStart(s, p) {
      var a, b, c := StartHistory(ss, es, n - 1, p);
      i := a;
      k := if s.streams[p].call.StartWaiting? then b else n - 1;
      m := if s.streams[p].state == STARTED then c else n - 1;
    }
  }

  /** Start returns true only if, during that very call, the session was ready when the request
      was made and a SUCCESS arrived. */
  lemma StartTrueMeans(ss: seq<State>, es: seq<Event>, n: nat, p: nat)
    returns (i: nat, k: nat, m: nat)
    requires Run(ss, es) && n < |es| && es[n] == Do(p, StartWake(true))
    ensures i < k < n && i < m < n
    ensures BeginsStart(ss, es, i, p) && SuccessAt(ss, es, m, p) && IssuedAt(ss, es, k, p)
    ensures forall j :: i < j <= n ==> InStart(ss[j], p)
  {
    RunIsTraced(ss, es);
    assert Joined(ss, es, n);
    var a, b, c := StartHistory(ss, es, n, p);
    i, k, m := a, b, c;
  }

  // ------------------------------------------------------------ what a successful Suspend means

  /** Stream `p` is inside Suspend. */
  predicate InSuspend(s: State, p: nat) {
    p in s.streams && Suspending(s.streams[p].call)
  }

  predicate Suspending(c: Call) {
    c.SuspendEntering? || c.SuspendSetting? || Asked(c)
  }

  /** SUSPENDING has been set. */
  predicate Asked(c: Call) { c.SuspendPending? || c.SuspendWaiting? }

  ghost predicate BeginsSuspend(ss: seq<State>, es: seq<Event>, i: nat, p: nat)
    requires |ss| == |es| + 1
  {
    i < |es| && p in ss[i].streams && SuspendsHere(ss[i].streams[p], es[i], p)
  }

  ghost predicate SuspendsHere(x: Stream, e: Event, p: nat) {
    e.Do? && e.p == p && x.state == STARTED && x.call.Idle?
    && (e.action.Pause?
        || (e.action.SetParameters? && e.action.suspended == Some(true) && IsA2dp(x.sessionType)))
  }

  ghost predicate SuspendIssuedAt(ss: seq<State>, es: seq<Event>, k: int, p: nat)
    requires |ss| == |es| + 1
  {
    0 <= k < |es| && es[k] == Do(p, SuspendIssue(true))
    && p in ss[k].streams && IsReady(ss[k], ss[k].streams[p].sessionType)
  }

  /** At `m` a SUCCESS reached stream `p` while it was SUSPENDING. */
  ghost predicate SuspendedAt(ss: seq<State>, es: seq<Event>, m: int, p: nat)
    requires |ss| == |es| + 1
  {
    0 <= m < |es| && p in ss[m].streams && ss[m].streams[p].state == SUSPENDING
    && es[m] == ControlStatus(ss[m].streams[p].sessionType, SUCCESS)
  }

  lemma MovesIntoSuspend(x: Stream, e: Event, p: nat, ready: bool, y: Stream)
    requires Moves(x, e, p, ready, y) && Suspending(y.call)
    ensures Suspending(x.call) || (SuspendsHere(x, e, p) && y.call == SuspendEntering(e.action.SetParameters?))
    ensures Suspending(x.call) ==> y.call.param == x.call.param
    ensures Asked(y.call) && !Asked(x.call) ==> y.state == SUSPENDING
    ensures y.call.SuspendWaiting? ==> x.call.SuspendWaiting? || (e == Do(p, SuspendIssue(true)) && ready)
    ensures Asked(x.call) && y.state == STANDBY ==>
      x.state == STANDBY || x.state == STARTED || x.state == STARTING
      || (x.state == SUSPENDING && e == ControlStatus(x.sessionType, SUCCESS))
    ensures Asked(x.call) && (y.state == STARTED || y.state == STARTING) ==>
      x.state == STARTED || x.state == STARTING
  {
  }

  lemma {:induction false} SuspendHistory(ss: seq<State>, es: seq<Event>, n: nat, p: nat)
    returns (i: nat, k: int, m: int)
    requires Traced(ss, es) && n < |ss| && InSuspend(ss[n], p)
    ensures i < n && BeginsSuspend(ss, es, i, p)
    ensures forall j :: i < j <= n ==> InSuspend(ss[j], p)
    ensures ss[n].streams[p].call.param <==> es[i].action.SetParameters?
    ensures var x := ss[n].streams[p]; Asked(x.call) ==> x.state != STARTED && x.state != STARTING
    ensures var x := ss[n].streams[p];
      Asked(x.call) && x.state == STANDBY ==> i < m < n && SuspendedAt(ss, es, m, p)
    ensures ss[n].streams[p].call.SuspendWaiting? ==> i < k < n && SuspendIssuedAt(ss, es, k, p)
  {
    assert FollowsAt(ss, es, n - 1, p);
    var s := ss[n - 1];
    MovesIntoSuspend(s.streams[p], es[n - 1], p, IsReady(s, s.streams[p].sessionType), ss[n].streams[p]);
    i, k, m := n - 1, n - 1, n - 1;
    if InSuspend(s, p) {
      var a, b, c := SuspendHistory(ss, es, n - 1, p);
      i := a;
      k := if s.streams[p].call.SuspendWaiting? then b else n - 1;
      m := if Asked(s.streams[p].call) && s.streams[p].state == STANDBY then c else n - 1;
    }
  }

  /** Suspend returns true only if, during that very call, the session was ready when the request
      was made and a SUCCESS arrived. */
  lemma SuspendTrueMeans(ss: seq<State>, es: seq<Event>, n: nat, p: nat)
    returns (i: nat, k: nat, m: nat)
    requires Run(ss, es) && n < |es| && es[n] == Do(p, SuspendWake(true))
    ensures i < k < n && i < m < n
    ensures BeginsSuspend(ss, es, i, p) && SuspendedAt(ss, es, m, p) && SuspendIssuedAt(ss, es, k, p)
    ensures forall j :: i < j <= n ==> InSuspend(ss[j], p)
  {
    RunIsTraced(ss, es);
    assert Joined(ss, es, n);
    var a, b, c := SuspendHistory(ss, es, n, p);
    i, k, m := a, b, c;
  }

  // ------------------------------------------------------------ A2dpSuspended

  predicate SetsSuspended(e: Event, p: nat, value: bool) {
    e.Do? && e.p == p && e.action.SetParameters? && e.action.suspended == Some(value)
  }

  /** The set-parameters call is still suspending the port, or the port is disabled and at most a
      write is being refused. */
  predicate Muted(x: Stream) {
    (Suspending(x.call) && x.call.param)
    || (x.state == DISABLED && (x.call.Idle? || x.call.WriteResuming? || x.call.WriteRefused?))
  }

  lemma MovesToMuted(x: Stream, e: Event, p: nat, ready: bool, y: Stream)
    requires Moves(x, e, p, ready, y) && SetsSuspended(e, p, true) && IsA2dp(x.sessionType)
    ensures Muted(y)
  {
  }

  /** Until the port is told otherwise, it stays muted, and a write only drops its data. */
  lemma MovesMuted(x: Stream, e: Event, p: nat, ready: bool, y: Stream)
    requires Moves(x, e, p, ready, y) && Muted(x) && !SetsSuspended(e, p, false)
    ensures Muted(y)
    ensures e.Do? && e.p == p ==> !e.action.WriteData?
    ensures e.Do? && e.p == p && e.action.Write? ==> y.call == WriteResuming(e.action.bytes)
    ensures e.Do? && e.p == p && e.action.WriteResume? ==>
      x.call.WriteResuming? && y.call == WriteRefused(x.call.bytes)
    ensures e.Do? && e.p == p && e.action.WriteReturn? ==>
      x.call.WriteRefused? && e.action.n == x.call.bytes
  {
  }

  /** The stream is open at every state from `i` to `j` and no A2dpSuspended value other than true
      arrives in between. */
  ghost predicate StaysSuspended(ss: seq<State>, es: seq<Event>, i: nat, j: nat, p: nat)
    requires |ss| == |es| + 1 && i <= j <= |es|
  {
    (forall k :: i <= k <= j ==> p in ss[k].streams)
    && forall k :: i <= k < j ==> !SetsSuspended(es[k], p, false)
  }

  lemma {:induction false} MutedHistory(ss: seq<State>, es: seq<Event>, i: nat, j: nat, p: nat)
    requires Traced(ss, es) && i < j <= |es| && StaysSuspended(ss, es, i, j, p)
    requires SetsSuspended(es[i], p, true) && IsA2dp(ss[i].streams[p].sessionType)
    ensures Muted(ss[j].streams[p])
  {
    assert FollowsAt(ss, es, j - 1, p);
    var s := ss[j - 1];
    var ready := IsReady(s, s.streams[p].sessionType);
    if j == i + 1 {
      MovesToMuted(s.streams[p], es[i], p, ready, ss[j].streams[p]);
    } else {
      MutedHistory(ss, es, i, j - 1, p);
      MovesMuted(s.streams[p], es[j - 1], p, ready, ss[j].streams[p]);
    }
  }

  /** After A2dpSuspended=true on an A2DP stream, and until another value: once the call has
      returned the port is DISABLED; no write reaches WriteData; every write that enters is
      refused, and every write that returns reports its full byte count. */
  lemma SuspendedDropsWrites(ss: seq<State>, es: seq<Event>, i: nat, j: nat, p: nat)
    requires Run(ss, es) && i < j < |es| && StaysSuspended(ss, es, i, j + 1, p)
    requires SetsSuspended(es[i], p, true) && IsA2dp(ss[i].streams[p].sessionType)
    ensures ss[j].streams[p].call == Idle ==> ss[j].streams[p].state == DISABLED
    ensures es[j].Do? && es[j].p == p ==> !es[j].action.WriteData?
    ensures es[j].Do? && es[j].p == p && es[j].action.Write? ==>
      ss[j + 1].streams[p].call == WriteResuming(es[j].action.bytes)
    ensures es[j].Do? && es[j].p == p && es[j].action.WriteResume? ==>
      ss[j].streams[p].call.WriteResuming?
      && ss[j + 1].streams[p].call == WriteRefused(ss[j].streams[p].call.bytes)
    ensures es[j].Do? && es[j].p == p && es[j].action.WriteReturn? ==>
      ss[j].streams[p].call == WriteRefused(es[j].action.n)
  {
    RunIsTraced(ss, es);
    MutedHistory(ss, es, i, j, p);
    assert FollowsAt(ss, es, j, p);
    var s := ss[j];
    MovesMuted(s.streams[p], es[j], p, IsReady(s, s.streams[p].sessionType), ss[j + 1].streams[p]);
  }

  // ------------------------------------------------------------ a session that ends

  /** Ending a ready session disables every stream of it. */
  lemma SessionEndDisables(ss: seq<State>, es: seq<Event>, i: nat, t: SessionType, p: nat)
    requires Run(ss, es) && i < |es| && es[i] == SessionEnded(t) && IsReady(ss[i], t)
    requires p in ss[i].streams && ss[i].streams[p].sessionType == t
    ensures p in ss[i + 1].streams && ss[i + 1].streams[p] == ss[i].streams[p].(state := DISABLED)
    ensures !IsReady(ss[i + 1], t)
  {
    RunKeepsInv(ss, es, i);
    assert Joined(ss, es, i);
    NotifyMoves(ss[i], t, SessionChanged, p);
  }

  /** A stream that waits inside Start can no longer be started. */
  predicate Quiet(s: State, t: SessionType, p: nat) {
    p in s.streams && s.streams[p].sessionType == t && s.streams[p].call.StartWaiting? ==>
      s.streams[p].state == DISABLED || s.streams[p].state == STANDBY
  }

  lemma MovesQuiet(x: Stream, e: Event, p: nat, ready: bool, y: Stream)
    requires Moves(x, e, p, ready, y)
    ensures y.sessionType == x.sessionType
    ensures y.call.StartWaiting? && !x.call.StartWaiting? ==> ready
    ensures x.call.StartWaiting? && y.call.StartWaiting? && (x.state == DISABLED || x.state == STANDBY) ==>
      y.state == DISABLED || y.state == STANDBY
  {
  }

  lemma {:induction false} QuietHistory(ss: seq<State>, es: seq<Event>, i: nat, j: nat, t: SessionType, p: nat)
    requires Traced(ss, es) && i <= j < |ss| && Quiet(ss[i], t, p)
    requires forall k :: i <= k < j ==> !IsReady(ss[k], t)
    ensures Quiet(ss[j], t, p)
  {
    if i < j {
      QuietHistory(ss, es, i, j - 1, t, p);
      assert FollowsAt(ss, es, j - 1, p);
      var s := ss[j - 1];
      if p in s.streams && p in ss[j].streams {
        MovesQuiet(s.streams[p], es[j - 1], p, IsReady(s, s.streams[p].sessionType), ss[j].streams[p]);
      }
    }
  }

  /** After a ready session ends, no Start on a stream of it returns true until the session is
      ready again. */
  lemma NoStartAfterSessionEnd(ss: seq<State>, es: seq<Event>, i: nat, j: nat, t: SessionType, p: nat)
    requires Run(ss, es) && i < j < |es| && es[i] == SessionEnded(t) && IsReady(ss[i], t)
    requires forall k :: i < k < j ==> !IsReady(ss[k], t)
    requires p in ss[j].streams && ss[j].streams[p].sessionType == t
    ensures es[j] != Do(p, StartWake(true))
  {
    RunIsTraced(ss, es);
    assert FollowsAt(ss, es, i, p);
    if p in ss[i].streams && ss[i].streams[p].sessionType == t {
      SessionEndDisables(ss, es, i, t, p);
    }
    QuietHistory(ss, es, i + 1, j, t, p);
    assert Joined(ss, es, j);
  }

  lemma ReadinessLostBy(s: State, e: Event, t: SessionType)
    requires Enabled(s, e) && IsReady(s, t) && !IsReady(Step(s, e), t)
    ensures e == SessionEnded(t) || (e.SessionStarted? && e.t == t && e.iface && e.q != ValidQueue)
    ensures e.SessionStarted? && e.q == NoQueue ==> StartReported(t, e.iface, e.q, e.tag)
    ensures e.SessionStarted? && e.q == InvalidQueue ==> Step(s, e).streams == s.streams
  {
  }

  /** How a session stops being ready: it ends, or it is started again without a usable queue. Its
      streams are disabled in every case but one: a restart whose queue is invalid tells nobody. */
  lemma ReadinessLost(s: State, e: Event, t: SessionType)
    requires Inv(s) && Enabled(s, e) && IsReady(s, t) && !IsReady(Step(s, e), t)
    ensures e == SessionEnded(t) || (e.SessionStarted? && e.t == t && e.iface && e.q != ValidQueue)
    ensures if e.SessionStarted? && e.q == InvalidQueue then Step(s, e).streams == s.streams
      else forall p :: p in s.streams && s.streams[p].sessionType == t ==>
             p in Step(s, e).streams && Step(s, e).streams[p].state == DISABLED
  {
    ReadinessLostBy(s, e, t);
    forall p | p in s.streams && s.streams[p].sessionType == t
      ensures Notify(s, t, SessionChanged)[p].state == DISABLED
    {
      NotifyMoves(s, t, SessionChanged, p);
    }
  }

  // ------------------------------------------------------------ a Start that returned false

  lemma RunExtends(ss: seq<State>, es: seq<Event>, e: Event)
    requires Run(ss, es) && Enabled(ss[|es|], e)
    ensures Run(ss + [Step(ss[|es|], e)], es + [e])
  {
    var tt, ds := ss + [Step(ss[|es|], e)], es + [e];
    forall i | 0 <= i < |ds|
      ensures Joined(tt, ds, i)
    {
      assert i < |es| ==> Joined(ss, es, i);
    }
  }

  /** Event `n` is the return of a Start with false: the port is not STANDBY any more, the request
      is refused, or the wait ended too early. */
  predicate StartFails(e: Event, p: nat) {
    e == Do(p, StartRead(false)) || e == Do(p, StartIssue(false)) || e == Do(p, StartWake(false))
  }

  /** The event begins another call on stream `p`. */
  predicate NewCall(e: Event, p: nat) {
    e.Do? && e.p == p
    && (e.action.Resume? || e.action.Pause? || e.action.SetParameters? || e.action.Write?)
  }

  /** After event `n` and up to state `j` the stream stays open and no other call begins. */
  ghost predicate LeftAlone(ss: seq<State>, es: seq<Event>, n: nat, j: nat, p: nat)
    requires |ss| == |es| + 1 && n < j <= |es|
  {
    (forall k :: n <= k <= j ==> p in ss[k].streams)
    && forall k :: n < k < j ==> !NewCall(es[k], p)
  }

  /** The event sends a notice to the ports of session `t`. */
  predicate Notifies(s: State, e: Event, t: SessionType) {
    match e
    case ControlStatus(u, _) => u == t
    case SessionStarted(u, iface, q, tag) => u == t && StartReported(t, iface, q, tag)
    case SessionEnded(u) => u == t && IsReady(s, t)
    case _ => false
  }

  function NoticeOf(e: Event): Notice {
    if e.ControlStatus? then ControlResult(e.status) else SessionChanged
  }

  /** What the events of others do to a stream. */
  lemma OthersOnlyNotify(s: State, e: Event, p: nat)
    requires Inv(s) && Enabled(s, e) && p in s.streams && p in Step(s, e).streams
    requires !(e.Do? && e.p == p)
    ensures var x := s.streams[p];
      Step(s, e).streams[p] ==
        if Notifies(s, e, x.sessionType) then x.(state := Handle(x.state, NoticeOf(e))) else x
  {
    match e
    case SessionStarted(t, _, _, _) => NotifyMoves(s, t, SessionChanged, p);
    case SessionEnded(t) => NotifyMoves(s, t, SessionChanged, p);
    case ControlStatus(t, status) => NotifyMoves(s, t, ControlResult(status), p);
    case _ =>
  }

  ghost predicate WasStarted(ss: seq<State>, n: nat, j: nat, p: nat)
    requires n < j < |ss|
  {
    exists k :: n < k <= j && p in ss[k].streams && ss[k].streams[p].state == STARTED
  }

  ghost predicate Unnotified(ss: seq<State>, es: seq<Event>, n: nat, j: nat, t: SessionType)
    requires |ss| == |es| + 1 && j <= |es|
  {
    forall k :: n < k < j ==> !Notifies(ss[k], es[k], t)
  }

  /** The first notice of session `t` after event `n` is event `m`, a SUCCESS. */
  ghost predicate FirstIsSuccess(ss: seq<State>, es: seq<Event>, n: nat, m: nat, t: SessionType)
    requires |ss| == |es| + 1 && m < |es|
  {
    es[m] == ControlStatus(t, SUCCESS) && Unnotified(ss, es, n, m, t)
  }

  /** What a failed Start leaves behind makes the port STARTED without another call. */
  ghost predicate StartsLate(ss: seq<State>, es: seq<Event>, n: nat, j: nat, p: nat)
    requires |ss| == |es| + 1 && n < j <= |es| && p in ss[n].streams
  {
    var x := ss[n].streams[p];
    x.state == STARTED
    || (x.state == STARTING && exists m :: n < m < j && FirstIsSuccess(ss, es, n, m, x.sessionType))
  }

  /** How a stream stands while it is left alone after a failed Start. */
  ghost predicate Settled(ss: seq<State>, es: seq<Event>, n: nat, j: nat, p: nat)
    requires |ss| == |es| + 1 && n < j <= |es| && p in ss[n].streams && p in ss[j].streams
  {
    var x, y := ss[n].streams[p], ss[j].streams[p];
    AtRest(y) && y.sessionType == x.sessionType
    && (Unnotified(ss, es, n, j, x.sessionType) ==> y.state == x.state)
    && (y.state == STARTING ==> x.state == STARTING && Unnotified(ss, es, n, j, x.sessionType))
  }

  predicate AtRest(x: Stream) { x.call.Idle? || x.call.WriteRefused? }

  /** A stream without a running call changes only by notices. */
  lemma RestingStep(s: State, e: Event, p: nat)
    requires Inv(s) && Enabled(s, e) && p in s.streams && p in Step(s, e).streams
    requires AtRest(s.streams[p]) && !NewCall(e, p)
    ensures var x, y := s.streams[p], Step(s, e).streams[p];
      AtRest(y) && y.sessionType == x.sessionType
      && y.state == if Notifies(s, e, x.sessionType) then Handle(x.state, NoticeOf(e)) else x.state
  {
    if !(e.Do? && e.p == p) {
      OthersOnlyNotify(s, e, p);
    }
  }

  /** Event `i` finds stream `p` at rest and leaves it so, changed by notices alone. */
  ghost predicate RestsAt(ss: seq<State>, es: seq<Event>, i: nat, p: nat)
    requires |ss| == |es| + 1 && i < |es| && p in ss[i].streams && p in ss[i + 1].streams
  {
    var x, y := ss[i].streams[p], ss[i + 1].streams[p];
    AtRest(x) ==>
      AtRest(y) && y.sessionType == x.sessionType
      && y.state == if Notifies(ss[i], es[i], x.sessionType) then Handle(x.state, NoticeOf(es[i])) else x.state
  }

  lemma LeftAloneRests(ss: seq<State>, es: seq<Event>, n: nat, i: nat, j: nat, p: nat)
    requires Run(ss, es) && n < i < j <= |es| && LeftAlone(ss, es, n, j, p)
    ensures RestsAt(ss, es, i, p)
  {
    RunKeepsInv(ss, es, i);
    assert Joined(ss, es, i);
    if AtRest(ss[i].streams[p]) {
      RestingStep(ss[i], es[i], p);
    }
  }

  lemma FailsAtRest(ss: seq<State>, es: seq<Event>, n: nat, p: nat)
    requires Run(ss, es) && n < |es| && StartFails(es[n], p)
    requires p in ss[n].streams && p in ss[n + 1].streams
    ensures var x, y := ss[n].streams[p], ss[n + 1].streams[p];
      AtRest(y) && y.sessionType == x.sessionType && y.state == x.state
  {
    assert Joined(ss, es, n);
  }

  lemma UnnotifiedNext(ss: seq<State>, es: seq<Event>, n: nat, i: nat, t: SessionType)
    requires |ss| == |es| + 1 && n < i < |es|
    ensures Unnotified(ss, es, n, i + 1, t) <==>
      Unnotified(ss, es, n, i, t) && !Notifies(ss[i], es[i], t)
  {
  }

  lemma {:induction false} SettledHistory(ss: seq<State>, es: seq<Event>, n: nat, j: nat, p: nat)
    requires |ss| == |es| + 1 && n < j <= |es| && LeftAlone(ss, es, n, j, p)
    requires Settled(ss, es, n, n + 1, p) && forall i :: n < i < j ==> RestsAt(ss, es, i, p)
    ensures Settled(ss, es, n, j, p)
  {
    if j > n + 1 {
      SettledHistory(ss, es, n, j - 1, p);
      UnnotifiedNext(ss, es, n, j - 1, ss[n].streams[p].sessionType);
      assert RestsAt(ss, es, j - 1, p);
    }
  }

  lemma WasStartedNext(ss: seq<State>, n: nat, i: nat, p: nat)
    requires n < i < i + 1 < |ss| && p in ss[i + 1].streams
    ensures WasStarted(ss, n, i + 1, p) <==>
      WasStarted(ss, n, i, p) || ss[i + 1].streams[p].state == STARTED
  {
  }

  lemma StartsLateNext(ss: seq<State>, es: seq<Event>, n: nat, i: nat, p: nat)
    requires |ss| == |es| + 1 && n < i < |es| && p in ss[n].streams
    ensures var x := ss[n].streams[p];
      StartsLate(ss, es, n, i + 1, p) <==>
        StartsLate(ss, es, n, i, p)
        || (x.state == STARTING && FirstIsSuccess(ss, es, n, i, x.sessionType))
  {
  }

  lemma {:induction false} StartedHistory(ss: seq<State>, es: seq<Event>, n: nat, j: nat, p: nat)
    requires |ss| == |es| + 1 && n < j <= |es| && LeftAlone(ss, es, n, j, p)
    requires Settled(ss, es, n, n + 1, p) && forall i :: n < i < j ==> RestsAt(ss, es, i, p)
    ensures WasStarted(ss, n, j, p) <==> StartsLate(ss, es, n, j, p)
  {
    if j > n + 1 {
      var i := j - 1;
      StartedHistory(ss, es, n, i, p);
      SettledHistory(ss, es, n, i, p);
      assert RestsAt(ss, es, i, p);
      WasStartedNext(ss, n, i, p);
      StartsLateNext(ss, es, n, i, p);
      assert ss[i].streams[p].state == STARTED ==> WasStarted(ss, n, i, p);
    }
  }

  /** After a Start that returned false, refused or timed out, alone or inside a write: until the
      next call on the stream its port is STARTED at some point exactly when it was STARTED as
      Start returned, or was left STARTING and the first notice of its session is a SUCCESS. */
  lemma FailedStartCanStillStart(ss: seq<State>, es: seq<Event>, n: nat, j: nat, p: nat)
    requires Run(ss, es) && n < j <= |es| && StartFails(es[n], p) && LeftAlone(ss, es, n, j, p)
    ensures WasStarted(ss, n, j, p) <==> StartsLate(ss, es, n, j, p)
  {
    FailsAtRest(ss, es, n, p);
    forall i: nat | n < i < j
      ensures RestsAt(ss, es, i, p)
    {
      LeftAloneRests(ss, es, n, i, j, p);
    }
    StartedHistory(ss, es, n, j, p);
  }
}
