/**
 Concrete runs of StreamProtocol that show where the code departs from what one might expect:
 a Start that returned false and starts all the same, a port set STARTING by a session that is
 gone, frames counted that were not written. At the end the objects of AudioSystem are driven to a
 started stream.
 */
module ExampleRuns {
  import opened AudioSession
  import opened StreamProtocol
  import opened FrameCounts
  import Objects = AudioSystem

  const A2DP := A2DP_SOFTWARE_ENCODING_DATAPATH

  /** Stream 0 on the first cookie of the A2DP session. */
  function Stream0(state: StreamState, frames: nat, call: Call): Stream {
    Stream(0x100, A2DP, state, 4, frames, frames, call)
  }

  /** The state with stream `x` alone, open on a ready A2DP session. */
  function Only(x: Stream): State {
    State(map[A2DP := Link(true, true, true)], map[A2DP := map[0x100 := 0]], map[0 := x])
  }

  const READY := State(map[A2DP := Link(true, true, true)], map[], map[])

  const STARTS := SessionStarted(A2DP, true, ValidQueue, pcmConfig)

  lemma SessionSteps()
    ensures Enabled(INITIAL, STARTS) && Step(INITIAL, STARTS) == READY
  {
    assert LinkStarted(A2DP, NO_LINK, true, ValidQueue, pcmConfig) == Link(true, true, true);
  }

  lemma OpenSteps()
    ensures Enabled(READY, Open(0, A2DP, 4)) && Step(READY, Open(0, A2DP, 4)) == Only(Stream0(STANDBY, 0, Idle))
  {
    assert IsReady(READY, A2DP) && ObserversOf(READY, A2DP) == map[] && CookieInit(A2DP) == 0x100;
    assert FirstFree(map[], 0x100, COOKIE_SIZE) == 0x100;
  }

  /** One action of the stream. */
  lemma ActionSteps(x: Stream, a: Action)
    requires x.sessionType == A2DP && StreamEnabled(x, a, true)
    ensures Enabled(Only(x), Do(0, a)) && Step(Only(x), Do(0, a)) == Only(StreamStep(x, a))
  {
    assert Step(Only(x), Do(0, a)).streams == map[0 := StreamStep(x, a)];
  }

  /** The stack reports a result. */
  lemma ResultSteps(x: Stream, status: Status)
    requires x.sessionType == A2DP && x.cookie == 0x100
    ensures Enabled(Only(x), ControlStatus(A2DP, status))
    ensures Step(Only(x), ControlStatus(A2DP, status)) == Only(x.(state := Handle(x.state, ControlResult(status))))
  {
    var y := x.(state := Handle(x.state, ControlResult(status)));
    assert Step(Only(x), ControlStatus(A2DP, status)).streams == map[0 := y];
  }

  lemma Opens() returns (ss: seq<State>, es: seq<Event>)
    ensures Run(ss, es) && |es| == 2 && ss[2] == Only(Stream0(STANDBY, 0, Idle))
  {
    SessionSteps();
    RunExtends([INITIAL], [], STARTS);
    ss, es := [INITIAL] + [READY], [] + [STARTS];
    OpenSteps();
    RunExtends(ss, es, Open(0, A2DP, 4));
    ss, es := ss + [Only(Stream0(STANDBY, 0, Idle))], es + [Open(0, A2DP, 4)];
  }

  lemma Acts(ss: seq<State>, es: seq<Event>, x: Stream, a: Action) returns (ss': seq<State>, es': seq<Event>)
    requires Run(ss, es) && ss[|es|] == Only(x) && x.sessionType == A2DP && StreamEnabled(x, a, true)
    ensures Run(ss', es') && ss' == ss + [Only(StreamStep(x, a))] && es' == es + [Do(0, a)]
  {
    ActionSteps(x, a);
    RunExtends(ss, es, Do(0, a));
    ss', es' := ss + [Only(StreamStep(x, a))], es + [Do(0, a)];
  }

  lemma Hears(ss: seq<State>, es: seq<Event>, x: Stream, status: Status) returns (ss': seq<State>, es': seq<Event>)
    requires Run(ss, es) && ss[|es|] == Only(x) && x.sessionType == A2DP && x.cookie == 0x100
    ensures Run(ss', es') && es' == es + [ControlStatus(A2DP, status)]
    ensures ss' == ss + [Only(x.(state := Handle(x.state, ControlResult(status))))]
  {
    ResultSteps(x, status);
    RunExtends(ss, es, ControlStatus(A2DP, status));
    ss', es' := ss + [Only(x.(state := Handle(x.state, ControlResult(status))))], es + [ControlStatus(A2DP, status)];
  }

  /** Start has looked at the port. */
  lemma Looked() returns (ss: seq<State>, es: seq<Event>)
    ensures Run(ss, es) && |es| == 4 && ss[4] == Only(Stream0(STANDBY, 0, StartSetting(FromResume)))
    ensures es[3] == Do(0, StartRead(true))
  {
    ss, es := Opens();
    ss, es := Acts(ss, es, Stream0(STANDBY, 0, Idle), Resume);
    ss, es := Acts(ss, es, Stream0(STANDBY, 0, StartEntering(FromResume)), StartRead(true));
  }

  /** The session ends after the look: Start sets the DISABLED port STARTING, on a session that is
      not there any more. */
  lemma EndedSessionStarting() returns (ss: seq<State>, es: seq<Event>)
    ensures Run(ss, es) && |es| == 6
    ensures es[4] == SessionEnded(A2DP) && es[5] == Do(0, StartSet)
    ensures 0 in ss[5].streams && ss[5].streams[0].state == DISABLED
    ensures 0 in ss[6].streams && ss[6].streams[0].state == STARTING && !IsReady(ss[6], A2DP)
  {
    ss, es := Looked();
    RunKeepsInv(ss, es, 4);
    NotifyMoves(ss[4], A2DP, SessionChanged, 0);
    RunExtends(ss, es, SessionEnded(A2DP));
    ss, es := ss + [Step(ss[4], SessionEnded(A2DP))], es + [SessionEnded(A2DP)];
    RunExtends(ss, es, Do(0, StartSet));
    ss, es := ss + [Step(ss[5], Do(0, StartSet))], es + [Do(0, StartSet)];
  }

  /** Stream 0 asks for a start. */
  lemma Asks() returns (ss: seq<State>, es: seq<Event>)
    ensures Run(ss, es) && |es| == 5 && ss[5] == Only(Stream0(STARTING, 0, StartPending(FromResume)))
  {
    ss, es := Looked();
    ss, es := Acts(ss, es, Stream0(STANDBY, 0, StartSetting(FromResume)), StartSet);
  }

  lemma Waits() returns (ss: seq<State>, es: seq<Event>)
    ensures Run(ss, es) && |es| == 6 && ss[6] == Only(Stream0(STARTING, 0, StartWaiting(FromResume)))
  {
    ss, es := Asks();
    ss, es := Acts(ss, es, Stream0(STARTING, 0, StartPending(FromResume)), StartIssue(true));
  }

  /** A refused Start whose port a later SUCCESS makes STARTED. */
  lemma RefusedStartStarts() returns (ss: seq<State>, es: seq<Event>)
    ensures Run(ss, es) && |es| == 7
    ensures es[5] == Do(0, StartIssue(false)) && LeftAlone(ss, es, 5, 7, 0)
    ensures ss[7] == Only(Stream0(STARTED, 0, Idle))
  {
    ss, es := Asks();
    ss, es := Acts(ss, es, Stream0(STARTING, 0, StartPending(FromResume)), StartIssue(false));
    ss, es := Hears(ss, es, Stream0(STARTING, 0, Idle), SUCCESS);
  }

  /** The same after a wait that timed out. */
  lemma TimedOutStartStarts() returns (ss: seq<State>, es: seq<Event>)
    ensures Run(ss, es) && |es| == 8
    ensures es[6] == Do(0, StartWake(false)) && LeftAlone(ss, es, 6, 8, 0)
    ensures ss[8] == Only(Stream0(STARTED, 0, Idle))
  {
    ss, es := Waits();
    ss, es := Acts(ss, es, Stream0(STARTING, 0, StartWaiting(FromResume)), StartWake(false));
    ss, es := Hears(ss, es, Stream0(STARTING, 0, Idle), SUCCESS);
  }

  lemma Starts() returns (ss: seq<State>, es: seq<Event>)
    ensures Run(ss, es) && |es| == 8 && ss[8] == Only(Stream0(STARTED, 0, Idle))
  {
    ss, es := Waits();
    ss, es := Hears(ss, es, Stream0(STARTING, 0, StartWaiting(FromResume)), SUCCESS);
    ss, es := Acts(ss, es, Stream0(STARTED, 0, StartWaiting(FromResume)), StartWake(true));
  }

  /** A started stream stays STARTED although its session, restarted with an invalid queue, is not
      ready any more. */
  lemma RestartTellsNobody() returns (ss: seq<State>, es: seq<Event>)
    ensures Run(ss, es) && |es| == 9 && es[8] == SessionStarted(A2DP, true, InvalidQueue, pcmConfig)
    ensures IsReady(ss[8], A2DP) && !IsReady(ss[9], A2DP)
    ensures ss[9].streams == map[0 := Stream0(STARTED, 0, Idle)]
  {
    ss, es := Starts();
    var e := SessionStarted(A2DP, true, InvalidQueue, pcmConfig);
    RunExtends(ss, es, e);
    ss, es := ss + [Step(ss[|es|], e)], es + [e];
  }

  /** One byte of a four-byte frame is written; one frame is counted. */
  lemma PartialWriteCounts() returns (ss: seq<State>, es: seq<Event>)
    ensures Run(ss, es) && |es| == 10
    ensures ss[9] == Only(Stream0(STARTED, 0, WriteAdmitted(4))) && es[9] == Do(0, WriteData(1))
    ensures ss[10] == Only(Stream0(STARTED, 1, Idle))
  {
    ss, es := Starts();
    ss, es := Acts(ss, es, Stream0(STARTED, 0, Idle), Write(4));
    ss, es := Acts(ss, es, Stream0(STARTED, 0, WriteAdmitted(4)), WriteData(1));
  }

  /** A run in which the presented frames are not those written since the last reset. */
  lemma PresentedIsNotDelivered() returns (ss: seq<State>, es: seq<Event>, r: nat)
    ensures Run(ss, es) && |es| == 10 && 0 in ss[10].streams
    ensures LastReset(ss, es, r, 10, 0, Presented)
    ensures ss[10].streams[0].presented != SumDelivered(ss, es, r + 1, 10, 0)
  {
    ss, es := PartialWriteCounts();
    r := CountsRequests(ss, es, 10, 0, Presented);
    assert !Resets(ss[9], es[9], ss[10], 0, Presented);
    assert Delivered(ss[9], es[9], 0) == 0 && Requested(ss[9], es[9], 0) == 1;
    assert !CountedInFull(ss, es, r + 1, 10, 0);
  }

  // ------------------------------------------------------------ the objects

  method BeginSession() returns (sys: Objects.AudioSystem, ghost h: Objects.History)
    ensures fresh(sys) && fresh(sys.sessions.Values) && sys.streams == map[]
    ensures sys.Holds(Objects.Now(h)) && Objects.Now(h) == READY
  {
    sys := new Objects.AudioSystem();
    h := Objects.Record([INITIAL], []);
    SessionSteps();
    assert Objects.Known(A2DP);
    sys.ListenersAreOurs(h, A2DP);
    assert sys.Ports() == {} && sys.sessions[A2DP] in sys.sessions.Values && STARTS.t == A2DP;
    ghost var g := h;
    h := sys.Message(STARTS, h);
    Objects.GrownByStep(g, STARTS, h);
  }

  method OpenFirst() returns (sys: Objects.AudioSystem, ghost h: Objects.History)
    ensures fresh(sys) && fresh(sys.sessions.Values)
    ensures 0 in sys.streams && fresh(sys.streams[0]) && fresh(sys.streams[0].port)
    ensures sys.Holds(Objects.Now(h)) && Objects.Now(h) == Only(Stream0(STANDBY, 0, Idle))
  {
    sys, h := BeginSession();
    OpenSteps();
    assert Objects.Known(A2DP) && sys.sessions[A2DP] in sys.sessions.Values;
    ghost var g := h;
    var ok;
    ok, h := sys.Open(0, A2DP, 4, h);
    Objects.GrownByStep(g, Open(0, A2DP, 4), h);
  }

  /** The objects hold stream `x` alone. */
  ghost predicate Hold(sys: Objects.AudioSystem, h: Objects.History, x: Stream)
    reads sys, sys.sessions.Values, sys.streams.Values, sys.Ports()
  {
    sys.Holds(Objects.Now(h)) && Objects.Now(h) == Only(x)
  }

  lemma HoldsStream0(sys: Objects.AudioSystem, h: Objects.History, x: Stream)
    requires Hold(sys, h, x)
    ensures 0 in sys.streams && A2DP in sys.sessions && sys.streams[0].Value() == x
    ensures sys.sessions[A2DP].observers.Values <= {sys.streams[0].port}
  {
    assert 0 in Only(x).streams && Objects.Known(A2DP);
    sys.ListenersAreOurs(h, A2DP);
    assert sys.Ports() == {sys.streams[0].port};
  }

  /** Stream 0 makes an action. */
  method Act(sys: Objects.AudioSystem, a: Action, ghost x: Stream, ghost y: Stream, ghost h: Objects.History)
    returns (ghost h': Objects.History)
    requires Hold(sys, h, x) && 0 in sys.streams
    requires x.sessionType == A2DP && StreamEnabled(x, a, true) && y == StreamStep(x, a)
    modifies sys.streams[0], sys.streams[0].port
    ensures Hold(sys, h', y)
  {
    ActionSteps(x, a);
    h' := sys.Perform(0, a, h);
    Objects.GrownByStep(h, Do(0, a), h');
  }

  /** The stack reports a result to the session of stream 0. */
  method Hear(sys: Objects.AudioSystem, status: Status, ghost x: Stream, ghost y: Stream, ghost h: Objects.History)
    returns (ghost h': Objects.History)
    requires Hold(sys, h, x) && 0 in sys.streams && A2DP in sys.sessions
    requires x.sessionType == A2DP && x.cookie == 0x100 && y == x.(state := Handle(x.state, ControlResult(status)))
    modifies sys.sessions[A2DP], sys.streams[0].port
    ensures Hold(sys, h', y)
  {
    ResultSteps(x, status);
    HoldsStream0(sys, h, x);
    h' := sys.Message(ControlStatus(A2DP, status), h);
    Objects.GrownByStep(h, ControlStatus(A2DP, status), h');
  }

  /** From the call of out_resume to the wait. */
  method AskForStart(sys: Objects.AudioSystem, ghost h: Objects.History) returns (ghost h': Objects.History)
    requires Hold(sys, h, Stream0(STANDBY, 0, Idle)) && 0 in sys.streams
    modifies sys.streams[0], sys.streams[0].port
    ensures Hold(sys, h', Stream0(STARTING, 0, StartWaiting(FromResume)))
  {
    ghost var entering, setting := StartEntering(FromResume), StartSetting(FromResume);
    h' := Act(sys, Resume, Stream0(STANDBY, 0, Idle), Stream0(STANDBY, 0, entering), h);
    h' := Act(sys, StartRead(true), Stream0(STANDBY, 0, entering), Stream0(STANDBY, 0, setting), h');
    h' := Act(sys, StartSet, Stream0(STANDBY, 0, setting), Stream0(STARTING, 0, StartPending(FromResume)), h');
    h' := Act(sys, StartIssue(true), Stream0(STARTING, 0, StartPending(FromResume)),
              Stream0(STARTING, 0, StartWaiting(FromResume)), h');
  }

  /** The SUCCESS of the stack and the end of the wait. */
  method AwaitStart(sys: Objects.AudioSystem, ghost h: Objects.History) returns (ghost h': Objects.History)
    requires Hold(sys, h, Stream0(STARTING, 0, StartWaiting(FromResume))) && 0 in sys.streams && A2DP in sys.sessions
    modifies sys.sessions[A2DP], sys.streams[0], sys.streams[0].port
    ensures Hold(sys, h', Stream0(STARTED, 0, Idle))
  {
    h' := Hear(sys, SUCCESS, Stream0(STARTING, 0, StartWaiting(FromResume)),
               Stream0(STARTED, 0, StartWaiting(FromResume)), h);
    h' := Act(sys, StartWake(true), Stream0(STARTED, 0, StartWaiting(FromResume)), Stream0(STARTED, 0, Idle), h');
  }

  /** The objects are driven from nothing to a started stream. */
  method StartOneStream() returns (sys: Objects.AudioSystem, ghost h: Objects.History)
    ensures fresh(sys) && Hold(sys, h, Stream0(STARTED, 0, Idle))
    ensures 0 in sys.streams && sys.streams[0].port.state == STARTED
  {
    sys, h := OpenFirst();
    assert Objects.Known(A2DP) && sys.sessions[A2DP] in sys.sessions.Values;
    h := AskForStart(sys, h);
    h := AwaitStart(sys, h);
    HoldsStream0(sys, h, Stream0(STARTED, 0, Idle));
  }
}
