/**
 All sessions and output streams together. Every method is one step of the objects: a call of a
 stream, the answer to a request, the end of a wait, or a message of the stack. A ghost history
 goes with the objects and grows by one event of StreamProtocol with every step; `Valid` says that
 it is a run which ends in what the objects hold. So whatever is proved of every run holds of the
 objects.
 */
module AudioSystem {
  import opened AudioSession
  import opened StreamProtocol
  import opened StreamApis
  import opened FrameCounts

  /** What a notice of session `t` makes of a stream. */
  function Heard(x: Stream, t: SessionType, n: Notice): Stream {
    if x.sessionType == t then x.(state := Handle(x.state, n)) else x
  }

  predicate Enables(s: State, p: nat, a: Action) {
    p in s.streams && StreamEnabled(s.streams[p], a, IsReady(s, s.streams[p].sessionType))
  }

  predicate Known(t: SessionType) { t != UNKNOWN }

  predicate Unused(x: BluetoothAudioSession, t: SessionType)
    reads x
  {
    x.sessionType == t && x.link == NO_LINK && x.observers == map[]
  }

  method MakeSessions(types: set<SessionType>) returns (made: map<SessionType, BluetoothAudioSession>)
    ensures made.Keys == types && fresh(made.Values)
    ensures forall t :: t in made ==> Unused(made[t], t)
  {
    made := map[];
    var todo := types;
    while todo != {}
      invariant todo <= types && made.Keys == types - todo
      invariant forall t :: t in made ==> fresh(made[t]) && Unused(made[t], t)
      decreases |todo|
    {
      var t :| t in todo;
      var x := new BluetoothAudioSession(t);
      made := made[t := x];
      todo := todo - {t};
    }
  }

  datatype Record = Record(ss: seq<State>, es: seq<Event>)

  /** A run so far. */
  type History = r: Record | Run(r.ss, r.es) ghost witness Record([INITIAL], [])

  ghost function Now(h: History): State { h.ss[|h.es|] }

  /** History `h'` is `h` and event `e` more. */
  ghost predicate Grows(h: History, e: Event, h': History) {
    h'.es == h.es + [e] && h'.ss == h.ss + [Now(h')]
  }

  /** A history that has grown by an event has made its step. */
  lemma GrownByStep(h: History, e: Event, h': History)
    requires Grows(h, e, h')
    ensures Enabled(Now(h), e) && Now(h') == Step(Now(h), e)
  {
    assert Joined(h'.ss, h'.es, |h.es|);
  }

  lemma Grow(h: History, e: Event) returns (h': History)
    requires Enabled(Now(h), e)
    ensures Grows(h, e, h') && Now(h') == Step(Now(h), e)
  {
    RunExtends(h.ss, h.es, e);
    h' := Record(h.ss + [Step(Now(h), e)], h.es + [e]);
  }

  /** The step that action `a` makes of stream `p`. */
  lemma Plan(h: History, p: nat, a: Action) returns (y: Stream, h': History)
    requires Enables(Now(h), p, a)
    ensures y == StreamStep(Now(h).streams[p], a)
    ensures Grows(h, Do(p, a), h') && Now(h') == Now(h).(streams := Now(h).streams[p := y])
  {
    y := StreamStep(Now(h).streams[p], a);
    h' := Grow(h, Do(p, a));
  }

  /** A message of the stack to session `e.t`. */
  predicate FromStack(e: Event) {
    e.ControlStatus? || e.SessionStarted? || e.SessionEnded? || e.ConfigChanged?
  }

  /** The link that a message leaves a session with. */
  function LinkAfter(l: Link, e: Event): Link
    requires FromStack(e)
  {
    match e
    case ControlStatus(_, _) => l
    case SessionStarted(t, iface, q, tag) => LinkStarted(t, l, iface, q, tag)
    case SessionEnded(_) => NO_LINK
    case ConfigChanged(_) => l.(config := true)
  }

  /** The message is passed on to the ports. */
  predicate PassedOn(l: Link, e: Event)
    requires FromStack(e)
  {
    match e
    case ControlStatus(_, _) => true
    case SessionStarted(t, iface, q, tag) => StartReported(t, iface, q, tag)
    case SessionEnded(t) => Ready(t, l)
    case ConfigChanged(_) => false
  }

  /** The step that a message of the stack makes. */
  lemma PlanMessage(h: History, e: Event) returns (l: Link, told: bool, h': History)
    requires FromStack(e) && Enabled(Now(h), e)
    ensures l == LinkAfter(LinkOf(Now(h), e.t), e) && told == PassedOn(LinkOf(Now(h), e.t), e)
    ensures Grows(h, e, h') && Now(h').observers == Now(h).observers
    ensures Now(h').links == Now(h).links[e.t := l]
      || (Now(h').links == Now(h).links && l == LinkOf(Now(h), e.t))
    ensures Now(h').streams == if told then Notify(Now(h), e.t, NoticeOf(e)) else Now(h).streams
  {
    h' := Grow(h, e);
    l, told := LinkAfter(LinkOf(Now(h), e.t), e), PassedOn(LinkOf(Now(h), e.t), e);
  }

  /** The observers are the ports of the streams that `ids` names. */
  ghost predicate Names(observers: map<nat, BluetoothAudioPortAidl>,
                        streams: map<nat, BluetoothStreamOut>, ids: map<nat, nat>)
  {
    observers.Keys == ids.Keys
    && forall c :: c in observers ==> ids[c] in streams && observers[c] == streams[ids[c]].port
  }

  lemma NamesMore(observers: map<nat, BluetoothAudioPortAidl>, streams: map<nat, BluetoothStreamOut>,
                  ids: map<nat, nat>, p: nat, x: BluetoothStreamOut, c: nat)
    requires Names(observers, streams, ids) && p !in streams
    ensures Names(observers, streams[p := x], ids)
    ensures Names(observers[c := x.port], streams[p := x], ids[c := p])
  {
  }

  /** Stream `p` goes, and if `own` its cookie `c` goes from the table. */
  lemma NamesLess(observers: map<nat, BluetoothAudioPortAidl>, streams: map<nat, BluetoothStreamOut>,
                  ids: map<nat, nat>, p: nat, c: nat, own: bool)
    requires Names(observers, streams, ids)
    requires forall d :: d in ids && ids[d] == p ==> own && d == c
    ensures Names(if own then observers - {c} else observers, streams - {p}, if own then ids - {c} else ids)
  {
  }

  /** No table but that of its session names a stream, and that one only under its cookie. */
  lemma OnlyOwnCookie(s: State, u: SessionType, p: nat)
    requires Inv(s) && p in s.streams
    ensures forall d :: d in ObserversOf(s, u) && ObserversOf(s, u)[d] == p ==>
      u == s.streams[p].sessionType && d == s.streams[p].cookie
  {
    var x := s.streams[p];
    assert StreamOk(s, p);
    forall d | d in ObserversOf(s, u) && ObserversOf(s, u)[d] == p
      ensures u == x.sessionType && d == x.cookie
    {
      assert ObserverOk(s, u, d);
    }
  }

  lemma LeastFreeUnique<A>(t: SessionType, taken: map<nat, A>, c: nat, d: nat)
    requires InWindow(t, c) && InWindow(t, d) && LeastFree(t, taken, c) && LeastFree(t, taken, d)
    ensures c == d
  {
  }

  /** The least free cookie depends only on which cookies are taken. */
  lemma LeastFreeSame<A, B>(t: SessionType, a: map<nat, A>, b: map<nat, B>, c: nat)
    requires a.Keys == b.Keys
    ensures LeastFree(t, a, c) == LeastFree(t, b, c)
  {
    assert forall d :: d in a.Keys <==> d in b.Keys;
    assert forall d :: d in a <==> d in b;
  }

  ghost predicate HasFree(t: SessionType, taken: set<nat>) {
    exists c :: InWindow(t, c) && c !in taken
  }

  /** The step that opening a stream makes. */
  lemma PlanOpen(h: History, p: nat, t: SessionType, frameSize: Positive)
    returns (ok: bool, c: nat, h': History)
    requires p !in Now(h).streams && PortType(t)
    ensures Grows(h, Event.Open(p, t, frameSize), h')
    ensures ok <==> Ready(t, LinkOf(Now(h), t)) && HasFree(t, ObserversOf(Now(h), t).Keys)
    ensures HasFree(t, ObserversOf(Now(h), t).Keys) ==>
      InWindow(t, c) && LeastFree(t, ObserversOf(Now(h), t), c)
    ensures if ok then Opens(Now(h), p, Stream(c, t, STANDBY, frameSize, 0, 0, Idle), Now(h'))
            else Now(h') == Now(h)
  {
    var obs := ObserversOf(Now(h), t);
    RunKeepsInv(h.ss, h.es, |h.es|);
    OpenTakesLeastFree(Now(h), p, t, frameSize);
    c := FirstFree(obs, CookieInit(t), COOKIE_SIZE);
    h' := Grow(h, Event.Open(p, t, frameSize));
    ok := p in Now(h').streams;
  }

  /** State `s'` is `s` with stream `y` registered under its cookie. */
  ghost predicate Opens(s: State, p: nat, y: Stream, s': State) {
    s' == s.(streams := s.streams[p := y],
             observers := s.observers[y.sessionType := ObserversOf(s, y.sessionType)[y.cookie := p]])
  }

  class AudioSystem {
    const sessions: map<SessionType, BluetoothAudioSession>
    var streams: map<nat, BluetoothStreamOut>

    /** No two sessions and no two streams share a part. */
    ghost predicate Separate()
      reads this
    {
      (forall t :: Known(t) ==> t in sessions)
      && (forall t :: t in sessions ==> sessions[t].sessionType == t)
      && forall p :: p in streams ==> streams[p].port.owner == p
    }

    ghost function Ports(): set<BluetoothAudioPortAidl>
      reads this
    {
      set p | p in streams :: streams[p].port
    }

    ghost predicate StreamsAre(s: State)
      reads this, streams.Values, Ports()
    {
      s.streams.Keys == streams.Keys && forall p :: p in streams ==> streams[p].Value() == s.streams[p]
    }

    ghost predicate SessionsAre(s: State)
      reads this, sessions.Values
    {
      forall t :: t in sessions ==>
        sessions[t].link == LinkOf(s, t) && Names(sessions[t].observers, streams, ObserversOf(s, t))
    }

    /** The objects hold what state `s` says. */
    ghost predicate Holds(s: State)
      reads this, sessions.Values, streams.Values, Ports()
    {
      Separate() && StreamsAre(s) && SessionsAre(s)
    }

    constructor ()
      ensures Holds(INITIAL) && streams == map[]
      ensures fresh(sessions.Values)
    {
      var made := MakeSessions(set t: SessionType | Known(t));
      sessions, streams := made, map[];
    }

    // -------------------------------------------------------- one stream

    /** Stream `p` is `y`, and everything else holds what state `s` says. */
    ghost predicate HoldsBut(s: State, p: nat, y: Stream)
      reads this, sessions.Values, streams.Values, Ports()
    {
      Separate() && SessionsAre(s)
      && s.streams.Keys == streams.Keys && p in streams && streams[p].Value() == y
      && forall q :: q in streams && q != p ==> streams[q].Value() == s.streams[q]
    }

    lemma HoldsAfter(s: State, p: nat, y: Stream, s': State)
      requires HoldsBut(s, p, y) && s' == s.(streams := s.streams[p := y])
      ensures Holds(s')
    {
    }

    /** The stream object performs the action, and only it changes. */
    method Act(p: nat, a: Action, ghost ready: bool, ghost y: Stream)
      requires Separate() && p in streams && StreamEnabled(streams[p].Value(), a, ready)
      requires var t := streams[p].port.sessionType; Known(t) && ready == Ready(t, sessions[t].link)
      requires y == StreamStep(streams[p].Value(), a)
      modifies streams[p], streams[p].port
      ensures streams[p].Value() == y
      ensures forall q :: q in streams && q != p ==> streams[q].Value() == old(streams[q].Value())
    {
      streams[p].Perform(a, sessions[streams[p].port.sessionType]);
    }

    /** The session of a stream is there, and as ready as the history says. */
    lemma HasHome(h: History, p: nat)
      requires Holds(Now(h)) && p in streams
      ensures var t := streams[p].port.sessionType;
        t == Now(h).streams[p].sessionType && Known(t) && t in sessions
        && sessions[t].link == LinkOf(Now(h), t)
    {
      RunKeepsInv(h.ss, h.es, |h.es|);
      assert streams[p].Value() == Now(h).streams[p] && StreamOk(Now(h), p);
    }

    /** Every action that the protocol allows is performed by the objects, as the protocol says. */
    method Perform(p: nat, a: Action, ghost h: History) returns (ghost h': History)
      requires Holds(Now(h)) && p in streams && Enables(Now(h), p, a)
      modifies streams[p], streams[p].port
      ensures Holds(Now(h')) && Grows(h, Do(p, a), h')
    {
      ghost var s := Now(h);
      HasHome(h, p);
      ghost var y;
      y, h' := Plan(h, p, a);
      Act(p, a, IsReady(s, s.streams[p].sessionType), y);
      HoldsAfter(s, p, y, Now(h'));
    }

    // -------------------------------------------------------- sessions

    /** The port listens to session `t` exactly when it belongs to it, and then under its own
        cookie. */
    ghost predicate Listens(t: SessionType, port: BluetoothAudioPortAidl)
      requires t in sessions
      reads this, sessions[t], port
    {
      (port in sessions[t].observers.Values <==> port.sessionType == t)
      && (port.sessionType == t ==> sessions[t].Registered(port))
    }

    lemma StreamListens(s: State, t: SessionType, p: nat)
      requires Holds(s) && Inv(s) && t in sessions && p in streams
      ensures Listens(t, streams[p].port)
    {
      var x, obs, ids := streams[p].port, sessions[t].observers, ObserversOf(s, t);
      assert Names(obs, streams, ids);
      assert streams[p].Value() == s.streams[p] && StreamOk(s, p);
      if x.sessionType == t {
        CookieDecodes(t, t, x.cookie);
        assert obs[x.cookie] == x;
      }
      if x in obs.Values {
        var c :| c in obs && obs[c] == x;
        assert ObserverOk(s, t, c) && ids[c] == p;
      }
    }

    lemma StreamsListen(h: History, t: SessionType)
      requires Holds(Now(h)) && t in sessions
      ensures forall p :: p in streams ==> Listens(t, streams[p].port)
    {
      RunKeepsInv(h.ss, h.es, |h.es|);
      forall p | p in streams
        ensures Listens(t, streams[p].port)
      {
        StreamListens(Now(h), t, p);
      }
    }

    lemma SessionValid(s: State, t: SessionType)
      requires Holds(s) && Inv(s) && Known(t) && t in sessions
      ensures sessions[t].Valid()
    {
      var obs, ids := sessions[t].observers, ObserversOf(s, t);
      assert Names(obs, streams, ids);
      forall c | c in obs
        ensures InWindow(t, c) && obs[c].cookie == c && obs[c].sessionType == t
      {
        assert ObserverOk(s, t, c) && StreamOk(s, ids[c]);
        assert streams[ids[c]].Value() == s.streams[ids[c]];
      }
    }

    /** The sessions hold what state `s` says, but session `t` has link `l`. */
    ghost predicate SessionsBut(s: State, t: SessionType, l: Link)
      reads this, sessions.Values
    {
      forall u :: u in sessions ==>
        (u != t ==> sessions[u].link == LinkOf(s, u))
        && (u == t ==> sessions[u].link == l)
        && Names(sessions[u].observers, streams, ObserversOf(s, u))
    }

    lemma SessionsAfter(s: State, t: SessionType, l: Link, s': State)
      requires SessionsBut(s, t, l) && s'.observers == s.observers
      requires s'.links == s.links[t := l] || (s'.links == s.links && l == LinkOf(s, t))
      ensures SessionsAre(s')
    {
    }

    /** The streams hold what state `s` says, but those of session `t` have heard `n` if `told`. */
    ghost predicate StreamsTold(s: State, t: SessionType, told: bool, n: Notice)
      reads this, streams.Values, Ports()
    {
      s.streams.Keys == streams.Keys
      && forall p :: p in streams ==>
           streams[p].Value() == if told then Heard(s.streams[p], t, n) else s.streams[p]
    }

    lemma StreamsAfter(s: State, t: SessionType, told: bool, n: Notice, s': State)
      requires Inv(s) && StreamsTold(s, t, told, n)
      requires s'.streams == if told then Notify(s, t, n) else s.streams
      ensures StreamsAre(s')
    {
      forall p | p in streams
        ensures streams[p].Value() == s'.streams[p]
      {
        NotifyMoves(s, t, n, p);
      }
    }

    /** The session object takes the message, and only it and its ports change. */
    method Hear(e: Event, ghost l: Link, ghost told: bool)
      requires FromStack(e) && Known(e.t) && Separate()
      requires e.ConfigChanged? ==> TagAccepted(e.t, leAudioConfig)
      requires l == LinkAfter(sessions[e.t].link, e) && told == PassedOn(sessions[e.t].link, e)
      requires forall p :: p in streams ==> Listens(e.t, streams[p].port)
      modifies sessions[e.t], sessions[e.t].observers.Values
      ensures sessions[e.t].link == l && sessions[e.t].observers == old(sessions[e.t].observers)
      ensures forall p :: p in streams ==>
        streams[p].Value() ==
          if told then Heard(old(streams[p].Value()), e.t, NoticeOf(e)) else old(streams[p].Value())
    {
      match e {
        case ControlStatus(t, status) => sessions[t].Report(ControlResult(status));
        case SessionStarted(t, iface, q, tag) => sessions[t].OnSessionStarted(iface, q, tag);
        case SessionEnded(t) => sessions[t].OnSessionEnded();
        case ConfigChanged(t) => sessions[t].ReportAudioConfigChanged(leAudioConfig);
      }
    }

    method Tell(e: Event, ghost s: State, ghost l: Link, ghost told: bool)
      requires FromStack(e) && Known(e.t) && Holds(s)
      requires e.ConfigChanged? ==> TagAccepted(e.t, leAudioConfig)
      requires l == LinkAfter(LinkOf(s, e.t), e) && told == PassedOn(LinkOf(s, e.t), e)
      requires forall p :: p in streams ==> Listens(e.t, streams[p].port)
      modifies sessions[e.t], sessions[e.t].observers.Values
      ensures Separate() && StreamsTold(s, e.t, told, NoticeOf(e)) && SessionsBut(s, e.t, l)
    {
      Hear(e, l, told);
    }

    /** Every message of the stack reaches the objects as the protocol says. */
    method Message(e: Event, ghost h: History) returns (ghost h': History)
      requires FromStack(e) && Holds(Now(h)) && Enabled(Now(h), e)
      modifies sessions[e.t], sessions[e.t].observers.Values
      ensures Holds(Now(h')) && Grows(h, e, h')
    {
      ghost var s := Now(h);
      RunKeepsInv(h.ss, h.es, |h.es|);
      StreamsListen(h, e.t);
      ghost var l, told;
      l, told, h' := PlanMessage(h, e);
      Tell(e, s, l, told);
      StreamsAfter(s, e.t, told, NoticeOf(e), Now(h'));
      SessionsAfter(s, e.t, l, Now(h'));
    }

    // -------------------------------------------------------- opening and closing

    /** A new stream with its own port registers with the session; nothing else changes. */
    method Add(p: nat, t: SessionType, frameSize: Positive, ghost opens: bool, ghost c: nat) returns (ok: bool)
      requires Separate() && p !in streams && Known(t) && sessions[t].Valid()
      requires opens == (Ready(t, sessions[t].link) && HasFree(t, sessions[t].observers.Keys))
      requires opens ==> InWindow(t, c) && LeastFree(t, sessions[t].observers, c)
      modifies this, sessions[t]
      ensures ok == opens && sessions[t].link == old(sessions[t].link)
      ensures !ok ==> streams == old(streams) && sessions[t].observers == old(sessions[t].observers)
      ensures ok ==> p in streams && fresh(streams[p]) && fresh(streams[p].port) && streams[p].port.owner == p
      ensures ok ==> streams == old(streams)[p := streams[p]]
      ensures ok ==> streams[p].Value() == Stream(c, t, STANDBY, frameSize, 0, 0, Idle)
      ensures ok ==> sessions[t].observers == old(sessions[t].observers)[c := streams[p].port]
      ensures forall q :: q in old(streams) ==> streams[q].Value() == old(streams[q].Value())
    {
      var port := new BluetoothAudioPortAidl(p);
      ok := port.SetUp(sessions[t]);
      if ok {
        LeastFreeUnique(t, old(sessions[t].observers), port.cookie, c);
        var x := new BluetoothStreamOut(port, frameSize);
        streams := streams[p := x];
      }
    }

    /** The tables name what state `s` says, but that of session `t` has cookie `c` for stream `p`. */
    ghost predicate SessionsOpened(s: State, p: nat, t: SessionType, c: nat)
      reads this, sessions.Values
    {
      forall u :: u in sessions ==>
        sessions[u].link == LinkOf(s, u)
        && Names(sessions[u].observers, streams, if u == t then ObserversOf(s, u)[c := p] else ObserversOf(s, u))
    }

    /** Stream `p` is `y`, and every other one is what state `s` says. */
    ghost predicate StreamsOpened(s: State, p: nat, y: Stream)
      reads this, streams.Values, Ports()
    {
      streams.Keys == s.streams.Keys + {p} && streams[p].Value() == y
      && forall q :: q in streams && q != p ==> streams[q].Value() == s.streams[q]
    }

    lemma HoldsAfterOpen(s: State, p: nat, y: Stream, s': State)
      requires Separate() && StreamsOpened(s, p, y) && SessionsOpened(s, p, y.sessionType, y.cookie) && Opens(s, p, y, s')
      ensures Holds(s')
    {
    }

    method AddNamed(p: nat, t: SessionType, frameSize: Positive, ghost s: State, ghost opens: bool, ghost c: nat)
      returns (ok: bool)
      requires Separate() && SessionsAre(s) && p !in streams && Known(t) && sessions[t].Valid()
      requires opens == (Ready(t, LinkOf(s, t)) && HasFree(t, ObserversOf(s, t).Keys))
      requires opens ==> InWindow(t, c) && LeastFree(t, ObserversOf(s, t), c)
      modifies this, sessions[t]
      ensures ok == opens && Separate()
      ensures if ok then SessionsOpened(s, p, t, c) else SessionsAre(s)
      ensures ok ==> p in streams && fresh(streams[p]) && fresh(streams[p].port)
      ensures streams == if ok then old(streams)[p := streams[p]] else old(streams)
      ensures ok ==> streams[p].Value() == Stream(c, t, STANDBY, frameSize, 0, 0, Idle)
      ensures forall q :: q in old(streams) ==> q in streams && streams[q].Value() == old(streams[q].Value())
    {
      assert Names(sessions[t].observers, streams, ObserversOf(s, t));
      LeastFreeSame(t, ObserversOf(s, t), sessions[t].observers, c);
      ok := Add(p, t, frameSize, opens, c);
      forall u | u in sessions && ok
        ensures Names(sessions[u].observers, streams,
                      if u == t then ObserversOf(s, u)[c := p] else ObserversOf(s, u))
      {
        NamesMore(old(sessions[u].observers), old(streams), ObserversOf(s, u), p, streams[p], c);
      }
    }

    method AddTo(p: nat, t: SessionType, frameSize: Positive, ghost s: State, ghost opens: bool, ghost c: nat)
      returns (ok: bool)
      requires Holds(s) && p !in streams && Known(t) && sessions[t].Valid()
      requires opens == (Ready(t, LinkOf(s, t)) && HasFree(t, ObserversOf(s, t).Keys))
      requires opens ==> InWindow(t, c) && LeastFree(t, ObserversOf(s, t), c)
      modifies this, sessions[t]
      ensures ok == opens && Separate()
      ensures if ok then SessionsOpened(s, p, t, c) else SessionsAre(s)
      ensures if ok then StreamsOpened(s, p, Stream(c, t, STANDBY, frameSize, 0, 0, Idle)) else StreamsAre(s)
      ensures ok ==> p in streams && fresh(streams[p]) && fresh(streams[p].port)
      ensures streams == if ok then old(streams)[p := streams[p]] else old(streams)
    {
      ok := AddNamed(p, t, frameSize, s, opens, c);
    }

    /** Opens a stream, which works exactly when its session is ready and has a free cookie. */
    method Open(p: nat, t: SessionType, frameSize: Positive, ghost h: History)
      returns (ok: bool, ghost h': History)
      requires Holds(Now(h)) && p !in streams && PortType(t)
      modifies this, sessions[t]
      ensures Holds(Now(h')) && Grows(h, Event.Open(p, t, frameSize), h')
      ensures ok <==> Ready(t, LinkOf(Now(h), t)) && HasFree(t, ObserversOf(Now(h), t).Keys)
      ensures ok ==> p in streams && fresh(streams[p]) && fresh(streams[p].port)
      ensures streams == if ok then old(streams)[p := streams[p]] else old(streams)
    {
      ghost var s := Now(h);
      RunKeepsInv(h.ss, h.es, |h.es|);
      assert Known(t);
      SessionValid(s, t);
      ghost var opens, c;
      opens, c, h' := PlanOpen(h, p, t, frameSize);
      ok := AddTo(p, t, frameSize, s, opens, c);
      if ok {
        HoldsAfterOpen(s, p, Stream(c, t, STANDBY, frameSize, 0, 0, Idle), Now(h'));
      }
    }

    /** The stream stops and leaves its session; nothing else changes. */
    method Remove(p: nat)
      requires Separate() && p in streams && Known(streams[p].port.sessionType)
      requires sessions[streams[p].port.sessionType].Valid()
      requires sessions[streams[p].port.sessionType].Registered(streams[p].port)
      modifies this, streams[p], streams[p].port, sessions[streams[p].port.sessionType]
      ensures var t, c := old(streams[p].port.sessionType), old(streams[p].port.cookie);
        streams == old(streams) - {p} && sessions[t].link == old(sessions[t].link)
        && sessions[t].observers == old(sessions[t].observers) - {c}
      ensures forall q :: q in streams ==> streams[q].Value() == old(streams[q].Value())
    {
      var x := streams[p];
      if x.port.state != DISABLED {
        x.Stop();
      }
      x.port.TearDown(sessions[x.port.sessionType]);
      streams := streams - {p};
    }

    /** Stream `y` is gone from the streams and its table, and everything else holds what state
        `s` says. */
    ghost predicate HoldsClosed(s: State, p: nat, y: Stream)
      reads this, sessions.Values, streams.Values, Ports()
    {
      Separate()
      && streams.Keys == s.streams.Keys - {p}
      && (forall q :: q in streams ==> streams[q].Value() == s.streams[q])
      && forall u :: u in sessions ==>
           sessions[u].link == LinkOf(s, u)
           && Names(sessions[u].observers, streams,
                    if u == y.sessionType then ObserversOf(s, u) - {y.cookie} else ObserversOf(s, u))
    }

    lemma HoldsAfterClose(s: State, p: nat, s': State)
      requires p in s.streams && HoldsClosed(s, p, s.streams[p]) && s' == CloseStream(s, p)
      ensures Holds(s')
    {
    }

    method RemoveFrom(p: nat, ghost s: State)
      requires Holds(s) && Inv(s) && p in streams && Known(streams[p].port.sessionType)
      requires sessions[streams[p].port.sessionType].Valid()
      requires sessions[streams[p].port.sessionType].Registered(streams[p].port)
      modifies this, streams[p], streams[p].port, sessions[streams[p].port.sessionType]
      ensures HoldsClosed(s, p, s.streams[p]) && streams == old(streams) - {p}
    {
      ghost var y := s.streams[p];
      assert streams[p].Value() == y;
      Remove(p);
      forall u | u in sessions
        ensures Names(sessions[u].observers, streams,
                      if u == y.sessionType then ObserversOf(s, u) - {y.cookie} else ObserversOf(s, u))
      {
        OnlyOwnCookie(s, u, p);
        NamesLess(old(sessions[u].observers), old(streams), ObserversOf(s, u), p, y.cookie, u == y.sessionType);
      }
    }

    method Close(p: nat, ghost h: History) returns (ghost h': History)
      requires Holds(Now(h)) && p in streams && streams[p].call.Idle?
      modifies this, streams[p], streams[p].port, sessions.Values
      ensures Holds(Now(h')) && Grows(h, Event.Close(p), h') && streams == old(streams) - {p}
    {
      ghost var s := Now(h);
      RunKeepsInv(h.ss, h.es, |h.es|);
      assert streams[p].Value() == s.streams[p] && StreamOk(s, p) && Known(s.streams[p].sessionType);
      SessionValid(s, streams[p].port.sessionType);
      StreamsListen(h, streams[p].port.sessionType);
      RemoveFrom(p, s);
      h' := Grow(h, Event.Close(p));
      HoldsAfterClose(s, p, Now(h'));
    }

    /** Only ports of the streams listen. */
    lemma ListenersAreOurs(h: History, t: SessionType)
      requires Holds(Now(h)) && t in sessions
      ensures sessions[t].observers.Values <= Ports()
    {
      assert Names(sessions[t].observers, streams, ObserversOf(Now(h), t));
    }

    // -------------------------------------------------------- what the runs say of the objects

    /** Cookies of the ports lie in the window of their session, decode to it and are never shared;
        no stream has rendered more than it presented. */
    lemma PortsAreApart(h: History, p: nat, q: nat)
      requires Holds(Now(h)) && p in streams && q in streams
      ensures var x := streams[p].port;
        InWindow(x.sessionType, x.cookie) && CookieSessionType(x.cookie) == x.sessionType
        && (x.cookie == streams[q].port.cookie ==> p == q)
      ensures streams[p].rendered <= streams[p].presented
    {
      CookiesCorrespond(h.ss, h.es, |h.es|, p, q);
      RenderedAtMostPresented(h.ss, h.es, |h.es|, p);
      assert streams[p].Value() == Now(h).streams[p] && streams[q].Value() == Now(h).streams[q];
    }

    /** The counters of a stream object hold the frames requested since their last reset. */
    lemma CounterIsSum(h: History, p: nat, c: Counter) returns (r: nat)
      requires Holds(Now(h)) && p in streams
      ensures LastReset(h.ss, h.es, r, |h.es|, p, c)
      ensures (if c == Rendered then streams[p].rendered else streams[p].presented)
           == SumRequested(h.ss, h.es, r + 1, |h.es|, p)
    {
      r := CountsRequests(h.ss, h.es, |h.es|, p, c);
      assert streams[p].Value() == Now(h).streams[p];
    }
  }
}
