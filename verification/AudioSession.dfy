/**
 Sessions and ports (bluetooth/audio/utils/aidl_session/BluetoothAudioSession.cpp and .h,
 bluetooth/audio/hw/device_port_proxy.cc): when a session is ready, which observer cookies it
 hands out, how a port's state answers the stack's callbacks, and the objects that do so.
 */
module AudioSession {

  datatype SessionType =
    | UNKNOWN
    | A2DP_SOFTWARE_ENCODING_DATAPATH
    | A2DP_HARDWARE_OFFLOAD_ENCODING_DATAPATH
    | HEARING_AID_SOFTWARE_ENCODING_DATAPATH
    | LE_AUDIO_SOFTWARE_ENCODING_DATAPATH
    | LE_AUDIO_SOFTWARE_DECODING_DATAPATH
    | LE_AUDIO_HARDWARE_OFFLOAD_ENCODING_DATAPATH
    | LE_AUDIO_HARDWARE_OFFLOAD_DECODING_DATAPATH
    | LE_AUDIO_BROADCAST_SOFTWARE_ENCODING_DATAPATH
    | LE_AUDIO_BROADCAST_HARDWARE_OFFLOAD_ENCODING_DATAPATH
    | A2DP_SOFTWARE_DECODING_DATAPATH
    | A2DP_HARDWARE_OFFLOAD_DECODING_DATAPATH
    | HFP_SOFTWARE_ENCODING_DATAPATH
    | HFP_SOFTWARE_DECODING_DATAPATH
    | HFP_HARDWARE_OFFLOAD_DATAPATH

  /** The numeric values are not part of the repository; all that matters below is that they
      are distinct, fit a byte, and give UNKNOWN the value 0. */
  function Code(t: SessionType): nat {
    match t
    case UNKNOWN => 0
    case A2DP_SOFTWARE_ENCODING_DATAPATH => 1
    case A2DP_HARDWARE_OFFLOAD_ENCODING_DATAPATH => 2
    case HEARING_AID_SOFTWARE_ENCODING_DATAPATH => 3
    case LE_AUDIO_SOFTWARE_ENCODING_DATAPATH => 4
    case LE_AUDIO_SOFTWARE_DECODING_DATAPATH => 5
    case LE_AUDIO_HARDWARE_OFFLOAD_ENCODING_DATAPATH => 6
    case LE_AUDIO_HARDWARE_OFFLOAD_DECODING_DATAPATH => 7
    case LE_AUDIO_BROADCAST_SOFTWARE_ENCODING_DATAPATH => 8
    case LE_AUDIO_BROADCAST_HARDWARE_OFFLOAD_ENCODING_DATAPATH => 9
    case A2DP_SOFTWARE_DECODING_DATAPATH => 10
    case A2DP_HARDWARE_OFFLOAD_DECODING_DATAPATH => 11
    case HFP_SOFTWARE_ENCODING_DATAPATH => 12
    case HFP_SOFTWARE_DECODING_DATAPATH => 13
    case HFP_HARDWARE_OFFLOAD_DATAPATH => 14
  }

  function TypeOfCode(code: nat): SessionType {
    match code
    case 1 => A2DP_SOFTWARE_ENCODING_DATAPATH
    case 2 => A2DP_HARDWARE_OFFLOAD_ENCODING_DATAPATH
    case 3 => HEARING_AID_SOFTWARE_ENCODING_DATAPATH
    case 4 => LE_AUDIO_SOFTWARE_ENCODING_DATAPATH
    case 5 => LE_AUDIO_SOFTWARE_DECODING_DATAPATH
    case 6 => LE_AUDIO_HARDWARE_OFFLOAD_ENCODING_DATAPATH
    case 7 => LE_AUDIO_HARDWARE_OFFLOAD_DECODING_DATAPATH
    case 8 => LE_AUDIO_BROADCAST_SOFTWARE_ENCODING_DATAPATH
    case 9 => LE_AUDIO_BROADCAST_HARDWARE_OFFLOAD_ENCODING_DATAPATH
    case 10 => A2DP_SOFTWARE_DECODING_DATAPATH
    case 11 => A2DP_HARDWARE_OFFLOAD_DECODING_DATAPATH
    case 12 => HFP_SOFTWARE_ENCODING_DATAPATH
    case 13 => HFP_SOFTWARE_DECODING_DATAPATH
    case 14 => HFP_HARDWARE_OFFLOAD_DATAPATH
    case _ => UNKNOWN
  }

  lemma CodeIsInjective(t: SessionType)
    ensures TypeOfCode(Code(t)) == t && Code(t) < 0x100
    ensures t != UNKNOWN ==> Code(t) > 0
  {
  }

  predicate Offload(t: SessionType) {
    (t == A2DP_HARDWARE_OFFLOAD_ENCODING_DATAPATH
     || t == LE_AUDIO_HARDWARE_OFFLOAD_ENCODING_DATAPATH
     || t == LE_AUDIO_HARDWARE_OFFLOAD_DECODING_DATAPATH
     || t == LE_AUDIO_BROADCAST_HARDWARE_OFFLOAD_ENCODING_DATAPATH
     || t == A2DP_HARDWARE_OFFLOAD_DECODING_DATAPATH
     || t == HFP_HARDWARE_OFFLOAD_DATAPATH)
  }

  predicate IsA2dp(t: SessionType) {
    t == A2DP_SOFTWARE_ENCODING_DATAPATH || t == A2DP_HARDWARE_OFFLOAD_ENCODING_DATAPATH
  }

  // ------------------------------------------------------------ readiness

  /** A session's control path, data queue and audio configuration, each present or not. */
  datatype Link = Link(iface: bool, queue: bool, config: bool)

  const NO_LINK := Link(false, false, false)

  predicate Ready(t: SessionType, l: Link) {
    l.iface && (Offload(t) || l.queue) && l.config
  }

  /** The queue descriptor of a session start: absent, or present and valid or not. */
  datatype QueueDesc = NoQueue | ValidQueue | InvalidQueue

  datatype ConfigTag = pcmConfig | a2dpConfig | a2dp | hfpConfig | leAudioConfig | leAudioBroadcastConfig

  /** The configuration kinds a session of type `t` takes. */
  predicate TagAccepted(t: SessionType, tag: ConfigTag) {
    match tag
    case pcmConfig => t != UNKNOWN && !Offload(t)
    case a2dpConfig => (t == A2DP_HARDWARE_OFFLOAD_ENCODING_DATAPATH
     || t == A2DP_HARDWARE_OFFLOAD_DECODING_DATAPATH)
    case a2dp => (t == A2DP_HARDWARE_OFFLOAD_ENCODING_DATAPATH
     || t == A2DP_HARDWARE_OFFLOAD_DECODING_DATAPATH)
    case hfpConfig => t == HFP_HARDWARE_OFFLOAD_DATAPATH
    case leAudioConfig =>
      (t == LE_AUDIO_HARDWARE_OFFLOAD_ENCODING_DATAPATH
     || t == LE_AUDIO_HARDWARE_OFFLOAD_DECODING_DATAPATH)
    case leAudioBroadcastConfig => t == LE_AUDIO_BROADCAST_HARDWARE_OFFLOAD_ENCODING_DATAPATH
  }

  /** OnSessionStarted: a missing interface or an unfit configuration changes nothing; a bad
      queue drops queue and configuration but keeps the interface. */
  function LinkStarted(t: SessionType, l: Link, iface: bool, q: QueueDesc, tag: ConfigTag): Link {
    if !iface || !TagAccepted(t, tag) then l
    else if q == InvalidQueue then l.(queue := false, config := false)
    else Link(true, q == ValidQueue, true)
  }

  /** OnSessionStarted tells the observers. */
  predicate StartReported(t: SessionType, iface: bool, q: QueueDesc, tag: ConfigTag) {
    iface && TagAccepted(t, tag) && q != InvalidQueue
  }

  // ------------------------------------------------------------ cookies

  const COOKIE_SIZE: nat := 0x10
  const COOKIE_UNDEFINED: nat := 0

  /** `code << 8 & 0xff00`; the mask changes nothing, as the code fits a byte. */
  function CookieInit(t: SessionType): nat { Code(t) * 0x100 }

  function CookieUpperBound(t: SessionType): nat { CookieInit(t) + COOKIE_SIZE }

  function CookieSessionType(cookie: nat): SessionType { TypeOfCode(cookie / 0x100 % 0x100) }

  predicate InWindow(t: SessionType, cookie: nat) {
    CookieInit(t) <= cookie < CookieUpperBound(t)
  }

  /** Cookies decode to the session that issued them, so windows of two sessions are disjoint;
      an issued cookie is never the undefined one. */
  lemma CookieDecodes(t: SessionType, u: SessionType, cookie: nat)
    requires InWindow(t, cookie)
    ensures CookieSessionType(cookie) == t
    ensures InWindow(u, cookie) ==> t == u
    ensures t != UNKNOWN ==> cookie != COOKIE_UNDEFINED
    ensures cookie < 0x1_0000 && cookie / 0x100 == Code(t) && cookie % 0x100 < 16
  {
    CodeIsInjective(t);
    CodeIsInjective(u);
    WindowHasCode(Code(t), cookie);
    if InWindow(u, cookie) {
      WindowHasCode(Code(u), cookie);
    }
  }

  lemma WindowHasCode(code: nat, cookie: nat)
    requires code < 0x100 && code * 0x100 <= cookie < code * 0x100 + COOKIE_SIZE
    ensures cookie / 0x100 % 0x100 == code && cookie < 0x1_0000
    ensures cookie / 0x100 == code && cookie % 0x100 < 16
    ensures code > 0 ==> cookie > 0
  {
  }

  /** A session has sixteen cookies. */
  lemma SixteenCookies(t: SessionType, k: nat)
    ensures InWindow(t, Code(t) * 0x100 + k) <==> k < 16
  {
  }

  /** The smallest cookie of the window not yet taken; the upper bound when all are taken. */
  ghost predicate LeastFree<T>(t: SessionType, taken: map<nat, T>, cookie: nat) {
    CookieInit(t) <= cookie <= CookieUpperBound(t)
    && (forall c :: CookieInit(t) <= c < cookie ==> c in taken)
    && (cookie < CookieUpperBound(t) ==> cookie !in taken)
  }

  // ------------------------------------------------------------ port states

  datatype StreamState = DISABLED | STANDBY | STARTING | STARTED | SUSPENDING

  datatype Status = SUCCESS | RECONFIGURATION | FAILURE

  /** What a session tells a port: its session changed, or the stack reports a result. */
  datatype Notice = SessionChanged | ControlResult(status: Status)

  function Handle(s: StreamState, n: Notice): StreamState {
    match n
    case SessionChanged => DISABLED
    case ControlResult(status) =>
      match s
      case STARTED => if status == RECONFIGURATION || status == SUCCESS then STANDBY else STARTED
      case STARTING => if status == SUCCESS then STARTED else STANDBY
      case SUSPENDING => if status == SUCCESS then STANDBY else DISABLED
      case _ => s
  }

  // ------------------------------------------------------------ the objects

  class BluetoothAudioPortAidl {
    ghost const owner: nat  // the stream the port belongs to
    var cookie: nat
    var state: StreamState
    var sessionType: SessionType

    constructor (ghost owner: nat)
      ensures this.owner == owner && !InUse() && state == DISABLED && sessionType == UNKNOWN
    {
      this.owner := owner;
      cookie, state, sessionType := COOKIE_UNDEFINED, DISABLED, UNKNOWN;
    }

    predicate InUse()
      reads this
    {
      cookie != COOKIE_UNDEFINED
    }

    /** Takes the session of the port's device and registers with it: that works exactly when the
        session is ready and one of its 16 cookies is free. */
    method SetUp(session: BluetoothAudioSession) returns (ok: bool)
      requires session.Valid() && !InUse()
      modifies this, session`observers
      ensures session.Valid() && (ok <==> InUse())
      ensures ok <==> (Ready(session.sessionType, session.link)
                       && exists c :: InWindow(session.sessionType, c) && c !in old(session.observers))
      ensures ok ==> session.Registered(this) && state == STANDBY && sessionType == session.sessionType
      ensures ok ==> LeastFree(sessionType, old(session.observers), cookie) && InWindow(sessionType, cookie)
      ensures session.observers ==
        if ok then old(session.observers)[cookie := this] else old(session.observers)
    {
      assert this !in session.observers.Values;
      sessionType := session.sessionType;
      if !Ready(session.sessionType, session.link) {
        return false;
      }
      state := STANDBY;
      cookie := session.RegisterStatusCback(this);
      return cookie != COOKIE_UNDEFINED;
    }

    /** Leaves the session; the cookie is free again and no notice arrives any more. */
    method TearDown(session: BluetoothAudioSession)
      requires session.Valid() && (InUse() ==> session.Registered(this))
      modifies this`cookie, session`observers
      ensures session.Valid() && !InUse()
      ensures session.observers == old(session.observers) - {old(cookie)}
      ensures forall p :: p in old(session.observers.Values) && p != this ==> session.Registered(p)
    {
      if cookie == COOKIE_UNDEFINED {
        session.NotRegistered();
        return;
      }
      session.UnregisterStatusCback(cookie);
      cookie := COOKIE_UNDEFINED;
    }

    /** The callback registered for `c`; a port that is not in use, or whose cookie is another
        one, ignores it. */
    method Callback(c: nat, n: Notice)
      modifies this`state
      ensures state == if InUse() && cookie == c then Handle(old(state), n) else old(state)
    {
      if cookie == COOKIE_UNDEFINED {
        return;
      }
      if cookie != c {
        return;
      }
      match n {
        case SessionChanged => state := DISABLED;
        case ControlResult(status) =>
          match state {
            case STARTED =>
              if status == RECONFIGURATION || status == SUCCESS {
                state := STANDBY;
              }
            case STARTING => state := if status == SUCCESS then STARTED else STANDBY;
            case SUSPENDING => state := if status == SUCCESS then STANDBY else DISABLED;
            case _ =>
          }
      }
    }
  }

  class BluetoothAudioSession {
    const sessionType: SessionType
    var link: Link
    var observers: map<nat, BluetoothAudioPortAidl>

    constructor (t: SessionType)
      ensures sessionType == t && link == NO_LINK && observers == map[]
    {
      sessionType, link, observers := t, NO_LINK, map[];
    }

    /** Every observer is a port of this session under its own cookie of the window. */
    ghost predicate Valid()
      reads this, observers.Values
    {
      sessionType != UNKNOWN
      && forall c :: c in observers ==>
           InWindow(sessionType, c) && observers[c].cookie == c && observers[c].sessionType == sessionType
    }

    /** The undefined cookie is never taken. */
    lemma NotRegistered()
      requires Valid()
      ensures COOKIE_UNDEFINED !in observers
    {
      CodeIsInjective(sessionType);
    }

    /** Registers a port under the least free cookie; all 16 taken is the only failure. */
    method RegisterStatusCback(port: BluetoothAudioPortAidl) returns (cookie: nat)
      modifies this`observers
      requires sessionType != UNKNOWN
      ensures cookie == COOKIE_UNDEFINED <==>
        forall c :: InWindow(sessionType, c) ==> c in old(observers)
      ensures cookie == COOKIE_UNDEFINED ==> observers == old(observers)
      ensures cookie != COOKIE_UNDEFINED ==> InWindow(sessionType, cookie)
      ensures cookie != COOKIE_UNDEFINED ==> LeastFree(sessionType, old(observers), cookie)
      ensures cookie != COOKIE_UNDEFINED ==> observers == old(observers)[cookie := port]
    {
      CodeIsInjective(sessionType);
      cookie := CookieInit(sessionType);
      var bound := CookieUpperBound(sessionType);
      while cookie < bound
        invariant CookieInit(sessionType) <= cookie <= bound
        invariant forall c :: CookieInit(sessionType) <= c < cookie ==> c in observers
      {
        if cookie !in observers {
          break;
        }
        cookie := cookie + 1;
      }
      if cookie >= bound {
        return COOKIE_UNDEFINED;
      }
      observers := observers[cookie := port];
    }

    /** Exactly the port with that cookie stops hearing notices. */
    method UnregisterStatusCback(cookie: nat)
      modifies this`observers
      ensures observers == old(observers) - {cookie}
      ensures forall p :: p in old(observers.Values) ==>
        (Registered(p) <==> old(Registered(p)) && p.cookie != cookie)
    {
      observers := observers - {cookie};
    }

    /** Port `p` is registered here under its own cookie. */
    predicate Registered(p: BluetoothAudioPortAidl)
      reads this`observers, p
    {
      p.InUse() && p.cookie in observers && observers[p.cookie] == p
    }

    /** A session that is not ready refuses; a ready one passes the request to the stack, which
        accepts it or not. */
    method StartStream(stackOk: bool) returns (ok: bool)
      ensures ok == (Ready(sessionType, link) && stackOk)
    {
      if !Ready(sessionType, link) {
        return false;
      }
      return stackOk;
    }

    method SuspendStream(stackOk: bool) returns (ok: bool)
      ensures ok == (Ready(sessionType, link) && stackOk)
    {
      if !Ready(sessionType, link) {
        return false;
      }
      return stackOk;
    }

    /** Calls every registered callback, in whatever order the table yields them. */
    method Report(n: Notice)
      modifies observers.Values`state
      ensures forall p :: p in observers.Values ==>
        p.state == if Registered(p) then Handle(old(p.state), n) else old(p.state)
    {
      var todo := observers.Keys;
      while todo != {}
        invariant todo <= observers.Keys
        invariant forall p :: p in observers.Values ==>
          p.state == if Registered(p) && p.cookie !in todo then Handle(old(p.state), n) else old(p.state)
        decreases |todo|
      {
        var c :| c in todo;
        observers[c].Callback(c, n);
        todo := todo - {c};
      }
    }

    method OnSessionStarted(iface: bool, q: QueueDesc, tag: ConfigTag)
      modifies this`link, observers.Values`state
      ensures link == LinkStarted(sessionType, old(link), iface, q, tag)
      ensures forall p :: p in observers.Values ==>
        p.state == if StartReported(sessionType, iface, q, tag) && Registered(p)
                   then DISABLED else old(p.state)
    {
      if !iface {
        return;
      }
      if !TagAccepted(sessionType, tag) {
        return;
      }
      link := link.(config := true);
      if q == InvalidQueue {
        link := link.(queue := false);
        link := link.(config := false);
        return;
      }
      link := link.(queue := q == ValidQueue);
      link := link.(iface := true);
      Report(SessionChanged);
    }

    /** A new configuration of an LE Audio offload session; ports do not listen to it. */
    method ReportAudioConfigChanged(tag: ConfigTag)
      modifies this`link
      ensures link == if tag == leAudioConfig && TagAccepted(sessionType, tag)
                      then old(link).(config := true) else old(link)
    {
      if (sessionType != LE_AUDIO_HARDWARE_OFFLOAD_ENCODING_DATAPATH
          && sessionType != LE_AUDIO_HARDWARE_OFFLOAD_DECODING_DATAPATH) {
        return;
      }
      if tag != leAudioConfig {
        return;
      }
      link := link.(config := true);
    }

    /** Ending a ready session disables every port registered with it. */
    method OnSessionEnded()
      modifies this`link, observers.Values`state
      ensures link == NO_LINK
      ensures forall p :: p in observers.Values ==>
        p.state == if Ready(sessionType, old(link)) && Registered(p) then DISABLED else old(p.state)
    {
      var toggled := Ready(sessionType, link);
      link := NO_LINK;
      if toggled {
        Report(SessionChanged);
      }
    }
  }
}
