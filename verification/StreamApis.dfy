/**
 The output stream object and its calls (bluetooth/audio/hw/stream_apis.cc), with the port it
 drives (bluetooth/audio/hw/device_port_proxy.cc). A call that waits is cut into atomic pieces;
 each method is one piece and performs the matching action of StreamProtocol. AudioSystem puts
 the pieces of all streams and the messages of the stack together to whole runs.
 */
module StreamApis {
  import opened AudioSession
  import opened StreamProtocol
  import opened Options

  /** The immediate result of a call; a call that has to wait answers later. */
  datatype Code = Zero | EBUSY | EINVAL | Waiting

  class BluetoothStreamOut {
    const port: BluetoothAudioPortAidl
    const frameSize: Positive
    var rendered: nat
    var presented: nat
    var call: Call

    ghost function Value(): Stream
      reads this, port
    {
      Stream(port.cookie, port.sessionType, port.state, frameSize, rendered, presented, call)
    }

    constructor (port: BluetoothAudioPortAidl, frameSize: Positive)
      ensures this.port == port
      ensures Value() == Stream(port.cookie, port.sessionType, port.state, frameSize, 0, 0, Idle)
    {
      this.port, this.frameSize := port, frameSize;
      rendered, presented, call := 0, 0, Idle;
    }

    // -------------------------------------------------------- the port

    /** Start looks at the port; only a STANDBY port goes on. */
    method StartLooks() returns (ok: bool)
      requires call.StartEntering?
      modifies this`call
      ensures ok == (port.state == STANDBY) && Value() == StreamStep(old(Value()), StartRead(ok))
    {
      var caller := call.caller;
      ok := port.state == STANDBY;
      if ok {
        call := StartSetting(caller);
      } else {
        FinishStart(caller, false);
      }
    }

    /** Start sets the port, whatever has become of it since the look. */
    method StartSets()
      requires call.StartSetting?
      modifies this`call, port`state
      ensures Value() == StreamStep(old(Value()), StartSet)
    {
      port.state := STARTING;
      call := StartPending(call.caller);
    }

    method SuspendLooks() returns (ok: bool)
      requires call.SuspendEntering?
      modifies this`call, port`state
      ensures ok == (old(port.state) == STARTED) && Value() == StreamStep(old(Value()), SuspendRead(ok))
    {
      ok := port.state == STARTED;
      if ok {
        call := SuspendSetting(call.param);
      } else {
        FinishSuspend(call.param);
      }
    }

    method SuspendSets()
      requires call.SuspendSetting?
      modifies this`call, port`state
      ensures Value() == StreamStep(old(Value()), SuspendSet)
    {
      port.state := SUSPENDING;
      call := SuspendPending(call.param);
    }

    method Stop()
      modifies port`state
      ensures Value() == old(Value()).(state := DISABLED)
    {
      port.state := DISABLED;
    }

    /** Start asks its session, whose stack answers `stackOk`; a refusal leaves the port STARTING. */
    method StartAsks(session: BluetoothAudioSession, stackOk: bool) returns (ok: bool)
      requires call.StartPending?
      modifies this`call
      ensures ok == (Ready(session.sessionType, session.link) && stackOk)
      ensures Value() == StreamStep(old(Value()), StartIssue(ok))
    {
      var caller := call.caller;
      ok := session.StartStream(stackOk);
      if ok {
        call := StartWaiting(caller);
      } else {
        FinishStart(caller, false);
      }
    }

    method StartWoken() returns (ok: bool)
      requires call.StartWaiting?
      modifies this`call
      ensures StreamEnabled(old(Value()), StartWake(ok), false)
      ensures Value() == StreamStep(old(Value()), StartWake(ok))
    {
      ok := port.state == STARTED;
      FinishStart(call.caller, ok);
    }

    method FinishStart(caller: Caller, ok: bool)
      modifies this`call
      ensures Value() == EndStart(old(Value()), caller, ok)
    {
      match caller {
        case FromResume => call := Idle;
        case FromWrite(bytes) => call := if ok then WriteAdmitted(bytes) else WriteRefused(bytes);
      }
    }

    method SuspendAsks(session: BluetoothAudioSession, stackOk: bool) returns (ok: bool)
      requires call.SuspendPending?
      modifies this`call, port`state
      ensures ok == (Ready(session.sessionType, session.link) && stackOk)
      ensures Value() == StreamStep(old(Value()), SuspendIssue(ok))
    {
      ok := session.SuspendStream(stackOk);
      if ok {
        call := SuspendWaiting(call.param);
      } else {
        FinishSuspend(call.param);
      }
    }

    method SuspendWoken() returns (ok: bool)
      requires call.SuspendWaiting?
      modifies this`call, port`state
      ensures StreamEnabled(old(Value()), SuspendWake(ok), false)
      ensures Value() == StreamStep(old(Value()), SuspendWake(ok))
    {
      ok := port.state == STANDBY;
      FinishSuspend(call.param);
    }

    method FinishSuspend(param: bool)
      modifies this`call, port`state
      ensures Value() == EndSuspend(old(Value()), param)
    {
      if param {
        port.state := DISABLED;
      }
      call := Idle;
    }

    // -------------------------------------------------------- the calls

    method OutResume() returns (code: Code)
      requires call == Idle
      modifies this`call
      ensures Value() == StreamStep(old(Value()), Resume)
      ensures code == match old(port.state)
                      case STANDBY => Waiting
                      case STARTED => Zero
                      case DISABLED => EINVAL
                      case _ => EBUSY
    {
      if port.state == STANDBY {
        call := StartEntering(FromResume);
        code := Waiting;
      } else if port.state == STARTING || port.state == SUSPENDING {
        code := EBUSY;
      } else if port.state == DISABLED {
        code := EINVAL;
      } else {
        code := Zero;
      }
    }

    /** out_pause and out_standby. */
    method OutPause() returns (code: Code)
      requires call == Idle
      modifies this
      ensures Value() == StreamStep(old(Value()), Pause)
      ensures code == match old(port.state)
                      case STARTED => Waiting
                      case STARTING => EBUSY
                      case SUSPENDING => EBUSY
                      case _ => Zero
    {
      if port.state == STARTED {
        rendered := 0;
        call := SuspendEntering(false);
        code := Waiting;
      } else if port.state == STARTING || port.state == SUSPENDING {
        code := EBUSY;
      } else {
        code := Zero;
      }
    }

    /** out_set_parameters; `closing` stands for closing=true or exiting=1, which act alike. */
    method OutSetParameters(suspended: Option<bool>, closing: bool)
      requires call == Idle
      modifies this, port`state
      ensures Value() == StreamStep(old(Value()), SetParameters(suspended, closing))
    {
      if suspended.Some? && IsA2dp(port.sessionType) {
        if suspended.value {
          rendered := 0;
          if port.state == STARTED {
            // the rest follows when the suspension ends: the port is then disabled, and closing
            // finds nothing to do
            call := SuspendEntering(true);
            return;
          } else if port.state != DISABLED {
            Stop();
          }
        } else if port.state == DISABLED {
          port.state := STANDBY;
        }
      }
      if closing && port.state != DISABLED {
        rendered, presented := 0, 0;
        Stop();
      }
    }

    /** out_write looks at the port: it goes on to WriteData, or resumes first. */
    method OutWrite(bytes: nat)
      requires call == Idle
      modifies this`call
      ensures Value() == StreamStep(old(Value()), Write(bytes))
    {
      call := if port.state != STARTED then WriteResuming(bytes) else WriteAdmitted(bytes);
    }

    /** The out_resume inside out_write, up to the point where it waits or returns. */
    method OutWriteResume()
      requires call.WriteResuming?
      modifies this`call
      ensures Value() == StreamStep(old(Value()), WriteResume)
    {
      var bytes := call.bytes;
      if port.state == STANDBY {
        call := StartEntering(FromWrite(bytes));
      } else if port.state == STARTED {
        call := WriteAdmitted(bytes);
      } else {
        call := WriteRefused(bytes);
      }
    }

    /** A refused write drops its data on a disabled port and writes nothing on another. */
    method FinishRefusedWrite() returns (written: nat)
      requires call.WriteRefused?
      modifies this`call
      ensures StreamEnabled(old(Value()), WriteReturn(written), false)
      ensures Value() == StreamStep(old(Value()), WriteReturn(written))
    {
      written := if port.state == DISABLED then call.bytes else 0;
      call := Idle;
    }

    /** WriteData has returned `written`; the requested bytes are counted, not the written ones. */
    method FinishWrite(written: nat)
      requires call.WriteAdmitted? && written <= call.bytes
      modifies this, port`state
      ensures Value() == StreamStep(old(Value()), WriteData(written))
    {
      if written != 0 {
        var frames := call.bytes / frameSize;
        rendered := rendered + frames;
        presented := presented + frames;
      }
      call := Idle;
    }

    /** Performs any action that the protocol allows. The outcome that the action names is the one
        the object computes. */
    method Perform(a: Action, session: BluetoothAudioSession)
      requires StreamEnabled(Value(), a, Ready(session.sessionType, session.link))
      modifies this, port`state
      ensures Value() == StreamStep(old(Value()), a)
    {
      match a {
        case Resume =>
          var code := OutResume();
        case Pause =>
          var code := OutPause();
        case SetParameters(suspended, closing) =>
          OutSetParameters(suspended, closing);
        case Write(bytes) =>
          OutWrite(bytes);
        case WriteResume =>
          OutWriteResume();
        case StartRead(ok) =>
          var goesOn := StartLooks();
          assert goesOn == ok;
        case StartSet =>
          StartSets();
        case StartIssue(ok) =>
          var answer := StartAsks(session, ok);
          assert answer == ok;
        case StartWake(ok) =>
          var woken := StartWoken();
          assert woken == ok;
        case SuspendRead(ok) =>
          var goesOn := SuspendLooks();
          assert goesOn == ok;
        case SuspendSet =>
          SuspendSets();
        case SuspendIssue(ok) =>
          var answer := SuspendAsks(session, ok);
          assert answer == ok;
        case SuspendWake(ok) =>
          var woken := SuspendWoken();
          assert woken == ok;
        case WriteReturn(n) =>
          var written := FinishRefusedWrite();
          assert written == n;
        case WriteData(n) =>
          FinishWrite(n);
      }
    }
  }

  // ------------------------------------------------------------ positions

  const MINIMUM_DELAY_MS: nat := 50
  const MAXIMUM_DELAY_MS: nat := 1000
  const EXTRA_AUDIO_SYNC_MS: nat := 200

  /** What the stack reports: whether the query succeeded, its delay and its byte counter. */
  datatype Report = Report(ok: bool, delayNs: nat, bytes: nat)

  function DelayMs(r: Report, framesCount: nat, sampleRate: Positive): nat {
    var ms := r.delayNs / 1000000;
    if r.ok && MINIMUM_DELAY_MS < ms < MAXIMUM_DELAY_MS then ms
    else framesCount * 1000 / sampleRate + EXTRA_AUDIO_SYNC_MS
  }

  /** out_calculate_feeding_delay_ms: a byte counter ahead of ours, or too far behind, is not
      believed. */
  method FeedingPosition(r: Report, framesCount: nat, sampleRate: Positive, frameSize: Positive, presented: nat)
    returns (frames: nat, latency: nat)
    ensures latency == DelayMs(r, framesCount, sampleRate) * sampleRate / 1000
    ensures r.ok && 51 * 1000000 <= r.delayNs < 1000 * 1000000 ==> latency == r.delayNs / 1000000 * sampleRate / 1000
    ensures !r.ok || r.delayNs < 51 * 1000000 || r.delayNs >= 1000 * 1000000 ==>
      latency == (framesCount * 1000 / sampleRate + 200) * sampleRate / 1000
    ensures var reported := r.bytes / frameSize;
      var counted := if reported <= presented <= reported + latency then reported else presented;
      frames == if counted > latency then counted - latency else 0
    ensures presented - 2 * latency <= frames
    ensures if presented >= latency then frames <= presented - latency else frames == 0
  {
    latency := DelayMs(r, framesCount, sampleRate) * sampleRate / 1000;
    frames := r.bytes / frameSize;
    if presented < frames {
      frames := presented;
    } else if presented - frames > latency {
      frames := presented;
    }
    if frames > latency {
      frames := frames - latency;
    } else {
      frames := 0;
    }
  }
}
