/**
 Opened-stream accounting (audio/hal/Device.cpp, audio/hal/StreamOut.cpp, audio/hal/StreamIn.cpp).
 A stream object closes its HAL stream in close() from interface version 6 on, and in its
 destructor before that; the device may be closed only when no stream is open.
 */
module HalDevice {

  datatype Result = OK | INVALID_STATE

  /** How often HAL stream `h` has been closed by the time its object is in the given state: once
      when the object is gone or, from version 6 on, stopped. */
  predicate ClosedAsDue(version: nat, stopped: map<nat, bool>, closes: map<nat, nat>) {
    stopped.Keys <= closes.Keys
    && forall h :: h in closes ==>
         closes[h] == if h !in stopped then 1 else if version >= 6 && stopped[h] then 1 else 0
  }

  lemma DestroyedAsDue(version: nat, stopped: map<nat, bool>, closes: map<nat, nat>, h: nat)
    requires ClosedAsDue(version, stopped, closes) && h in stopped
    ensures ClosedAsDue(version, stopped - {h}, closes[h := 1])
  {
  }

  /** The HAL streams never closed. */
  ghost function NotClosed(closes: map<nat, nat>): set<nat> {
    set h | h in closes && closes[h] == 0
  }

  lemma OneMore(closes: map<nat, nat>, h: nat)
    requires h !in closes
    ensures NotClosed(closes[h := 0]) == NotClosed(closes) + {h}
    ensures |NotClosed(closes[h := 0])| == |NotClosed(closes)| + 1
  {
    assert NotClosed(closes[h := 0]) == NotClosed(closes) + {h};
  }

  lemma OneLess(closes: map<nat, nat>, h: nat)
    requires h in closes && closes[h] == 0
    ensures NotClosed(closes[h := 1]) == NotClosed(closes) - {h}
    ensures |NotClosed(closes[h := 1])| == |NotClosed(closes)| - 1
  {
    assert NotClosed(closes[h := 1]) == NotClosed(closes) - {h};
  }

  lemma OpenedAsDue(version: nat, stopped: map<nat, bool>, closes: map<nat, nat>, h: nat)
    requires ClosedAsDue(version, stopped, closes) && h !in closes
    ensures ClosedAsDue(version, stopped[h := false], closes[h := 0])
  {
  }

  class Device {
    const version: nat
    var isClosed: bool
    var openedStreamsCount: nat

    // Live stream objects, by HAL stream, with their mStopWriteThread / mStopReadThread flag.
    var stopped: map<nat, bool>

    // The HAL's side: how often each stream, and the device, has been closed.
    var closes: map<nat, nat>
    var deviceCloses: nat

    // The streams opened although the device had been closed.
    ghost var late: set<nat>

    /** The HAL streams still open. */
    ghost function OpenStreams(): set<nat>
      reads this
    {
      NotClosed(closes)
    }

    ghost predicate Valid()
      reads this
    {
      openedStreamsCount == |OpenStreams()|
      && ClosedAsDue(version, stopped, closes)
      && deviceCloses == (if isClosed then 1 else 0)
      && late <= closes.Keys && (!isClosed ==> late == {})
      && (isClosed ==> OpenStreams() <= late)
    }

    constructor (version: nat)
      ensures Valid() && this.version == version && closes == map[] && deviceCloses == 0
      ensures !isClosed && late == {}
    {
      this.version, late := version, {};
      isClosed, openedStreamsCount, stopped, closes, deviceCloses := false, 0, map[], map[], 0;
    }

    /** openOutputStreamCore and openInputStreamCore: counted only when the HAL agrees. */
    method OpenStream(h: nat, halAgrees: bool)
      requires Valid() && h !in closes
      modifies this
      ensures Valid() && isClosed == old(isClosed)
      ensures closes == if halAgrees then old(closes)[h := 0] else old(closes)
      ensures stopped == if halAgrees then old(stopped)[h := false] else old(stopped)
      ensures late == if halAgrees && isClosed then old(late) + {h} else old(late)
      ensures isClosed && h in OpenStreams() <==> old(isClosed) && halAgrees
    {
      if halAgrees {
        OpenedAsDue(version, stopped, closes, h);
        OneMore(closes, h);
        late := if isClosed then late + {h} else late;
        stopped, closes := stopped[h := false], closes[h := 0];
        openedStreamsCount := openedStreamsCount + 1;
      }
    }

    /** closeOutputStream and closeInputStream; the count is never 0 here. */
    method CloseHalStream(h: nat)
      requires h in closes && closes[h] == 0 && openedStreamsCount == |OpenStreams()|
      modifies this`closes, this`openedStreamsCount
      ensures closes == old(closes)[h := 1] && openedStreamsCount == |OpenStreams()|
    {
      OneLess(closes, h);
      closes := closes[h := closes[h] + 1];
      assert openedStreamsCount != 0;
      openedStreamsCount := openedStreamsCount - 1;
    }

    /** close() of a stream: only the first call does anything. */
    method CloseStream(h: nat) returns (r: Result)
      requires Valid() && h in stopped
      modifies this
      ensures Valid() && isClosed == old(isClosed)
      ensures r == if old(stopped[h]) then INVALID_STATE else OK
      ensures stopped == old(stopped)[h := true] && late == old(late)
      ensures closes == if r == OK && version >= 6 then old(closes)[h := 1] else old(closes)
    {
      if stopped[h] {
        assert stopped == stopped[h := true];
        return INVALID_STATE;
      }
      stopped := stopped[h := true];
      if version >= 6 {
        CloseHalStream(h);
      }
      return OK;
    }

    /** The destructor: by its end the HAL stream has been closed exactly once. */
    method DestroyStream(h: nat)
      requires Valid() && h in stopped
      modifies this
      ensures Valid() && isClosed == old(isClosed)
      ensures stopped == old(stopped) - {h} && late == old(late)
      ensures closes == old(closes)[h := 1]
    {
      var r := CloseStream(h);
      DestroyedAsDue(version, stopped, closes, h);
      if version < 6 {
        CloseHalStream(h);
      } else {
        assert closes == closes[h := 1];
      }
      stopped := stopped - {h};
      assert closes == old(closes)[h := 1];
    }

    /** The HAL device is closed at most once, and only with no stream open. */
    method DoClose() returns (r: Result)
      requires Valid()
      modifies this`isClosed, this`deviceCloses
      ensures Valid()
      ensures deviceCloses == old(deviceCloses) + if r == OK then 1 else 0
      ensures r == OK <==> !old(isClosed) && OpenStreams() == {}
      ensures r == INVALID_STATE ==> isClosed == old(isClosed)
    {
      if isClosed || openedStreamsCount != 0 {
        return INVALID_STATE;
      }
      isClosed := true;
      deviceCloses := deviceCloses + 1;
      return OK;
    }

    /** On a closed device a stream can be open only if it was opened after the close: none is open
        exactly when all of those have been closed again, and in particular when there are none. */
    lemma OpenOnClosedDevice()
      requires Valid() && isClosed
      ensures OpenStreams() == {} <==> forall h :: h in late ==> closes[h] == 1
      ensures late == {} ==> OpenStreams() == {}
    {
      if OpenStreams() != {} {
        var h :| h in OpenStreams();
        assert h in late && closes[h] == 0;
      }
      assert forall h :: h in late && closes[h] == 0 ==> h in OpenStreams();
    }

    /** Streams hold the device, so it is destroyed after all of them: every HAL stream and the
        HAL device have then been closed exactly once. */
    method Destroy()
      requires Valid() && stopped == map[]
      modifies this
      ensures Valid() && deviceCloses == 1
      ensures closes == old(closes) && forall h :: h in closes ==> closes[h] == 1
    {
      assert OpenStreams() == {};
      var r := DoClose();
    }
  }

  /** A stream is open on a device that has been closed. */
  method OpenAfterClose() returns (d: Device)
    ensures fresh(d) && d.Valid() && d.isClosed && 0 in d.OpenStreams()
  {
    d := new Device(7);
    assert d.OpenStreams() == {};
    var r := d.DoClose();
    d.OpenStream(0, true);
  }
}
