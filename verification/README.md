# Verified model of the audio and image core

Dafny models of the parts of this repository where arithmetic, state and concurrency meet:

- **A2DP codec negotiation** (`A2dpBits`, `A2dpCodec`, `SbcCodec`, `AacCodec`, `CodecFactory`):
  big-endian bit fields written in place, the SBC frame length, bit rate and bitpool search of
  section 12.9 of the Bluetooth A2DP specification, building a configuration from remote
  capabilities and a hint, and parsing it back.
- **Sessions, ports and streams** (`AudioSession`, `StreamProtocol`, `CallOutcomes`,
  `FrameCounts`, `ExampleRuns`, `StreamApis`, `AudioSystem`): sessions with their observer tables, the five-state port, and output
  streams on top. `StreamProtocol` is one state machine whose steps interleave freely; its
  properties hold in every run. `StreamApis` holds the stream object, each of its methods one atomic
  piece of a call; `AudioSystem` puts all objects together and shows that whatever they do, step by
  step, is such a run; `ExampleRuns.StartOneStream` drives them to a started stream.
- **PCM data path** (`PcmPath`): the polling loops of one writer and one reader over a bounded
  queue, pass by pass, as runs and as methods that extend a run.
- **Sparse image expander** (`SparseImage`): the chunk loop and copy loop against a recursive
  decoder, for every schedule of short transfers.
- **Smaller cores**: LE Audio ASE matching (`AseConfiguration`, `AseLaws`), audio parameter strings
  (`AudioParams`), opened-stream accounting (`HalDevice`), the single-bit test of the codec
  database (`CodecsDb`).

Objects that the source updates in place are classes; each method is proved against a function or
predicate on values, and the properties are proved of those. `dafny verify dfyconfig.toml` checks
the project.

Where the environment decides, it is a parameter: the answers of the stack and the order of its
messages (events of a run), what the other side of a queue does between two passes and when
readiness is lost (`Turn`), how much each system call transfers (`schedule`), the stored LE Audio
settings, and the stack's position report.

## What the code does, where one might expect otherwise

The model follows the code in each of these, and the named members state the consequence.

- The remote's maximum bitpool is combined with the local one by a maximum
  (bluetooth/audio/hal/A2dpOffloadCodecSbc.cpp:489), so without a limiting hint 250 is always built:
  `SbcCodec.MaximumWithinRemote`, `SbcCodec.RemoteMaximumExceeded`. A low limiting hint can leave
  the minimum above the maximum: `SbcCodec.BitpoolRangeNotEmpty`, `SbcCodec.BitpoolRangeEmpty`.
- A stereo hint for SBC is the bitwise or of two bit numbers, `7 | 6`, which is joint stereo alone:
  `SbcCodec.StereoHintIsNoHint`.
- A hinted AAC bit rate is cut to 23 bits: `AacCodec.HintedBitrateKept`, `AacCodec.HintedBitrateLost`.
- The size of a RAW chunk is a 32-bit product, so a chunk of 2^20 blocks or more is cut short:
  `SparseImage.AcceptedImageSizes`, `SparseImage.RawChunkCutShort`.
- A Start that fails leaves the port STARTING, and a later SUCCESS starts it:
  `StreamProtocol.FailedStartCanStillStart`, `ExampleRuns.RefusedStartStarts`,
  `ExampleRuns.TimedOutStartStarts`.
- A session restarted with an invalid queue stops being ready without telling its ports:
  `StreamProtocol.ReadinessLost`, `ExampleRuns.RestartTellsNobody`.
- out_write counts the requested bytes, not the written ones: `FrameCounts.CountsRequests`,
  `ExampleRuns.PresentedIsNotDelivered`.
- LE Audio channel counts always match: `AseConfiguration.AnswersCounted`,
  `AseConfiguration.StereoForMonoDevice`. 44.1 kHz has no entry in the frequency table and never
  matches: `AseConfiguration.FrequencyMatches`, `AseConfiguration.AnswersComplete`,
  `AseConfiguration.EntryAt44100Missed`.
- Start and Suspend look at the port's state and assign it later, so a session that ends in between
  leaves a port STARTING that should be DISABLED: `StreamProtocol.SetsDisabledPort`,
  `ExampleRuns.EndedSessionStarting`.
- A stream can be opened on a HAL device that has been closed: `HalDevice.Device.OpenOnClosedDevice`,
  `HalDevice.OpenAfterClose`.

## Model

| member | source | states |
|---|---|---|
| `A2dpBits.WithBitAt` | bluetooth/audio/hal/A2dpBits.h:50-56 | writing one bit of the byte vector changes that bit and no other, for every pair of positions |
| `A2dpBits.BitsDetermineVector` | bluetooth/audio/hal/A2dpBits.h:39-41 | two vectors of one length with the same bits are equal, so statements about bits fix the bytes |
| `A2dpBits.ValueOfDigits` | bluetooth/audio/hal/A2dpBits.h:58-61 | the digits that the range writer stores, for any signed value, are the number modulo 2^len |
| `A2dpBits.ValueIsPowerOfTwo` | bluetooth/audio/hal/A2dpBits.h:63-71 | the value of a range is 2^i exactly when the i-th digit from the right is its only set digit |
| `A2dpBits.FieldsEqual` | bluetooth/audio/hal/A2dpBits.h:43-48 | ranges with the same value hold the same bits: reading a range loses nothing |
| `A2dpBits.GetRange` | bluetooth/audio/hal/A2dpBits.h:43-48 | the reading loop returns the unsigned big-endian number of the range |
| `A2dpBits.FindActiveBit` | bluetooth/audio/hal/A2dpBits.h:63-71 | returns p exactly when p is the only set bit of the range, and -1 when none or several are set |
| `A2dpBits.ByteVector.SetBit` | bluetooth/audio/hal/A2dpBits.h:50-56 | sets or clears one bit in place; every other bit of the vector is unchanged |
| `A2dpBits.ByteVector.SetRange` | bluetooth/audio/hal/A2dpBits.h:58-61 | the range then reads as the value modulo 2^len; every bit outside it is unchanged |
| `SbcCodec.FrameLengthFromBits` | bluetooth/audio/hal/A2dpOffloadCodecSbc.cpp:223-234 | summing the bits and rounding once equals the frame length of section 12.9 of the A2DP specification, which rounds only the part after the scale factors |
| `SbcCodec.BitrateMonotone` | bluetooth/audio/hal/A2dpOffloadCodecSbc.cpp:236-243 | a larger bitpool never lowers the bit rate, for every coding shape |
| `SbcCodec.BitrateFits` | bluetooth/audio/hal/A2dpOffloadCodecSbc.cpp:236-243 | the product of frame bits and frequency stays below 2^31 for every shape and bitpool |
| `SbcCodec.GetFrameSize` | bluetooth/audio/hal/A2dpOffloadCodecSbc.cpp:223-234 | the byte vector's frame length is that of section 12.9 for the shape its bits select |
| `SbcCodec.GetBitrate` | bluetooth/audio/hal/A2dpOffloadCodecSbc.cpp:236-243 | the bit rate of section 12.9 for the shape the bits select; no division by zero |
| `SbcCodec.LargestBelowIs` | bluetooth/audio/hal/A2dpOffloadCodecSbc.cpp:245-254 | a bitpool whose rate is below the target while its successor's is not is the largest one below it |
| `SbcCodec.GetBitpool` | bluetooth/audio/hal/A2dpOffloadCodecSbc.cpp:245-254 | the bitwise search returns the largest bitpool in 0..255 whose rate is below the target, or 0, clamped to 2..250 |
| `SbcCodec.ParseStatus` | bluetooth/audio/hal/A2dpOffloadCodecSbc.cpp:323-372 | parsing answers OK exactly on well-formed configurations within the local capabilities |
| `SbcCodec.StereoHintIsNoHint` | bluetooth/audio/hal/A2dpOffloadCodecSbc.cpp:426-443 | a stereo hint selects what no hint selects; plain stereo is selected iff it is offered and joint stereo is not |
| `SbcCodec.BuiltIsValid` | bluetooth/audio/hal/A2dpOffloadCodecSbc.cpp:396-503 | whatever building accepts, for any remote vector and any hint, parsing accepts |
| `SbcCodec.BuiltFromBothSides` | bluetooth/audio/hal/A2dpOffloadCodecSbc.cpp:411-475 | every bit set outside the bitpool fields is set in the local and in the remote capabilities |
| `SbcCodec.BuiltUnique` | bluetooth/audio/hal/A2dpOffloadCodecSbc.cpp:396-503 | remote capabilities and hint determine the built bytes |
| `SbcCodec.ShapeFromBits` | bluetooth/audio/hal/A2dpOffloadCodecSbc.cpp:131-197 | frequency, block length, subbands and mode of a configuration, bit by bit |
| `SbcCodec.BuiltFrequency` | bluetooth/audio/hal/A2dpOffloadCodecSbc.cpp:411-424 | parsing back gives the hinted frequency if it is 44.1 or 48 kHz and the remote sets its bit; otherwise 44.1 kHz if the remote sets that bit, else 48 kHz |
| `SbcCodec.BuiltMode` | bluetooth/audio/hal/A2dpOffloadCodecSbc.cpp:426-443 | parsing back gives a hinted mono or dual mono mode whose bit the remote sets; otherwise stereo if the remote sets a stereo bit (joint before plain), else dual mono, else mono |
| `SbcCodec.BuiltCoding` | bluetooth/audio/hal/A2dpOffloadCodecSbc.cpp:445-475 | parsing back gives the largest block length and subband count, and loudness, that the remote's bits allow |
| `SbcCodec.BuiltBitpoolsMean` | bluetooth/audio/hal/A2dpOffloadCodecSbc.cpp:477-500 | which bitpools lie below the built minimum and maximum, in terms of the remote's minimum and the hinted rates |
| `SbcCodec.BitrateIsQuotient` | bluetooth/audio/hal/A2dpOffloadCodecSbc.cpp:236-243 | the bit rate is the exact quotient of section 12.9, rounded down |
| `SbcCodec.BitpoolBelow` | bluetooth/audio/hal/A2dpOffloadCodecSbc.cpp:245-254 | a bitpool in 2..250 is at most the one found for a target iff it is 2 or its rate is below the target |
| `SbcCodec.MaxBitrateBelowHint` | bluetooth/audio/hal/A2dpOffloadCodecSbc.cpp:477-502 | building with a limiting hint and parsing back gives a maximum bit rate strictly below the hint iff the hint exceeds the rate at bitpool 2 |
| `SbcCodec.BitpoolRangeNotEmpty` | bluetooth/audio/hal/A2dpOffloadCodecSbc.cpp:479-500 | the built minimum is at most the built maximum iff no limiting hint lies at or below the rate of the remote's own minimum above 2 |
| `SbcCodec.BitpoolRangeEmpty` | bluetooth/audio/hal/A2dpOffloadCodecSbc.cpp:493-500 | a concrete remote and hint for which the built minimum exceeds the built maximum |
| `SbcCodec.MaximumWithinRemote` | bluetooth/audio/hal/A2dpOffloadCodecSbc.cpp:488-500 | the built maximum respects the remote's usable maximum iff that is 250 or a limiting hint rules out the next larger bitpool |
| `SbcCodec.RemoteMaximumExceeded` | bluetooth/audio/hal/A2dpOffloadCodecSbc.cpp:488-489 | a concrete remote with maximum 53 for which 250 is built |
| `SbcCodec.A2dpOffloadCodecSbc.constructor` | bluetooth/audio/hal/A2dpOffloadCodecSbc.cpp:260-296 | the bit-by-bit construction gives exactly the bytes 3F FF 02 FA |
| `SbcCodec.A2dpOffloadCodecSbc.ParseConfiguration` | bluetooth/audio/hal/A2dpOffloadCodecSbc.cpp:318-394 | returns the status of the first failing check, and on OK the parameters that the bits denote |
| `SbcCodec.A2dpOffloadCodecSbc.ChooseFrequency` | bluetooth/audio/hal/A2dpOffloadCodecSbc.cpp:411-424 | the hinted frequency, else 44.1 kHz, else 48 kHz, the first that both sides offer |
| `SbcCodec.A2dpOffloadCodecSbc.ChooseMode` | bluetooth/audio/hal/A2dpOffloadCodecSbc.cpp:426-443 | the hinted mode, else joint stereo, stereo, dual, mono, the first that both sides offer |
| `SbcCodec.A2dpOffloadCodecSbc.ChooseBlocks` | bluetooth/audio/hal/A2dpOffloadCodecSbc.cpp:445-456 | the longest block length that both sides offer |
| `SbcCodec.A2dpOffloadCodecSbc.ChooseSubbands` | bluetooth/audio/hal/A2dpOffloadCodecSbc.cpp:458-465 | eight subbands before four, the first that both sides offer |
| `SbcCodec.A2dpOffloadCodecSbc.ChooseAllocation` | bluetooth/audio/hal/A2dpOffloadCodecSbc.cpp:467-475 | loudness before SNR, the first that both sides offer |
| `SbcCodec.A2dpOffloadCodecSbc.SelectFields` | bluetooth/audio/hal/A2dpOffloadCodecSbc.cpp:411-475 | succeeds iff every field has a bit offered by both sides; then each field holds its most preferred such bit alone |
| `SbcCodec.A2dpOffloadCodecSbc.ChooseBitpools` | bluetooth/audio/hal/A2dpOffloadCodecSbc.cpp:477-497 | limits computed from the vector before its bitpool fields are written: remote limits or 2 and 250, local ones, then the hint |
| `SbcCodec.WriteBitpools` | bluetooth/audio/hal/A2dpOffloadCodecSbc.cpp:499-500 | both bitpool fields read back as written and the selection bits are untouched |
| `SbcCodec.A2dpOffloadCodecSbc.BuildConfiguration` | bluetooth/audio/hal/A2dpOffloadCodecSbc.cpp:396-503 | succeeds iff buildable; the bytes are then the one built configuration; a remote vector of wrong length leaves the output alone |
| `AacCodec.ParseStatus` | bluetooth/audio/hal/A2dpOffloadCodecAac.cpp:249-281 | parsing answers OK exactly on well-formed configurations within the local capabilities |
| `AacCodec.BuiltIsValid` | bluetooth/audio/hal/A2dpOffloadCodecAac.cpp:299-371 | whatever building accepts, parsing accepts |
| `AacCodec.BuiltFromBothSides` | bluetooth/audio/hal/A2dpOffloadCodecAac.cpp:314-355 | every object type, frequency and channel bit set is set on both sides |
| `AacCodec.BuiltUnique` | bluetooth/audio/hal/A2dpOffloadCodecAac.cpp:299-371 | remote capabilities and hint determine the built bytes |
| `AacCodec.BuiltFrequency` | bluetooth/audio/hal/A2dpOffloadCodecAac.cpp:323-342 | parsing back gives the hinted frequency if it is 44.1 or 48 kHz and the remote sets its bit; otherwise 48 kHz if the remote sets that bit, else 44.1 kHz |
| `AacCodec.BuiltParameters` | bluetooth/audio/hal/A2dpOffloadCodecAac.cpp:299-371 | channels, object type and bit rates that parsing back gives, from the remote's bits and the hint |
| `AacCodec.HintedBitrateKept` | bluetooth/audio/hal/A2dpOffloadCodecAac.cpp:363-368 | building and parsing back keeps the hinted maximum bit rate iff it is in 0..2^23-1 |
| `AacCodec.HintedBitrateLost` | bluetooth/audio/hal/A2dpOffloadCodecAac.cpp:363-368 | a hint of 2^23 bit/s reads back as 0 |
| `AacCodec.ChooseBitrate` | bluetooth/audio/hal/A2dpOffloadCodecAac.cpp:363-367 | the smaller of a positive hint and a local limit, whichever of them is set |
| `AacCodec.A2dpOffloadCodecAac.constructor` | bluetooth/audio/hal/A2dpOffloadCodecAac.cpp:197-221 | the bit-by-bit construction gives exactly the bytes C0 01 8C 80 00 00 |
| `AacCodec.A2dpOffloadCodecAac.ParseConfiguration` | bluetooth/audio/hal/A2dpOffloadCodecAac.cpp:244-297 | returns the status of the first failing check, and on OK the parameters that the bits denote |
| `AacCodec.A2dpOffloadCodecAac.ChooseObjectType` | bluetooth/audio/hal/A2dpOffloadCodecAac.cpp:314-321 | MPEG-2 AAC LC before MPEG-4 AAC LC, the first that both sides offer |
| `AacCodec.A2dpOffloadCodecAac.ChooseFrequency` | bluetooth/audio/hal/A2dpOffloadCodecAac.cpp:323-342 | the hinted frequency, else 96, 88.2, 48, 44.1 kHz, the first that both sides offer |
| `AacCodec.A2dpOffloadCodecAac.ChooseChannels` | bluetooth/audio/hal/A2dpOffloadCodecAac.cpp:344-355 | the hinted channels, else stereo, else mono, the first that both sides offer |
| `AacCodec.A2dpOffloadCodecAac.SelectFields` | bluetooth/audio/hal/A2dpOffloadCodecAac.cpp:314-355 | succeeds iff every field has a bit offered by both sides; then each field holds its most preferred such bit alone |
| `AacCodec.A2dpOffloadCodecAac.WriteVbr` | bluetooth/audio/hal/A2dpOffloadCodecAac.cpp:359-361 | variable bit rate iff the hint sets no minimum and both sides support it; nothing else changes |
| `AacCodec.WriteBitrate` | bluetooth/audio/hal/A2dpOffloadCodecAac.cpp:368 | the bit rate field reads back modulo 2^23; nothing else changes |
| `AacCodec.A2dpOffloadCodecAac.WriteRates` | bluetooth/audio/hal/A2dpOffloadCodecAac.cpp:357-368 | writes variable bit rate and bit rate without disturbing the selection |
| `AacCodec.A2dpOffloadCodecAac.BuildConfiguration` | bluetooth/audio/hal/A2dpOffloadCodecAac.cpp:299-371 | succeeds iff buildable; the bytes are then the one built configuration |
| `CodecFactory.FindRemote` | bluetooth/audio/hal/A2dpOffloadCodecFactory.cpp:76-78 | an entry of the codec; none iff no entry names it |
| `CodecFactory.FoundIsFirst` | bluetooth/audio/hal/A2dpOffloadCodecFactory.cpp:76-78 | the entry found is the first one of the codec |
| `CodecFactory.WithoutKeepsOrder` | bluetooth/audio/hal/A2dpOffloadCodecFactory.cpp:70-73 | leaving the hinted codec out keeps the others in rank order, for lists of any length |
| `CodecFactory.TryOrderPermutes` | bluetooth/audio/hal/A2dpOffloadCodecFactory.cpp:65-73 | moving the hinted codec to the front tries every ranked codec exactly once |
| `CodecFactory.ChosenFollowsHint` | bluetooth/audio/hal/A2dpOffloadCodecFactory.cpp:65-93 | a usable hinted codec is the answer; if it is not usable, the first ranked codec that is |
| `CodecFactory.ChosenEntry` | bluetooth/audio/hal/A2dpOffloadCodecFactory.cpp:76-93 | the answer has the seid of the first remote entry of its codec, and bytes and parameters built for that entry |
| `CodecFactory.ChosenUnique` | bluetooth/audio/hal/A2dpOffloadCodecFactory.cpp:75-93 | the answer depends only on the request: bytes left by failed attempts cannot show |
| `CodecFactory.A2dpOffloadCodecFactory.BuildAndParse` | bluetooth/audio/hal/A2dpOffloadCodecFactory.cpp:80-88 | builds and parses back; the source's assertion that the parse succeeds is proved |
| `CodecFactory.A2dpOffloadCodecFactory.TryCodec` | bluetooth/audio/hal/A2dpOffloadCodecFactory.cpp:75-93 | succeeds iff the remote lists the codec and it builds; otherwise id, seid and parameters are untouched |
| `CodecFactory.A2dpOffloadCodecFactory.GetConfiguration` | bluetooth/audio/hal/A2dpOffloadCodecFactory.cpp:58-96 | succeeds iff some ranked codec is usable; the answer is the first usable one in the order of trial, with its entry's seid and parsed parameters |
| `AudioSession.CookieDecodes` | bluetooth/audio/utils/aidl_session/BluetoothAudioSession.h:55-67 | a cookie of a session's 16-value window decodes to that session, lies in no other window, and is not the undefined cookie |
| `AudioSession.SixteenCookies` | bluetooth/audio/utils/aidl_session/BluetoothAudioSession.h:55-67 | a session has exactly sixteen cookies |
| `AudioSession.BluetoothAudioPortAidl.Callback` | bluetooth/audio/hw/device_port_proxy.cc:253-329 | a port reacts only to its own cookie while in use, by the five-state table of results |
| `AudioSession.BluetoothAudioSession.RegisterStatusCback` | bluetooth/audio/utils/aidl_session/BluetoothAudioSession.cpp:170-193 | hands out the least free cookie of the window; fails iff all 16 are taken; the table grows by that entry alone |
| `AudioSession.BluetoothAudioSession.UnregisterStatusCback` | bluetooth/audio/utils/aidl_session/BluetoothAudioSession.cpp:195-202 | exactly the port with that cookie stops hearing notices; every other registration is kept |
| `AudioSession.BluetoothAudioPortAidl.SetUp` | bluetooth/audio/hw/device_port_proxy.cc:135-178 | works iff the session is ready and one of its 16 cookies is free; the port is then STANDBY and registered under the least free cookie; otherwise the session is unchanged; the session stays valid |
| `AudioSession.BluetoothAudioPortAidl.TearDown` | bluetooth/audio/hw/device_port_proxy.cc:237-251 | the port is no longer in use and its cookie is free; every other registered port stays registered; the session stays valid |
| `AudioSession.BluetoothAudioSession.Report` | bluetooth/audio/utils/aidl_session/BluetoothAudioSession.cpp:328-343 | every port registered under its own cookie handles the notice exactly once, in whatever order the table is walked; other ports keep their state |
| `AudioSession.BluetoothAudioSession.OnSessionStarted` | bluetooth/audio/utils/aidl_session/BluetoothAudioSession.cpp:48-71 | an absent interface or unfit configuration changes nothing; an invalid queue drops queue and configuration and tells nobody; otherwise all registered ports are disabled |
| `AudioSession.BluetoothAudioSession.OnSessionEnded` | bluetooth/audio/utils/aidl_session/BluetoothAudioSession.cpp:73-83 | the link is gone; registered ports are disabled iff the session was ready |
| `StreamProtocol.StepKeepsInv` | bluetooth/audio/utils/aidl_session/BluetoothAudioSession.cpp:170-202 | every step keeps cookies and streams in one-to-one correspondence and rendered frames within presented ones |
| `StreamProtocol.RunKeepsInv` | bluetooth/audio/utils/aidl_session/BluetoothAudioSession.cpp:170-202 | that invariant holds in every state of every run |
| `StreamProtocol.CookiesCorrespond` | bluetooth/audio/utils/aidl_session/BluetoothAudioSession.cpp:170-202 | in every reachable state a stream's cookie is in its session's window, decodes to it, and belongs to no other stream of any session |
| `StreamProtocol.OpenTakesLeastFree` | bluetooth/audio/utils/aidl_session/BluetoothAudioSession.cpp:170-193 | opening takes the least free cookie; it fails iff the session is not ready or all 16 cookies are in use |
| `StreamProtocol.NotifyMoves` | bluetooth/audio/utils/aidl_session/BluetoothAudioSession.cpp:328-343 | in an invariant state a notice reaches exactly the streams of its session |
| `StreamProtocol.RunIsTraced` | bluetooth/audio/hw/device_port_proxy.cc:140-164 | seen from one stream, every step of every run is its own action, a result or change of its session, or nothing |
| `CallOutcomes.ResultMoves` | bluetooth/audio/hw/device_port_proxy.cc:253-314 | over runs, where each result of the stack leads from each state: a start that fails leaves STANDBY, a suspension that fails DISABLED, a started port ignores FAILURE, STANDBY and DISABLED ignore every result |
| `CallOutcomes.FailedStartCanBeRepeated` | bluetooth/audio/hw/device_port_proxy.cc:280-291 | after a start that the stack failed, out_resume can bring the stream to STARTING again |
| `CallOutcomes.CallsBegin` | bluetooth/audio/hw/stream_apis.cc:634-689 | out_resume begins a Start iff the port is STANDBY, out_pause a Suspend iff it is STARTED; otherwise nothing changes |
| `CallOutcomes.ParametersSet` | bluetooth/audio/hw/stream_apis.cc:345-416 | over runs, the state and counters after each combination of A2dpSuspended and closing |
| `CallOutcomes.SuspendReturns` | bluetooth/audio/hw/stream_apis.cc:350-353 | a Suspend from A2dpSuspended=true always ends DISABLED, one from out_pause or out_standby as the stack left the port |
| `CallOutcomes.WriteOutcome` | bluetooth/audio/hw/stream_apis.cc:529-562 | a write ends in WriteData iff the port was STARTED at its first look, or at the look of out_resume inside it, or the Start inside it returned true; otherwise it reports all bytes on a DISABLED port and none on another |
| `CallOutcomes.StartReadies` | bluetooth/audio/utils/aidl_session/BluetoothAudioSession.cpp:48-71 | a session start with interface and suited configuration makes the session ready iff the queue is valid, or absent on a hardware data path; it disables the streams unless the queue is invalid |
| `StreamProtocol.EntersStarted` | bluetooth/audio/hw/device_port_proxy.cc:253-314 | in every run a port enters STARTED only from STARTING, on a SUCCESS of its own session |
| `StreamProtocol.LeavesDisabled` | bluetooth/audio/hw/stream_apis.cc:345-366 | in every run the next step of a DISABLED open port leaves it otherwise iff it is an A2dpSuspended value other than true on an A2DP stream, not undone by closing, or the assignment of a Start or Suspend that has looked at the port before |
| `StreamProtocol.SetsDisabledPort` | bluetooth/audio/hw/device_port_proxy.cc:471-472 | such an assignment meets a DISABLED port only if the session changed, and disabled the port, after that same call had looked at it |
| `ExampleRuns.EndedSessionStarting` | bluetooth/audio/hw/device_port_proxy.cc:471-472 | a concrete run: the session ends between look and assignment, and the port is STARTING on a session that is not ready |
| `StreamProtocol.StartTrueMeans` | bluetooth/audio/hw/device_port_proxy.cc:427-495 | Start returns true only if, within that same call, the session was ready when the request was accepted and a SUCCESS arrived |
| `StreamProtocol.SuspendedDropsWrites` | bluetooth/audio/hw/stream_apis.cc:529-553 | after A2dpSuspended=true and until another value: once that call is over the port is DISABLED, no write reaches WriteData, every write is refused and returns its full byte count |
| `StreamProtocol.SessionEndDisables` | bluetooth/audio/utils/aidl_session/BluetoothAudioSession.cpp:73-83 | ending a ready session disables every stream of it and makes it not ready |
| `StreamProtocol.NoStartAfterSessionEnd` | bluetooth/audio/utils/aidl_session/BluetoothAudioSession.cpp:210-224 | after a ready session ends, no Start on a stream of it returns true until it is ready again |
| `StreamProtocol.ReadinessLost` | bluetooth/audio/utils/aidl_session/BluetoothAudioSession.cpp:48-71 | a session stops being ready only by ending or by a restart without a usable queue; its streams are then disabled unless the queue was invalid |
| `StreamProtocol.SuspendTrueMeans` | bluetooth/audio/hw/device_port_proxy.cc:497-529 | Suspend returns true only if, within that same call, the session was ready when the request was accepted and a SUCCESS arrived |
| `StreamProtocol.FailedStartCanStillStart` | bluetooth/audio/hw/device_port_proxy.cc:471-479 | after a Start that returned false (port no longer STANDBY, refused or timed out, alone or inside a write) and until the next call, the port is STARTED at some point iff it was STARTED as Start returned, or was left STARTING and the first notice of its session is a SUCCESS |
| `ExampleRuns.RestartTellsNobody` | bluetooth/audio/utils/aidl_session/BluetoothAudioSession.cpp:48-71 | a concrete run: a restart with an invalid queue leaves a started stream STARTED on a session that is not ready |
| `ExampleRuns.RefusedStartStarts` | bluetooth/audio/hw/device_port_proxy.cc:471-479 | a concrete run: Start is refused and the port becomes STARTED all the same |
| `ExampleRuns.TimedOutStartStarts` | bluetooth/audio/hw/device_port_proxy.cc:435-438 | a concrete run: the wait of Start times out and the port becomes STARTED all the same |
| `FrameCounts.CountsRequests` | bluetooth/audio/hw/stream_apis.cc:556-562 | in every run each counter is the sum, since its last reset, of the frames requested by writes that wrote anything; it is the sum of the frames written iff each of these writes wrote as many frames as requested |
| `ExampleRuns.PresentedIsNotDelivered` | bluetooth/audio/hw/stream_apis.cc:556-562 | a concrete run in which one byte of a four-byte frame is written and a frame is counted |
| `FrameCounts.StepCounts` | bluetooth/audio/hw/stream_apis.cc:392-416 | both counters are reset exactly by opening and by a closing request that stops the stream, the rendered one also by a pause or A2dpSuspended=true |
| `FrameCounts.RenderedAtMostPresented` | bluetooth/audio/hw/stream_apis.cc:556-562 | in every reachable state no more frames are rendered than presented |
| `AudioSystem.AudioSystem.Perform` | bluetooth/audio/hw/stream_apis.cc:268-689 | every action of a stream call that the protocol allows is performed by the stream and port objects, with the outcome the protocol names; the history stays a run ending in what the objects hold |
| `AudioSystem.AudioSystem.Message` | bluetooth/audio/utils/aidl_session/BluetoothAudioSession.cpp:48-83 | every message of the stack reaches session and port objects as the protocol says; the history stays a run |
| `AudioSystem.AudioSystem.Open` | bluetooth/audio/hw/stream_apis.cc:734-756 | opening works iff the session is ready and has a free cookie; the new stream and port are fresh and all other stream objects stay in place; the history stays a run |
| `AudioSystem.AudioSystem.Close` | bluetooth/audio/hw/stream_apis.cc:847-867 | exactly that stream object and its registration go; the history stays a run |
| `ExampleRuns.StartOneStream` | bluetooth/audio/hw/stream_apis.cc:660-689 | the objects driven from nothing through session start, opening, out_resume and a SUCCESS to a STARTED stream |
| `AudioSystem.AudioSystem.PortsAreApart` | bluetooth/audio/utils/aidl_session/BluetoothAudioSession.h:55-67 | cookies of the port objects lie in the window of their session, decode to it and are never shared |
| `AudioSystem.AudioSystem.CounterIsSum` | bluetooth/audio/hw/stream_apis.cc:556-562 | each counter of a stream object is the sum of the frames requested since its last reset |
| `AudioSystem.AudioSystem.StreamListens` | bluetooth/audio/utils/aidl_session/BluetoothAudioSession.cpp:328-343 | a port object listens to a session iff it belongs to it, and then under its own cookie |
| `StreamApis.BluetoothStreamOut.Stop` | bluetooth/audio/hw/device_port_proxy.cc:531-544 | the port is DISABLED, the counters untouched |
| `StreamApis.FeedingPosition` | bluetooth/audio/hw/stream_apis.cc:52-131 | for every stack report the position lies between max(0, P-2L) and max(0, P-L), P frames presented and L the latency in frames; the exact position is also given |
| `PcmPath.ReadsArePrefixOfWrites` | bluetooth/audio/utils/aidl_session/BluetoothAudioSession.cpp:351-425 | for every interleaving of the passes of one writing and one reading loop, over any number of calls, all bytes returned by reads are a prefix of all bytes accepted from writes, and the queue holds the rest |
| `PcmPath.CallsAreBounded` | bluetooth/audio/utils/aidl_session/BluetoothAudioSession.cpp:351-425 | in every run each call sleeps at most 1000 times and makes a bounded number of passes |
| `PcmPath.WriteEndingHasCause` | bluetooth/audio/utils/aidl_session/BluetoothAudioSession.cpp:360-386 | the last step of the writer before its call was over is the cause of its ending: session not ready, failing queue, no room after 1000 sleeps, or all written |
| `PcmPath.ReadEndingHasCause` | bluetooth/audio/utils/aidl_session/BluetoothAudioSession.cpp:398-423 | the same for the reader |
| `PcmPath.PassMovesAll` | bluetooth/audio/utils/aidl_session/BluetoothAudioSession.cpp:359-386 | a pass on a ready session moves all it can, or sleeps until it has slept 1000 times |
| `PcmPath.OutWritePcmData` | bluetooth/audio/utils/aidl_session/BluetoothAudioSession.cpp:351-388 | exactly buffer[..returned] is added to what writes have put in, while the reader steps in between; the history stays a run in which only this call writes; the last pass alone decides the ending |
| `PcmPath.InReadPcmData` | bluetooth/audio/utils/aidl_session/BluetoothAudioSession.cpp:390-425 | exactly the returned bytes are added to what reads have taken out, while the writer steps in between; the history stays a run in which only this call reads; the last pass alone decides the ending |
| `SparseImage.HeaderBytes` | cmds/simg2img_simple.cpp:67-74 | the file headers that pass, byte by byte |
| `SparseImage.ChunkBytes` | cmds/simg2img_simple.cpp:78-107 | the four kinds of chunk by their first two bytes, when each passes and what it gives |
| `SparseImage.AcceptedImageSizes` | cmds/simg2img_simple.cpp:77-108 | input consumed is 28 plus the sum of total_sz; output is at most 4096 times the non-CRC chunk_sz, with equality iff every RAW chunk has fewer than 2^20 blocks |
| `SparseImage.DecodeSizes` | cmds/simg2img_simple.cpp:77-108 | output length and input end follow from the chunk headers alone |
| `SparseImage.ImageRoundTrip` | cmds/simg2img_simple.cpp:66-111 | expanding any image that encodes a list of parts gives raw bytes verbatim, fills and holes as zero blocks, checksums as nothing |
| `SparseImage.AcceptedIsEncoded` | cmds/simg2img_simple.cpp:66-111 | every accepted image whose RAW chunks have fewer than 2^20 blocks encodes some parts, and their meaning is its output |
| `SparseImage.RawChunkCutShort` | cmds/simg2img_simple.cpp:81-83 | a concrete image of 40 bytes announcing 2^20 raw blocks is accepted with empty output |
| `SparseImage.Process.NSendFile` | cmds/simg2img_simple.cpp:45-64 | copies exactly count bytes for every schedule of short splices and reads, or exits; never fails when transfers are not cut short |
| `SparseImage.Process.WriteZeroBlocks` | cmds/simg2img_simple.cpp:91-93 | appends that many zero blocks, or exits |
| `SparseImage.Process.DoChunk` | cmds/simg2img_simple.cpp:78-107 | one turn consumes and expands exactly the chunk at the current position, or exits |
| `SparseImage.Process.RunChunks` | cmds/simg2img_simple.cpp:77-108 | the loop refines the recursive decoder |
| `SparseImage.Process.Run` | cmds/simg2img_simple.cpp:66-111 | exit code 0 means output and consumed input are those of the reference decoder, for every schedule; with full transfers every decodable image is accepted |
| `AudioParams.ParseAudioParams` | bluetooth/audio/hw/utils.cc:33-49 | the loop computes the merge of all segments, later ones overriding earlier ones |
| `AudioParams.ParseSegment` | bluetooth/audio/hw/utils.cc:33-49 | what a segment says with no, one or several equal signs and with an empty key |
| `AudioParams.ParseConcat` | bluetooth/audio/hw/utils.cc:33-49 | parsing a + ";" + b is the parse of a overridden by the parse of b, for all strings |
| `AudioParams.ParseIsClean` | bluetooth/audio/hw/utils.cc:33-49 | parsed keys are not empty and neither keys nor values hold a delimiter, for all strings |
| `AudioParams.PrintParseRoundTrip` | bluetooth/audio/hw/stream_apis.cc:502-505 | printing a map in any order and parsing it gives it back iff its keys are not empty and no key or value holds a delimiter |
| `AseConfiguration.FilterTwice` | bluetooth/audio/hal/LeAudioOffloadAudioProvider.cpp:336-385 | filtering by device and then by requirement is one filter by both |
| `AseConfiguration.TwoFiltersAreOne` | bluetooth/audio/hal/LeAudioOffloadAudioProvider.cpp:390-472 | the two stages on one setting equal the joint answer of the triple |
| `AseConfiguration.TwoPassesAreOne` | bluetooth/audio/hal/LeAudioOffloadAudioProvider.cpp:504-530 | the two list passes give exactly, in order, the non-empty doubly filtered lists of all (setting, capability, requirement) triples |
| `AseConfiguration.NothingUnmatched` | bluetooth/audio/hal/LeAudioOffloadAudioProvider.cpp:336-385 | every entry of every answer is a stored one that suits a device and a requirement of the request, and its codec is not disabled |
| `AseConfiguration.NothingLost` | bluetooth/audio/hal/LeAudioOffloadAudioProvider.cpp:474-534 | every stored entry that suits a device and a requirement appears in an answer |
| `AseLaws.AnsweredIsCalled` | bluetooth/audio/hal/LeAudioOffloadAudioProvider.cpp:157-324 | every entry of an answer is stored in a setting of the same context, packing and flags, has the enabled codec of a device of the request, last values within each octets range, frame maximum, duration and frequency set it states, a preferred context, and meets a requirement in latency and in every required value |
| `AseLaws.CalledIsAnswered` | bluetooth/audio/hal/LeAudioOffloadAudioProvider.cpp:157-324 | every stored entry of which all this holds is in an answer |
| `AseLaws.AnswerKeepsOrder` | bluetooth/audio/hal/LeAudioOffloadAudioProvider.cpp:336-385 | an answer keeps the order of its setting's entries, and each kept entry as often as it is there |
| `AseConfiguration.LastPriorityCounts` | bluetooth/audio/hal/LeAudioOffloadAudioProvider.cpp:151-166 | after any run of priority calls a codec is disabled iff the last call naming it disabled it |
| `AseConfiguration.NoDisabledCodec` | bluetooth/audio/hal/LeAudioOffloadAudioProvider.cpp:151-166 | after any run of priority calls no entry of any answer uses a codec whose last call disabled it |
| `AseConfiguration.FrequencyMatches` | bluetooth/audio/hal/LeAudioOffloadAudioProvider.cpp:34-60 | a frequency matches as the device's set says iff it is not 44.1 kHz or not in the set |
| `AseConfiguration.AnswersComplete` | bluetooth/audio/hal/LeAudioOffloadAudioProvider.cpp:34-60 | the answers equal those of a complete frequency table iff no stored entry at 44.1 kHz would suit a device that states its frequencies and a requirement |
| `AseConfiguration.EntryAt44100Missed` | bluetooth/audio/hal/LeAudioOffloadAudioProvider.cpp:34-60 | a concrete setting at 44.1 kHz, for a device that supports it, is missing from the answers |
| `AseConfiguration.AnswersAgree` | bluetooth/audio/hal/LeAudioOffloadAudioProvider.cpp:232-289 | for any two sets of matching rules, one narrower than the other, the answers are equal iff no triple loses an entry by the narrower ones |
| `AseConfiguration.AnswersCounted` | bluetooth/audio/hal/LeAudioOffloadAudioProvider.cpp:207-215 | the answers respect the devices' channel counts iff no stored entry that otherwise suits a device and a requirement has a number of channels the device does not support |
| `AseConfiguration.StereoForMonoDevice` | bluetooth/audio/hal/LeAudioOffloadAudioProvider.cpp:207-215 | a concrete stereo setting is returned for a device that supports one channel only |
| `AseConfiguration.LeAudioOffloadAudioProvider.SetCodecPriority` | bluetooth/audio/hal/LeAudioOffloadAudioProvider.cpp:151-155 | the priorities are those set by all calls so far, this one last |
| `AseConfiguration.LeAudioOffloadAudioProvider.FilterByDevice` | bluetooth/audio/hal/LeAudioOffloadAudioProvider.cpp:336-357 | keeps, in order, exactly the entries that suit the device |
| `AseConfiguration.LeAudioOffloadAudioProvider.FilterByRequirement` | bluetooth/audio/hal/LeAudioOffloadAudioProvider.cpp:359-385 | keeps, in order, exactly the entries that meet some requirement; all when none is given |
| `AseConfiguration.LeAudioOffloadAudioProvider.AnyRequirement` | bluetooth/audio/hal/LeAudioOffloadAudioProvider.cpp:374-383 | true iff some given requirement matches |
| `AseConfiguration.LeAudioOffloadAudioProvider.MatchDevice` | bluetooth/audio/hal/LeAudioOffloadAudioProvider.cpp:390-428 | a copy cut to its non-empty matched list on the asked side, or nothing |
| `AseConfiguration.LeAudioOffloadAudioProvider.MatchRequirement` | bluetooth/audio/hal/LeAudioOffloadAudioProvider.cpp:433-472 | a copy cut to its non-empty matched list on the side the setting has, or nothing |
| `AseConfiguration.LeAudioOffloadAudioProvider.MatchDevices` | bluetooth/audio/hal/LeAudioOffloadAudioProvider.cpp:507-518 | the first pass in order: all settings by all given devices |
| `AseConfiguration.LeAudioOffloadAudioProvider.MatchRequirements` | bluetooth/audio/hal/LeAudioOffloadAudioProvider.cpp:521-530 | the second pass in order: all matched settings by all requirements |
| `AseConfiguration.LeAudioOffloadAudioProvider.GetLeAudioAseConfiguration` | bluetooth/audio/hal/LeAudioOffloadAudioProvider.cpp:474-534 | returns exactly the answers of all triples in order; with both capability lists only the sink list counts; no entry uses a codec that the priority calls so far have last disabled |
| `HalDevice.Device.OpenStream` | audio/hal/Device.cpp:183-186 | a stream the HAL opened is counted, and the count equals the streams still open; a stream is put on a closed device iff the device is closed and the HAL agrees |
| `HalDevice.Device.CloseHalStream` | audio/hal/Device.cpp:61-71 | closes an open HAL stream once; the count is never 0 there and stays exact |
| `HalDevice.Device.CloseStream` | audio/hal/StreamOut.cpp:318-330 | only the first close does anything; from version 6 on it closes the HAL stream |
| `HalDevice.Device.DestroyStream` | audio/hal/StreamOut.cpp:159-179 | after destruction the HAL stream has been closed exactly once, whatever closes came before |
| `HalDevice.Device.DoClose` | audio/hal/Device.cpp:551-555 | the HAL device is closed at most once, and iff no stream is open and it was not closed |
| `HalDevice.Device.OpenOnClosedDevice` | audio/hal/Device.cpp:551-555 | on a closed device no stream is open iff every stream opened after the close has been closed again |
| `HalDevice.OpenAfterClose` | audio/hal/Device.cpp:183-186 | a concrete device that is closed and then has a stream opened on it |
| `HalDevice.Device.Destroy` | audio/hal/Device.cpp:51-54 | by the end every HAL stream and the HAL device have been closed exactly once |
| `CodecsDb.NoBitBeyond` | bluetooth/audio/utils/session/BluetoothAudioSupportedCodecsDB.cpp:117-129 | a word below 2^i has no bit from i on: the loop may stop early |
| `CodecsDb.IsSingleBit` | bluetooth/audio/utils/session/BluetoothAudioSupportedCodecsDB.cpp:117-129 | terminates, and is true iff exactly one bit is common to the two 32-bit words |
| `CodecsDb.IsOffloadSbcConfigurationValid` | bluetooth/audio/utils/session/BluetoothAudioSupportedCodecsDB.cpp:142-179 | accepts iff each field has exactly one bit under its mask and meets the capability, and the bitpool limits nest |
| `CodecsDb.SelectedBitSupported` | bluetooth/audio/utils/session/BluetoothAudioSupportedCodecsDB.cpp:142-175 | the one bit under the mask of an accepted field is in the capability when the capability lies inside the mask |

## Left out

- The numeric values of SessionType are not part of the repository; they are taken to be distinct, to fit a byte, and to give UNKNOWN the value 0. Registration is modelled for sessions of a known type.
- Registering a port and storing its cookie is one step, so a callback between the two, which the source ignores, is not modelled; the successive tests of the state in one if chain of stream_apis.cc are one look; waiting, binder calls and clocks are steps that may happen at any time.
- In `StreamProtocol` a WriteData call is one step; its polling loop is modelled in `PcmPath`, where the queue is not replaced during a call and the buffer pointer is not null.
- PcmPath.OutWritePcmData: between two passes of a loop the other side's loop is represented by its steps, in any number and order it can make; there is one writer and one reader.
- StreamProtocol.LeavesDisabled: SetUp, the other way out of DISABLED, appears as the opening of a stream, which creates the port in STANDBY.
- StreamApis.BluetoothStreamOut.OutSetParameters: closing=true and exiting=1 act alike and are one flag; the keys that reload the audio configuration, and those that only log, are not modelled, and the frame size stays as it was at opening.
- The frame counters are unbounded; their 64-bit wrap-around is not modelled. The write timestamp and the render position computed from it are not modelled.
- StreamApis.FeedingPosition: covers both results of the stack's position query, although this session class always reports failure.
- Input streams (reading, standby, input delay), latency modes, metadata, and stereo-to-mono mixing: the calls mirror the output side or forward to a library.
- The HIDL twins of the session and port classes.
- The lists of sampling frequencies and channel modes that the codec constructors publish beside the capability bytes.
- CodecFactory.A2dpOffloadCodecFactory.GetConfiguration: a hint must name a ranked codec, since the source dereferences the position it finds.
- SparseImage.Process.NSendFile: a failed read exits with 112; the source first passes the length -1 to write and exits with 114 when that call does not fail. Output after a failing exit is not specified, and exit codes other than 0 are not told apart.
- AseConfiguration.LeAudioOffloadAudioProvider.GetLeAudioAseConfiguration: loading of the stored settings is a parameter; a call without either capability list, which throws once there is a stored setting, is excluded.
- LE Audio broadcast and QoS configuration.
- HalDevice.Device.DoClose: the status of the HAL's own close call is not modelled; a HAL that hands out the same stream pointer again counts as a new stream.
- CodecsDb.IsOffloadSbcConfigurationValid: the default SBC capability is a parameter; the AAC, LDAC and aptX checks are not modelled.
- Parameters of `A2dpBits` ranges are taken to lie inside the vector, as at every use in the source; `get(range)`'s bitwise or is written as an addition into digits that are still clear.
- The other commands, the OTA service and the fingerprint HALs: file, ioctl and binder plumbing.
