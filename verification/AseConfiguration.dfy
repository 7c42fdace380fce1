/**
 LE Audio ASE configuration matching
 (bluetooth/audio/hal/LeAudioOffloadAudioProvider.cpp): stored settings are filtered by the
 capabilities of the remote device, and what is left by the requirements of the request.
 Bitmasks are sets of the values whose bits they hold.
 */
module AseConfiguration {

  import opened Options

  type CodecId = nat

  const CODEC_PRIORITY_DISABLED := -1

  datatype Frequency =
    | HZ8000 | HZ11025 | HZ16000 | HZ22050 | HZ24000 | HZ32000 | HZ44100 | HZ48000
    | HZ88200 | HZ96000 | HZ176400 | HZ192000 | HZ384000

  datatype Duration = US7500 | US10000

  /** CodecSpecificConfigurationLtv */
  datatype Config =
    | SamplingFrequency(frequency: Frequency)
    | FrameDuration(duration: Duration)
    | ChannelAllocation(locations: set<nat>)
    | OctetsPerFrame(octets: int)
    | FrameBlocksPerSdu(blocks: int)

  /** CodecSpecificCapabilitiesLtv */
  datatype Capability =
    | Frequencies(frequencies: set<Frequency>)
    | Durations(durations: set<Duration>)
    | ChannelCounts(counts: set<nat>)
    | Octets(min: int, max: int)
    | MaxFramesPerSdu(frames: int)

  datatype Tag = FrequencyTag | DurationTag | ChannelTag | OctetsTag | FramesTag

  function TagOf(c: Config): Tag {
    match c
    case SamplingFrequency(_) => FrequencyTag
    case FrameDuration(_) => DurationTag
    case ChannelAllocation(_) => ChannelTag
    case OctetsPerFrame(_) => OctetsTag
    case FrameBlocksPerSdu(_) => FramesTag
  }

  /** The configuration tag a capability speaks about. */
  function TagFor(c: Capability): Tag {
    match c
    case Frequencies(_) => FrequencyTag
    case Durations(_) => DurationTag
    case ChannelCounts(_) => ChannelTag
    case Octets(_, _) => OctetsTag
    case MaxFramesPerSdu(_) => FramesTag
  }

  datatype Ase = Ase(targetLatency: int, codecId: Option<CodecId>, configs: seq<Config>)

  datatype Direction = Direction(ase: Ase, qos: int)

  datatype Setting = Setting(
    context: set<nat>,
    packing: int,
    sink: Option<seq<Option<Direction>>>,
    source: Option<seq<Option<Direction>>>,
    flags: int)

  datatype Metadata = PreferredContexts(contexts: set<nat>) | OtherMetadata

  datatype Device = Device(
    codecId: CodecId,
    capabilities: seq<Capability>,
    metadata: Option<seq<Option<Metadata>>>)

  datatype Requirement = Requirement(
    context: set<nat>,
    sink: Option<seq<Option<Ase>>>,
    source: Option<seq<Option<Ase>>>)

  // ------------------------------------------------------------ matching

  type Priorities = map<CodecId, int>

  /** The frequencies that the matching table of the source knows; 44.1 kHz is not among them. */
  const TABLE: set<Frequency> := {
    HZ8000, HZ11025, HZ16000, HZ22050, HZ24000, HZ32000, HZ48000,
    HZ88200, HZ96000, HZ176400, HZ192000, HZ384000}

  /** What a match depends on besides its two sides: the priorities, the frequencies that the
      table knows, and whether channel counts are compared, which the source leaves undone. */
  datatype Rules = Rules(priorities: Priorities, table: set<Frequency>, counting: bool)

  /** The rules of the source. */
  function CodeRules(ps: Priorities): Rules { Rules(ps, TABLE, false) }

  /** The number of channels of an allocation; an empty one is a single channel without a place. */
  function ChannelNumber(locations: set<nat>): nat {
    if locations == {} then 1 else |locations|
  }

  predicate Disabled(ps: Priorities, id: CodecId) {
    id in ps && ps[id] == CODEC_PRIORITY_DISABLED
  }

  predicate MatchedValidCodec(pr: Rules, cfg: CodecId, req: CodecId) {
    !Disabled(pr.priorities, cfg) && cfg == req
  }

  /** A configuration vector as a table by tag; a later entry replaces an earlier one. */
  function Table(configs: seq<Config>): map<Tag, Config> {
    if configs == [] then map[]
    else
      var c := configs[|configs| - 1];
      Table(configs[..|configs| - 1])[TagOf(c) := c]
  }

  /** A frequency matches only if the table knows it. */
  predicate MatchedCapability(pr: Rules, cfg: Config, cap: Capability) {
    match (cfg, cap)
    case (SamplingFrequency(f), Frequencies(fs)) => f in pr.table && f in fs
    case (FrameDuration(d), Durations(ds)) => d in ds
    case (ChannelAllocation(ls), ChannelCounts(ns)) => pr.counting ==> ChannelNumber(ls) in ns
    case (OctetsPerFrame(o), Octets(lo, hi)) => lo <= o <= hi
    case (FrameBlocksPerSdu(n), MaxFramesPerSdu(m)) => n <= m
    case _ => false
  }

  /** Every capability finds an entry of its kind in the table, and the entry fits. */
  predicate MatchedCapabilities(pr: Rules, configs: seq<Config>, caps: seq<Capability>) {
    forall i :: 0 <= i < |caps| ==>
      TagFor(caps[i]) in Table(configs)
      && MatchedCapability(pr, Table(configs)[TagFor(caps[i])], caps[i])
  }

  /** Every required entry is in the table, unchanged. */
  predicate MatchedAse(pr: Rules, setting: Ase, req: Ase) {
    (req.codecId.Some? ==>
       setting.codecId.Some? && MatchedValidCodec(pr, setting.codecId.value, req.codecId.value))
    && setting.targetLatency == req.targetLatency
    && forall i :: 0 <= i < |req.configs| ==>
         TagOf(req.configs[i]) in Table(setting.configs)
         && Table(setting.configs)[TagOf(req.configs[i])] == req.configs[i]
  }

  predicate MatchedContext(context: set<nat>, d: Device) {
    d.metadata.None?
    || exists i :: 0 <= i < |d.metadata.value|
         && d.metadata.value[i].Some?
         && d.metadata.value[i].value.PreferredContexts?
         && context * d.metadata.value[i].value.contexts != {}
  }

  /** The direction configuration suits the device. */
  predicate DeviceTakes(pr: Rules, dc: Option<Direction>, d: Device) {
    dc.Some? && dc.value.ase.codecId.Some?
    && MatchedValidCodec(pr, dc.value.ase.codecId.value, d.codecId)
    && MatchedCapabilities(pr, dc.value.ase.configs, d.capabilities)
  }

  /** The direction configuration meets some requirement; without requirements all do. */
  predicate RequirementTakes(pr: Rules, dc: Option<Direction>, reqs: Option<seq<Option<Ase>>>) {
    reqs.None? || (dc.Some? && SomeRequirement(pr, dc.value.ase, reqs.value))
  }

  predicate SomeRequirement(pr: Rules, ase: Ase, reqs: seq<Option<Ase>>) {
    exists i :: 0 <= i < |reqs| && reqs[i].Some? && MatchedAse(pr, ase, reqs[i].value)
  }

  function DeviceTest(pr: Rules, d: Device): Option<Direction> -> bool {
    dc => DeviceTakes(pr, dc, d)
  }

  function RequirementTest(pr: Rules, reqs: Option<seq<Option<Ase>>>): Option<Direction> -> bool {
    dc => RequirementTakes(pr, dc, reqs)
  }

  function BothTest(pr: Rules, d: Device, reqs: Option<seq<Option<Ase>>>): Option<Direction> -> bool {
    dc => DeviceTakes(pr, dc, d) && RequirementTakes(pr, dc, reqs)
  }

  function Filter<T>(xs: seq<T>, keep: T -> bool): seq<T> {
    if xs == [] then []
    else
      var init, last := Filter(xs[..|xs| - 1], keep), xs[|xs| - 1];
      if keep(last) then init + [last] else init
  }

  /** Filtering twice is filtering once by both tests. */
  lemma {:induction false} FilterTwice<T>(xs: seq<T>, f: T -> bool, g: T -> bool, both: T -> bool)
    requires forall x :: x in xs ==> both(x) == (f(x) && g(x))
    ensures Filter(Filter(xs, f), g) == Filter(xs, both)
  {
    if xs != [] {
      var ys, last := xs[..|xs| - 1], xs[|xs| - 1];
      FilterTwice(ys, f, g, both);
      var zs := Filter(ys, f);
      assert (zs + [last])[..|zs + [last]| - 1] == zs;
    }
  }

  /** Exactly the elements that pass are kept. */
  lemma {:induction false} FilterMembers<T>(xs: seq<T>, keep: T -> bool, x: T)
    ensures x in Filter(xs, keep) <==> x in xs && keep(x)
  {
    if xs != [] {
      FilterMembers(xs[..|xs| - 1], keep, x);
      assert xs == xs[..|xs| - 1] + [xs[|xs| - 1]];
    }
  }

  // ------------------------------------------------------------ one setting

  datatype Side = Sink | Source

  function ListOf(s: Setting, side: Side): Option<seq<Option<Direction>>> {
    if side == Sink then s.sink else s.source
  }

  function RequirementsOf(r: Requirement, side: Side): Option<seq<Option<Ase>>> {
    if side == Sink then r.sink else r.source
  }

  /** The setting with only the given list, on the given side. */
  function WithList(s: Setting, side: Side, list: seq<Option<Direction>>): Setting {
    if side == Sink then Setting(s.context, s.packing, Some(list), None, s.flags)
    else Setting(s.context, s.packing, None, Some(list), s.flags)
  }

  /** The setting cut down to a non-empty list, or nothing. */
  function Cut(s: Setting, side: Side, list: seq<Option<Direction>>): seq<Setting> {
    if list == [] then [] else [WithList(s, side, list)]
  }

  /** getCapabilitiesMatchedAseConfigurationSettings */
  function ByDevice(pr: Rules, s: Setting, d: Device, side: Side): seq<Setting> {
    if !MatchedContext(s.context, d) || ListOf(s, side).None? then []
    else Cut(s, side, Filter(ListOf(s, side).value, DeviceTest(pr, d)))
  }

  /** getRequirementMatchedAseConfigurationSettings: the side is the one the setting has. */
  function ByRequirement(pr: Rules, s: Setting, r: Requirement): seq<Setting>
  {
    var side := if s.sink.Some? then Sink else Source;
    if s.context != r.context || ListOf(s, side).None? then []
    else Cut(s, side, Filter(ListOf(s, side).value, RequirementTest(pr, RequirementsOf(r, side))))
  }

  /** What one stored setting, one device and one requirement give together. */
  function Answer(pr: Rules, s: Setting, d: Device, r: Requirement, side: Side): seq<Setting> {
    if !MatchedContext(s.context, d) || s.context != r.context || ListOf(s, side).None? then []
    else Cut(s, side, Filter(ListOf(s, side).value, BothTest(pr, d, RequirementsOf(r, side))))
  }

  lemma TwoFiltersAreOne(pr: Rules, s: Setting, d: Device, r: Requirement, side: Side)
    ensures ByDevice(pr, s, d, side) == [] ==> Answer(pr, s, d, r, side) == []
    ensures ByDevice(pr, s, d, side) != [] ==>
      ByRequirement(pr, ByDevice(pr, s, d, side)[0], r) == Answer(pr, s, d, r, side)
  {
    if MatchedContext(s.context, d) && ListOf(s, side).Some? {
      var list, reqs := ListOf(s, side).value, RequirementsOf(r, side);
      FilterTwice(list, DeviceTest(pr, d), RequirementTest(pr, reqs), BothTest(pr, d, reqs));
    }
  }

  // ------------------------------------------------------------ all settings

  function FlatMap<A, B>(xs: seq<A>, f: A -> seq<B>): seq<B> {
    if xs == [] then [] else FlatMap(xs[..|xs| - 1], f) + f(xs[|xs| - 1])
  }

  lemma FlatMapNext<A, B>(xs: seq<A>, f: A -> seq<B>, i: nat)
    requires i < |xs|
    ensures FlatMap(xs[..i + 1], f) == FlatMap(xs[..i], f) + f(xs[i])
  {
    assert xs[..i + 1][..i] == xs[..i];
  }

  lemma {:induction false} FlatMapConcat<A, B>(xs: seq<A>, ys: seq<A>, f: A -> seq<B>)
    ensures FlatMap(xs + ys, f) == FlatMap(xs, f) + FlatMap(ys, f)
  {
    if ys == [] {
      assert xs + ys == xs;
    } else {
      var zs := ys[..|ys| - 1];
      assert (xs + ys)[..|xs + ys| - 1] == xs + zs;
      FlatMapConcat(xs, zs, f);
    }
  }

  /** Two passes over lists are one pass over pairs. */
  lemma {:induction false} FlatMapTwice<A, B, C>(xs: seq<A>, f: A -> seq<B>, g: B -> seq<C>, h: A -> seq<C>)
    requires forall x :: x in xs ==> FlatMap(f(x), g) == h(x)
    ensures FlatMap(FlatMap(xs, f), g) == FlatMap(xs, h)
  {
    if xs != [] {
      var ys, last := xs[..|xs| - 1], xs[|xs| - 1];
      FlatMapTwice(ys, f, g, h);
      FlatMapConcat(FlatMap(ys, f), f(last), g);
    }
  }

  lemma {:induction false} FlatMapSame<A, B>(xs: seq<A>, f: A -> seq<B>, g: A -> seq<B>)
    requires forall x :: x in xs ==> f(x) == g(x)
    ensures FlatMap(xs, f) == FlatMap(xs, g)
  {
    if xs != [] {
      FlatMapSame(xs[..|xs| - 1], f, g);
    }
  }

  lemma {:induction false} FlatMapMembers<A, B>(xs: seq<A>, f: A -> seq<B>, y: B)
    ensures y in FlatMap(xs, f) <==> exists i :: 0 <= i < |xs| && y in f(xs[i])
  {
    if xs != [] {
      var ys := xs[..|xs| - 1];
      FlatMapMembers(ys, f, y);
      assert forall i :: 0 <= i < |ys| ==> ys[i] == xs[i];
    }
  }

  lemma FlatMapSource<A, B>(xs: seq<A>, f: A -> seq<B>, y: B) returns (x: A)
    requires y in FlatMap(xs, f)
    ensures x in xs && y in f(x)
  {
    FlatMapMembers(xs, f, y);
    var i :| 0 <= i < |xs| && y in f(xs[i]);
    x := xs[i];
  }

  // The two passes of the source.

  function DeviceStep(pr: Rules, s: Setting, side: Side): Option<Device> -> seq<Setting> {
    (d: Option<Device>) => if d.None? then [] else ByDevice(pr, s, d.value, side)
  }

  function DevicesStep(pr: Rules, ds: seq<Option<Device>>, side: Side): Setting -> seq<Setting> {
    s => FlatMap(ds, DeviceStep(pr, s, side))
  }

  function RequirementStep(pr: Rules, s: Setting): Requirement -> seq<Setting> {
    r => ByRequirement(pr, s, r)
  }

  function RequirementsStep(pr: Rules, rs: seq<Requirement>): Setting -> seq<Setting> {
    s => FlatMap(rs, RequirementStep(pr, s))
  }

  predicate HasSide(s: Setting) { s.sink.Some? || s.source.Some? }

  /** What passes the first pass has a list on one side. */
  lemma MatchedHasSide(pr: Rules, settings: seq<Setting>, ds: seq<Option<Device>>, side: Side, t: Setting)
    requires t in FlatMap(settings, DevicesStep(pr, ds, side))
    ensures HasSide(t)
  {
    var s := FlatMapSource(settings, DevicesStep(pr, ds, side), t);
    var d := FlatMapSource(ds, DeviceStep(pr, s, side), t);
  }

  // One pass over all triples.

  function AnswerStep(pr: Rules, s: Setting, d: Device, side: Side): Requirement -> seq<Setting> {
    r => Answer(pr, s, d, r, side)
  }

  function AnswersFor(pr: Rules, s: Setting, rs: seq<Requirement>, side: Side): Option<Device> -> seq<Setting> {
    (d: Option<Device>) => if d.None? then [] else FlatMap(rs, AnswerStep(pr, s, d.value, side))
  }

  function AnswersOf(pr: Rules, ds: seq<Option<Device>>, rs: seq<Requirement>, side: Side): Setting -> seq<Setting> {
    s => FlatMap(ds, AnswersFor(pr, s, rs, side))
  }

  /** The answers of all triples of stored setting, device and requirement, in order. */
  function AllAnswers(pr: Rules, settings: seq<Setting>, ds: seq<Option<Device>>,
                      rs: seq<Requirement>, side: Side): seq<Setting>
  {
    FlatMap(settings, AnswersOf(pr, ds, rs, side))
  }

  lemma {:induction false} FlatMapNothing<A, B>(xs: seq<A>, f: A -> seq<B>)
    requires forall x :: x in xs ==> f(x) == []
    ensures FlatMap(xs, f) == []
  {
    if xs != [] {
      FlatMapNothing(xs[..|xs| - 1], f);
    }
  }

  lemma FlatMapOne<A, B>(x: A, f: A -> seq<B>)
    ensures FlatMap([x], f) == f(x)
  {
    assert FlatMap([x][..0], f) == [];
  }

  lemma OneDevice(pr: Rules, s: Setting, d: Device, rs: seq<Requirement>, side: Side)
    ensures FlatMap(ByDevice(pr, s, d, side), RequirementsStep(pr, rs))
         == FlatMap(rs, AnswerStep(pr, s, d, side))
  {
    var found := ByDevice(pr, s, d, side);
    forall r | r in rs
      ensures found == [] ==> Answer(pr, s, d, r, side) == []
      ensures found != [] ==> ByRequirement(pr, found[0], r) == Answer(pr, s, d, r, side)
    {
      TwoFiltersAreOne(pr, s, d, r, side);
    }
    if found == [] {
      FlatMapNothing(rs, AnswerStep(pr, s, d, side));
    } else {
      FlatMapOne(found[0], RequirementsStep(pr, rs));
      FlatMapSame(rs, RequirementStep(pr, found[0]), AnswerStep(pr, s, d, side));
    }
  }

  lemma OneSetting(pr: Rules, s: Setting, ds: seq<Option<Device>>, rs: seq<Requirement>, side: Side)
    ensures FlatMap(FlatMap(ds, DeviceStep(pr, s, side)), RequirementsStep(pr, rs))
         == FlatMap(ds, AnswersFor(pr, s, rs, side))
  {
    forall d | d in ds
      ensures FlatMap(DeviceStep(pr, s, side)(d), RequirementsStep(pr, rs)) == AnswersFor(pr, s, rs, side)(d)
    {
      if d.Some? {
        OneDevice(pr, s, d.value, rs, side);
      }
    }
    FlatMapTwice(ds, DeviceStep(pr, s, side), RequirementsStep(pr, rs), AnswersFor(pr, s, rs, side));
  }

  /** Filtering by devices and then by requirements gives exactly, in order, the answers of all
      triples. */
  lemma TwoPassesAreOne(pr: Rules, settings: seq<Setting>, ds: seq<Option<Device>>,
                        rs: seq<Requirement>, side: Side)
    ensures FlatMap(FlatMap(settings, DevicesStep(pr, ds, side)), RequirementsStep(pr, rs))
         == AllAnswers(pr, settings, ds, rs, side)
  {
    forall s | s in settings
      ensures FlatMap(DevicesStep(pr, ds, side)(s), RequirementsStep(pr, rs)) == AnswersOf(pr, ds, rs, side)(s)
    {
      OneSetting(pr, s, ds, rs, side);
    }
    FlatMapTwice(settings, DevicesStep(pr, ds, side), RequirementsStep(pr, rs), AnswersOf(pr, ds, rs, side));
  }

  /** An answer comes from a triple. */
  lemma AnswerHasTriple(pr: Rules, settings: seq<Setting>, ds: seq<Option<Device>>,
                        rs: seq<Requirement>, side: Side, t: Setting)
    returns (s: Setting, d: Device, r: Requirement)
    requires t in AllAnswers(pr, settings, ds, rs, side)
    ensures s in settings && Some(d) in ds && r in rs && t in Answer(pr, s, d, r, side)
  {
    s := FlatMapSource(settings, AnswersOf(pr, ds, rs, side), t);
    var od := FlatMapSource(ds, AnswersFor(pr, s, rs, side), t);
    d := od.value;
    r := FlatMapSource(rs, AnswerStep(pr, s, d, side), t);
  }

  /** The triple that puts `dc` in answer `t`. */
  ghost predicate Justified(pr: Rules, settings: seq<Setting>, ds: seq<Option<Device>>,
                            rs: seq<Requirement>, side: Side, t: Setting, dc: Option<Direction>,
                            s: Setting, d: Device, r: Requirement)
  {
    s in settings && Some(d) in ds && r in rs
    && t.context == s.context == r.context && MatchedContext(s.context, d)
    && ListOf(s, side).Some? && dc in ListOf(s, side).value
    && DeviceTakes(pr, dc, d) && RequirementTakes(pr, dc, RequirementsOf(r, side))
  }

  /** Nothing unmatched appears: every entry of an answer is a stored one that suits a device of
      the request and its requirement, and no answer uses a codec whose priority is disabled. */
  lemma NothingUnmatched(pr: Rules, settings: seq<Setting>, ds: seq<Option<Device>>,
                         rs: seq<Requirement>, side: Side, t: Setting, dc: Option<Direction>)
    requires t in AllAnswers(pr, settings, ds, rs, side)
    requires ListOf(t, side).Some? && dc in ListOf(t, side).value
    ensures dc.Some? && dc.value.ase.codecId.Some? && !Disabled(pr.priorities, dc.value.ase.codecId.value)
    ensures exists s, d, r :: Justified(pr, settings, ds, rs, side, t, dc, s, d, r)
  {
    var s, d, r := AnswerHasTriple(pr, settings, ds, rs, side, t);
    FilterMembers(ListOf(s, side).value, BothTest(pr, d, RequirementsOf(r, side)), dc);
    assert Justified(pr, settings, ds, rs, side, t, dc, s, d, r);
  }

  /** Nothing matched is lost. */
  lemma NothingLost(pr: Rules, settings: seq<Setting>, ds: seq<Option<Device>>, rs: seq<Requirement>,
                    side: Side, s: Setting, d: Device, r: Requirement, dc: Option<Direction>)
    requires s in settings && Some(d) in ds && r in rs
    requires MatchedContext(s.context, d) && s.context == r.context
    requires ListOf(s, side).Some? && dc in ListOf(s, side).value
    requires DeviceTakes(pr, dc, d) && RequirementTakes(pr, dc, RequirementsOf(r, side))
    ensures exists t ::
              t in AllAnswers(pr, settings, ds, rs, side)
              && t.context == s.context && ListOf(t, side).Some? && dc in ListOf(t, side).value
  {
    var list := Filter(ListOf(s, side).value, BothTest(pr, d, RequirementsOf(r, side)));
    FilterMembers(ListOf(s, side).value, BothTest(pr, d, RequirementsOf(r, side)), dc);
    var t := WithList(s, side, list);
    TripleIsListed(pr, settings, ds, rs, side, s, d, r, t);
  }

  /** The answer of every triple is among the answers. */
  lemma TripleIsListed(pr: Rules, settings: seq<Setting>, ds: seq<Option<Device>>, rs: seq<Requirement>,
                       side: Side, s: Setting, d: Device, r: Requirement, t: Setting)
    requires s in settings && Some(d) in ds && r in rs && t in Answer(pr, s, d, r, side)
    ensures t in AllAnswers(pr, settings, ds, rs, side)
  {
    InFlatMap(rs, AnswerStep(pr, s, d, side), r, t);
    InFlatMap(ds, AnswersFor(pr, s, rs, side), Some(d), t);
    InFlatMap(settings, AnswersOf(pr, ds, rs, side), s, t);
  }

  lemma InFlatMap<A, B>(xs: seq<A>, f: A -> seq<B>, x: A, y: B)
    requires x in xs && y in f(x)
    ensures y in FlatMap(xs, f)
  {
    FlatMapMembers(xs, f, y);
    var i :| 0 <= i < |xs| && xs[i] == x;
    assert y in f(xs[i]);
  }

  /** The priorities after a run of setCodecPriority calls. */
  function PrioritiesAfter(calls: seq<(CodecId, int)>): Priorities {
    if calls == [] then map[]
    else
      var last := calls[|calls| - 1];
      PrioritiesAfter(calls[..|calls| - 1])[last.0 := last.1]
  }

  /** The last of the calls that name the codec disabled it. */
  ghost predicate LastDisabled(calls: seq<(CodecId, int)>, id: CodecId) {
    exists i :: 0 <= i < |calls| && calls[i] == (id, CODEC_PRIORITY_DISABLED)
                && forall j :: i < j < |calls| ==> calls[j].0 != id
  }

  /** A codec is disabled exactly when the last call that names it disabled it. */
  lemma {:induction false} LastPriorityCounts(calls: seq<(CodecId, int)>, id: CodecId)
    ensures Disabled(PrioritiesAfter(calls), id) <==> LastDisabled(calls, id)
    ensures id in PrioritiesAfter(calls) ==> exists i :: 0 <= i < |calls| && calls[i].0 == id
  {
    if calls != [] {
      var n := |calls| - 1;
      var init := calls[..n];
      LastPriorityCounts(init, id);
      assert forall j :: 0 <= j < n ==> init[j] == calls[j];
      if calls[n].0 == id {
        assert Disabled(PrioritiesAfter(calls), id) <==> calls[n] == (id, CODEC_PRIORITY_DISABLED);
      } else {
        assert Disabled(PrioritiesAfter(calls), id) == Disabled(PrioritiesAfter(init), id);
        if Disabled(PrioritiesAfter(init), id) {
          var i :| 0 <= i < |init| && init[i] == (id, CODEC_PRIORITY_DISABLED)
                   && forall j :: i < j < |init| ==> init[j].0 != id;
          assert calls[i] == (id, CODEC_PRIORITY_DISABLED) && forall j :: i < j < |calls| ==> calls[j].0 != id;
        }
        if i :| 0 <= i < |calls| && calls[i] == (id, CODEC_PRIORITY_DISABLED)
                && forall j :: i < j < |calls| ==> calls[j].0 != id {
          assert init[i] == (id, CODEC_PRIORITY_DISABLED);
        }
      }
    }
  }

  /** After any run of setCodecPriority calls, no answer uses a codec whose last call disabled it. */
  lemma NoDisabledCodec(pr: Rules, calls: seq<(CodecId, int)>, settings: seq<Setting>, ds: seq<Option<Device>>,
                        rs: seq<Requirement>, side: Side, t: Setting, dc: Option<Direction>, i: nat)
    requires pr.priorities == PrioritiesAfter(calls) && t in AllAnswers(pr, settings, ds, rs, side)
    requires ListOf(t, side).Some? && dc in ListOf(t, side).value
    requires i < |calls| && calls[i].1 == CODEC_PRIORITY_DISABLED
    requires forall j :: i < j < |calls| ==> calls[j].0 != calls[i].0
    ensures dc.Some? && dc.value.ase.codecId.Some? && dc.value.ase.codecId.value != calls[i].0
  {
    NothingUnmatched(pr, settings, ds, rs, side, t, dc);
    LastPriorityCounts(calls, calls[i].0);
    assert calls[i] == (calls[i].0, CODEC_PRIORITY_DISABLED);
  }

  // ------------------------------------------------------------ comparing rules

  function Sum<T>(xs: seq<T>, w: T -> nat): nat {
    if xs == [] then 0 else Sum(xs[..|xs| - 1], w) + w(xs[|xs| - 1])
  }

  lemma {:induction false} SumConcat<T>(xs: seq<T>, ys: seq<T>, w: T -> nat)
    ensures Sum(xs + ys, w) == Sum(xs, w) + Sum(ys, w)
  {
    if ys == [] {
      assert xs + ys == xs;
    } else {
      assert (xs + ys)[..|xs + ys| - 1] == xs + ys[..|ys| - 1];
      SumConcat(xs, ys[..|ys| - 1], w);
    }
  }

  /** A pass that never gives more than another gives as much only if it does so everywhere. */
  lemma {:induction false} FlatMapWeighs<A, B>(xs: seq<A>, f: A -> seq<B>, g: A -> seq<B>, w: B -> nat)
    requires forall x :: x in xs ==> Sum(f(x), w) <= Sum(g(x), w)
    ensures Sum(FlatMap(xs, f), w) <= Sum(FlatMap(xs, g), w)
    ensures forall x :: x in xs && Sum(f(x), w) < Sum(g(x), w) ==>
      Sum(FlatMap(xs, f), w) < Sum(FlatMap(xs, g), w)
  {
    if xs != [] {
      var ys, last := xs[..|xs| - 1], xs[|xs| - 1];
      FlatMapWeighs(ys, f, g, w);
      SumConcat(FlatMap(ys, f), f(last), w);
      SumConcat(FlatMap(ys, g), g(last), w);
      assert forall x :: x in xs ==> x in ys || x == last;
    }
  }

  lemma {:induction false} FilterWeighs<T>(xs: seq<T>, f: T -> bool, g: T -> bool)
    requires forall x :: x in xs && f(x) ==> g(x)
    ensures |Filter(xs, f)| <= |Filter(xs, g)|
    ensures forall x :: x in xs && g(x) && !f(x) ==> |Filter(xs, f)| < |Filter(xs, g)|
    ensures (forall x :: x in xs ==> f(x) == g(x)) ==> Filter(xs, f) == Filter(xs, g)
  {
    if xs != [] {
      var ys, last := xs[..|xs| - 1], xs[|xs| - 1];
      FilterWeighs(ys, f, g);
      assert forall x :: x in xs ==> x in ys || x == last;
    }
  }

  /** The number of entries in a setting. */
  function Width(side: Side): Setting -> nat {
    t => if ListOf(t, side).Some? then |ListOf(t, side).value| else 0
  }

  lemma CutWeighs(s: Setting, side: Side, list: seq<Option<Direction>>)
    ensures Sum(Cut(s, side, list), Width(side)) == |list|
  {
    if list != [] {
      var t := WithList(s, side, list);
      assert [t][..0] == [] && Sum([t], Width(side)) == Width(side)(t);
    }
  }

  /** Rules `a` take no entry that rules `b` do not take. */
  predicate Narrower(a: Rules, b: Rules) {
    a.priorities == b.priorities && a.table <= b.table && (b.counting ==> a.counting)
  }

  lemma NarrowerTakes(a: Rules, b: Rules, dc: Option<Direction>, d: Device)
    requires Narrower(a, b) && DeviceTakes(a, dc, d)
    ensures DeviceTakes(b, dc, d)
  {
    var configs, caps := dc.value.ase.configs, d.capabilities;
    forall i | 0 <= i < |caps|
      ensures TagFor(caps[i]) in Table(configs)
      ensures MatchedCapability(b, Table(configs)[TagFor(caps[i])], caps[i])
    {
      assert MatchedCapability(a, Table(configs)[TagFor(caps[i])], caps[i]);
    }
  }

  lemma RequirementsAgree(a: Rules, b: Rules, dc: Option<Direction>, reqs: Option<seq<Option<Ase>>>)
    requires a.priorities == b.priorities
    ensures RequirementTakes(a, dc, reqs) == RequirementTakes(b, dc, reqs)
  {
    if dc.Some? && reqs.Some? {
      forall i | 0 <= i < |reqs.value| && reqs.value[i].Some?
        ensures MatchedAse(a, dc.value.ase, reqs.value[i].value) == MatchedAse(b, dc.value.ase, reqs.value[i].value)
      {
      }
    }
  }

  /** Under rules `pr` the triple gives the entry. */
  ghost predicate Gives(pr: Rules, s: Setting, d: Device, r: Requirement, side: Side, dc: Option<Direction>) {
    MatchedContext(s.context, d) && s.context == r.context
    && ListOf(s, side).Some? && dc in ListOf(s, side).value
    && DeviceTakes(pr, dc, d) && RequirementTakes(pr, dc, RequirementsOf(r, side))
  }

  /** Rules `b` give the entry and rules `a` do not. */
  ghost predicate Loses(a: Rules, b: Rules, s: Setting, d: Device, r: Requirement, side: Side, dc: Option<Direction>) {
    Gives(b, s, d, r, side, dc) && !DeviceTakes(a, dc, d)
  }

  /** One triple: under narrower rules its answer lacks exactly the lost entries. */
  lemma AnswerWeighs(a: Rules, b: Rules, s: Setting, d: Device, r: Requirement, side: Side)
    requires Narrower(a, b)
    ensures var f, g, w := Answer(a, s, d, r, side), Answer(b, s, d, r, side), Width(side);
      Sum(f, w) <= Sum(g, w)
      && (forall dc :: Loses(a, b, s, d, r, side, dc) ==> Sum(f, w) < Sum(g, w))
      && ((forall dc :: !Loses(a, b, s, d, r, side, dc)) ==> f == g)
  {
    if MatchedContext(s.context, d) && s.context == r.context && ListOf(s, side).Some? {
      var list, reqs := ListOf(s, side).value, RequirementsOf(r, side);
      var f, g := BothTest(a, d, reqs), BothTest(b, d, reqs);
      forall dc | dc in list
        ensures f(dc) <==> g(dc) && !Loses(a, b, s, d, r, side, dc)
        ensures Loses(a, b, s, d, r, side, dc) ==> g(dc)
      {
        if DeviceTakes(a, dc, d) {
          NarrowerTakes(a, b, dc, d);
        }
        RequirementsAgree(a, b, dc, reqs);
      }
      FilterWeighs(list, f, g);
      CutWeighs(s, side, Filter(list, f));
      CutWeighs(s, side, Filter(list, g));
    }
  }

  ghost predicate DeviceLoses(a: Rules, b: Rules, s: Setting, d: Option<Device>, rs: seq<Requirement>, side: Side) {
    d.Some? && exists r, dc :: r in rs && Loses(a, b, s, d.value, r, side, dc)
  }

  lemma DeviceWeighs(a: Rules, b: Rules, s: Setting, d: Option<Device>, rs: seq<Requirement>, side: Side)
    requires Narrower(a, b)
    ensures var f, g, w := AnswersFor(a, s, rs, side)(d), AnswersFor(b, s, rs, side)(d), Width(side);
      Sum(f, w) <= Sum(g, w)
      && (if DeviceLoses(a, b, s, d, rs, side) then Sum(f, w) < Sum(g, w) else f == g)
  {
    if d.Some? {
      var f, g := AnswerStep(a, s, d.value, side), AnswerStep(b, s, d.value, side);
      forall r | r in rs
        ensures Sum(f(r), Width(side)) <= Sum(g(r), Width(side))
        ensures forall dc :: Loses(a, b, s, d.value, r, side, dc) ==> Sum(f(r), Width(side)) < Sum(g(r), Width(side))
        ensures (forall dc :: !Loses(a, b, s, d.value, r, side, dc)) ==> f(r) == g(r)
      {
        AnswerWeighs(a, b, s, d.value, r, side);
      }
      FlatMapWeighs(rs, f, g, Width(side));
      if !DeviceLoses(a, b, s, d, rs, side) {
        FlatMapSame(rs, f, g);
      }
    }
  }

  ghost predicate SettingLoses(a: Rules, b: Rules, s: Setting, ds: seq<Option<Device>>, rs: seq<Requirement>, side: Side) {
    exists d :: d in ds && DeviceLoses(a, b, s, d, rs, side)
  }

  lemma SettingWeighs(a: Rules, b: Rules, s: Setting, ds: seq<Option<Device>>, rs: seq<Requirement>, side: Side)
    requires Narrower(a, b)
    ensures var f, g, w := AnswersOf(a, ds, rs, side)(s), AnswersOf(b, ds, rs, side)(s), Width(side);
      Sum(f, w) <= Sum(g, w)
      && (if SettingLoses(a, b, s, ds, rs, side) then Sum(f, w) < Sum(g, w) else f == g)
  {
    var f, g := AnswersFor(a, s, rs, side), AnswersFor(b, s, rs, side);
    forall d | d in ds
      ensures Sum(f(d), Width(side)) <= Sum(g(d), Width(side))
      ensures if DeviceLoses(a, b, s, d, rs, side) then Sum(f(d), Width(side)) < Sum(g(d), Width(side)) else f(d) == g(d)
    {
      DeviceWeighs(a, b, s, d, rs, side);
    }
    FlatMapWeighs(ds, f, g, Width(side));
    if !SettingLoses(a, b, s, ds, rs, side) {
      FlatMapSame(ds, f, g);
    }
  }

  lemma SettingsWeigh(a: Rules, b: Rules, settings: seq<Setting>, ds: seq<Option<Device>>, rs: seq<Requirement>, side: Side)
    requires Narrower(a, b)
    ensures AllAnswers(a, settings, ds, rs, side) == AllAnswers(b, settings, ds, rs, side)
      <==> forall s :: s in settings ==> !SettingLoses(a, b, s, ds, rs, side)
  {
    var f, g := AnswersOf(a, ds, rs, side), AnswersOf(b, ds, rs, side);
    forall s | s in settings
      ensures Sum(f(s), Width(side)) <= Sum(g(s), Width(side))
      ensures if SettingLoses(a, b, s, ds, rs, side) then Sum(f(s), Width(side)) < Sum(g(s), Width(side)) else f(s) == g(s)
    {
      SettingWeighs(a, b, s, ds, rs, side);
    }
    FlatMapWeighs(settings, f, g, Width(side));
    if forall s :: s in settings ==> !SettingLoses(a, b, s, ds, rs, side) {
      FlatMapSame(settings, f, g);
    }
  }

  /** Narrower rules give the same answers exactly when no triple loses an entry by them. */
  lemma AnswersAgree(a: Rules, b: Rules, settings: seq<Setting>, ds: seq<Option<Device>>, rs: seq<Requirement>, side: Side)
    requires Narrower(a, b)
    ensures AllAnswers(a, settings, ds, rs, side) == AllAnswers(b, settings, ds, rs, side)
      <==> forall s, d, r, dc :: s in settings && Some(d) in ds && r in rs ==> !Loses(a, b, s, d, r, side, dc)
  {
    SettingsWeigh(a, b, settings, ds, rs, side);
    forall s, d, r, dc | s in settings && Some(d) in ds && r in rs && Loses(a, b, s, d, r, side, dc)
      ensures SettingLoses(a, b, s, ds, rs, side)
    {
      assert DeviceLoses(a, b, s, Some(d), rs, side);
    }
  }

  // ------------------------------------------------------------ 44.1 kHz

  const ALL_FREQUENCIES: set<Frequency> := TABLE + {HZ44100}

  /** The rules with a complete frequency table. */
  function FullRules(ps: Priorities): Rules { Rules(ps, ALL_FREQUENCIES, false) }

  /** A frequency matches as the device's set says, unless it is 44.1 kHz and in that set. */
  lemma FrequencyMatches(ps: Priorities, f: Frequency, fs: set<Frequency>)
    ensures (MatchedCapability(CodeRules(ps), SamplingFrequency(f), Frequencies(fs)) <==> f in fs)
      <==> f != HZ44100 || f !in fs
  {
  }

  /** The entry is at 44.1 kHz and the device states its frequencies. */
  predicate At44100(dc: Option<Direction>, d: Device) {
    dc.Some?
    && FrequencyTag in Table(dc.value.ase.configs)
    && Table(dc.value.ase.configs)[FrequencyTag] == SamplingFrequency(HZ44100)
    && exists i :: 0 <= i < |d.capabilities| && d.capabilities[i].Frequencies?
  }

  /** What the missing table entry costs: exactly the entries at 44.1 kHz that would match. */
  lemma TableCosts(ps: Priorities, dc: Option<Direction>, d: Device)
    ensures DeviceTakes(CodeRules(ps), dc, d) <==> DeviceTakes(FullRules(ps), dc, d) && !At44100(dc, d)
  {
    if dc.Some? {
      var table, caps := Table(dc.value.ase.configs), d.capabilities;
      forall i | 0 <= i < |caps| && TagFor(caps[i]) in table
        ensures MatchedCapability(CodeRules(ps), table[TagFor(caps[i])], caps[i]) <==>
          MatchedCapability(FullRules(ps), table[TagFor(caps[i])], caps[i])
          && !(caps[i].Frequencies? && table[FrequencyTag] == SamplingFrequency(HZ44100))
      {
      }
    }
  }

  /** The answers are those of a complete frequency table exactly when no stored entry at 44.1 kHz
      would suit a device that states its frequencies, and a requirement. */
  lemma AnswersComplete(ps: Priorities, settings: seq<Setting>, ds: seq<Option<Device>>,
                        rs: seq<Requirement>, side: Side)
    ensures AllAnswers(CodeRules(ps), settings, ds, rs, side) == AllAnswers(FullRules(ps), settings, ds, rs, side)
      <==> forall s, d, r, dc :: s in settings && Some(d) in ds && r in rs && Gives(FullRules(ps), s, d, r, side, dc)
             ==> !At44100(dc, d)
  {
    AnswersAgree(CodeRules(ps), FullRules(ps), settings, ds, rs, side);
    forall s, d, r, dc
      ensures Loses(CodeRules(ps), FullRules(ps), s, d, r, side, dc) <==>
        Gives(FullRules(ps), s, d, r, side, dc) && At44100(dc, d)
    {
      TableCosts(ps, dc, d);
    }
  }

  const ENTRY := Some(Direction(Ase(0, Some(6), [SamplingFrequency(HZ44100)]), 0))
  const SETTING := Setting({1}, 0, Some([ENTRY]), None, 0)
  const DEVICE := Device(6, [Frequencies({HZ44100})], None)
  const REQUIREMENT := Requirement({1}, None, None)

  /** A setting at 44.1 kHz, for a device that supports 44.1 kHz, is not among the answers. */
  lemma EntryAt44100Missed()
    ensures Gives(FullRules(map[]), SETTING, DEVICE, REQUIREMENT, Sink, ENTRY)
    ensures AllAnswers(CodeRules(map[]), [SETTING], [Some(DEVICE)], [REQUIREMENT], Sink)
         != AllAnswers(FullRules(map[]), [SETTING], [Some(DEVICE)], [REQUIREMENT], Sink)
  {
    var configs := ENTRY.value.ase.configs;
    assert configs[..0] == [] && Table(configs) == map[FrequencyTag := SamplingFrequency(HZ44100)];
    assert DEVICE.capabilities[0].Frequencies?;
    AnswersComplete(map[], [SETTING], [Some(DEVICE)], [REQUIREMENT], Sink);
    assert SETTING in [SETTING] && Some(DEVICE) in [Some(DEVICE)] && REQUIREMENT in [REQUIREMENT];
    assert Gives(FullRules(map[]), SETTING, DEVICE, REQUIREMENT, Sink, ENTRY);
  }

  // ------------------------------------------------------------ channel counts

  /** The rules that compare channel counts. */
  function StrictRules(ps: Priorities): Rules { Rules(ps, TABLE, true) }

  /** The entry has a number of channels that the device does not support. */
  predicate WrongChannels(dc: Option<Direction>, d: Device) {
    dc.Some? && ChannelTag in Table(dc.value.ase.configs)
    && var cfg := Table(dc.value.ase.configs)[ChannelTag];
       cfg.ChannelAllocation?
       && exists i :: 0 <= i < |d.capabilities| && d.capabilities[i].ChannelCounts?
                      && ChannelNumber(cfg.locations) !in d.capabilities[i].counts
  }

  /** What is gained by not comparing: exactly the entries with a wrong number of channels. */
  lemma CountingCosts(ps: Priorities, dc: Option<Direction>, d: Device)
    ensures DeviceTakes(StrictRules(ps), dc, d) <==> DeviceTakes(CodeRules(ps), dc, d) && !WrongChannels(dc, d)
  {
    if dc.Some? {
      var table, caps := Table(dc.value.ase.configs), d.capabilities;
      forall i | 0 <= i < |caps| && TagFor(caps[i]) in table
        ensures MatchedCapability(StrictRules(ps), table[TagFor(caps[i])], caps[i]) <==>
          MatchedCapability(CodeRules(ps), table[TagFor(caps[i])], caps[i])
          && !(caps[i].ChannelCounts? && table[ChannelTag].ChannelAllocation?
               && ChannelNumber(table[ChannelTag].locations) !in caps[i].counts)
      {
      }
    }
  }

  /** The answers respect the devices' channel counts exactly when no stored entry that suits a
      device and a requirement otherwise has a number of channels the device does not support. */
  lemma AnswersCounted(ps: Priorities, settings: seq<Setting>, ds: seq<Option<Device>>,
                       rs: seq<Requirement>, side: Side)
    ensures AllAnswers(StrictRules(ps), settings, ds, rs, side) == AllAnswers(CodeRules(ps), settings, ds, rs, side)
      <==> forall s, d, r, dc :: s in settings && Some(d) in ds && r in rs && Gives(CodeRules(ps), s, d, r, side, dc)
             ==> !WrongChannels(dc, d)
  {
    AnswersAgree(StrictRules(ps), CodeRules(ps), settings, ds, rs, side);
    forall s, d, r, dc
      ensures Loses(StrictRules(ps), CodeRules(ps), s, d, r, side, dc) <==>
        Gives(CodeRules(ps), s, d, r, side, dc) && WrongChannels(dc, d)
    {
      CountingCosts(ps, dc, d);
    }
  }

  const STEREO_ENTRY := Some(Direction(Ase(0, Some(6), [ChannelAllocation({1, 2})]), 0))
  const STEREO_SETTING := Setting({1}, 0, Some([STEREO_ENTRY]), None, 0)
  const MONO_DEVICE := Device(6, [ChannelCounts({1})], None)

  /** A stereo setting is returned for a device that supports one channel only. */
  lemma StereoForMonoDevice()
    ensures Gives(CodeRules(map[]), STEREO_SETTING, MONO_DEVICE, REQUIREMENT, Sink, STEREO_ENTRY)
    ensures WrongChannels(STEREO_ENTRY, MONO_DEVICE)
    ensures AllAnswers(CodeRules(map[]), [STEREO_SETTING], [Some(MONO_DEVICE)], [REQUIREMENT], Sink) == [STEREO_SETTING]
    ensures AllAnswers(StrictRules(map[]), [STEREO_SETTING], [Some(MONO_DEVICE)], [REQUIREMENT], Sink)
         != AllAnswers(CodeRules(map[]), [STEREO_SETTING], [Some(MONO_DEVICE)], [REQUIREMENT], Sink)
  {
    var configs := STEREO_ENTRY.value.ase.configs;
    assert configs[..0] == [] && Table(configs) == map[ChannelTag := ChannelAllocation({1, 2})];
    assert ChannelNumber({1, 2}) == 2;
    assert MONO_DEVICE.capabilities[0].ChannelCounts? && 2 !in MONO_DEVICE.capabilities[0].counts;
    AnswersCounted(map[], [STEREO_SETTING], [Some(MONO_DEVICE)], [REQUIREMENT], Sink);
    assert STEREO_SETTING in [STEREO_SETTING] && Some(MONO_DEVICE) in [Some(MONO_DEVICE)] && REQUIREMENT in [REQUIREMENT];
    assert Gives(CodeRules(map[]), STEREO_SETTING, MONO_DEVICE, REQUIREMENT, Sink, STEREO_ENTRY);
    OneTriple(CodeRules(map[]), STEREO_SETTING, MONO_DEVICE, REQUIREMENT, Sink, STEREO_ENTRY);
  }

  /** A setting with one entry, which is given, is the whole answer. */
  lemma OneTriple(pr: Rules, s: Setting, d: Device, r: Requirement, side: Side, dc: Option<Direction>)
    requires Gives(pr, s, d, r, side, dc) && ListOf(s, side) == Some([dc])
    ensures AllAnswers(pr, [s], [Some(d)], [r], side) == [WithList(s, side, [dc])]
  {
    assert [dc][..0] == [] && Filter([dc], BothTest(pr, d, RequirementsOf(r, side))) == [dc];
    FlatMapOne(r, AnswerStep(pr, s, d, side));
    FlatMapOne(Some(d), AnswersFor(pr, s, [r], side));
    FlatMapOne(s, AnswersOf(pr, [Some(d)], [r], side));
  }

  /** The setting holds the entry, on either side. */
  ghost predicate Holds(t: Setting, dc: Option<Direction>) {
    (t.sink.Some? && dc in t.sink.value) || (t.source.Some? && dc in t.source.value)
  }

  /** Every entry of the settings names a codec that the calls have left enabled. */
  ghost predicate AllEnabled(result: seq<Setting>, calls: seq<(CodecId, int)>) {
    forall t, dc :: t in result && Holds(t, dc) ==>
      dc.Some? && dc.value.ase.codecId.Some? && !LastDisabled(calls, dc.value.ase.codecId.value)
  }

  lemma AnswersEnabled(pr: Rules, calls: seq<(CodecId, int)>, settings: seq<Setting>, ds: seq<Option<Device>>,
                       rs: seq<Requirement>, side: Side)
    requires pr.priorities == PrioritiesAfter(calls)
    ensures AllEnabled(AllAnswers(pr, settings, ds, rs, side), calls)
  {
    forall t, dc | t in AllAnswers(pr, settings, ds, rs, side) && Holds(t, dc)
      ensures dc.Some? && dc.value.ase.codecId.Some? && !LastDisabled(calls, dc.value.ase.codecId.value)
    {
      var s, d, r := AnswerHasTriple(pr, settings, ds, rs, side, t);
      NothingUnmatched(pr, settings, ds, rs, side, t, dc);
      LastPriorityCounts(calls, dc.value.ase.codecId.value);
    }
  }

  // ------------------------------------------------------------ the provider

  class LeAudioOffloadAudioProvider {
    var codecPriority: Priorities
    ghost var calls: seq<(CodecId, int)>  // the setCodecPriority calls so far

    ghost predicate Valid()
      reads this
    {
      codecPriority == PrioritiesAfter(calls)
    }

    function Current(): Rules
      reads this
    {
      CodeRules(codecPriority)
    }

    constructor ()
      ensures Valid() && calls == []
    {
      codecPriority, calls := map[], [];
    }

    /** The priorities are those that the calls so far, this one last, have set. */
    method SetCodecPriority(id: CodecId, priority: int)
      requires Valid()
      modifies this
      ensures Valid() && calls == old(calls) + [(id, priority)]
      ensures Disabled(codecPriority, id) <==> priority == CODEC_PRIORITY_DISABLED
    {
      codecPriority, calls := codecPriority[id := priority], calls + [(id, priority)];
    }

    method FilterByDevice(dcs: seq<Option<Direction>>, d: Device) returns (valid: seq<Option<Direction>>)
      ensures valid == Filter(dcs, DeviceTest(Current(), d))
    {
      valid := [];
      var i := 0;
      while i < |dcs|
        invariant i <= |dcs| && valid == Filter(dcs[..i], DeviceTest(Current(), d))
      {
        var dc := dcs[i];
        assert dcs[..i + 1][..i] == dcs[..i];
        i := i + 1;
        if dc.None? { continue; }
        if dc.value.ase.codecId.None? { continue; }
        if !MatchedValidCodec(Current(), dc.value.ase.codecId.value, d.codecId) { continue; }
        if !MatchedCapabilities(Current(), dc.value.ase.configs, d.capabilities) { continue; }
        valid := valid + [dc];
      }
      assert dcs[..i] == dcs;
    }

    method FilterByRequirement(dcs: seq<Option<Direction>>, reqs: Option<seq<Option<Ase>>>)
      returns (valid: seq<Option<Direction>>)
      ensures valid == Filter(dcs, RequirementTest(Current(), reqs))
    {
      valid := [];
      var i := 0;
      while i < |dcs|
        invariant i <= |dcs| && valid == Filter(dcs[..i], RequirementTest(Current(), reqs))
      {
        var dc := dcs[i];
        assert dcs[..i + 1][..i] == dcs[..i];
        i := i + 1;
        if reqs.None? {
          valid := valid + [dc];
          continue;
        }
        if dc.None? { continue; }
        var any := AnyRequirement(dc.value.ase, reqs.value);
        if any {
          valid := valid + [dc];
        }
      }
      assert dcs[..i] == dcs;
    }

    /** The inner loop: the first requirement that matches settles it. */
    method AnyRequirement(ase: Ase, reqs: seq<Option<Ase>>) returns (any: bool)
      ensures any == SomeRequirement(Current(), ase, reqs)
    {
      var j := 0;
      while j < |reqs|
        invariant j <= |reqs|
        invariant forall k :: 0 <= k < j && reqs[k].Some? ==> !MatchedAse(Current(), ase, reqs[k].value)
      {
        if reqs[j].Some? && MatchedAse(Current(), ase, reqs[j].value) {
          return true;
        }
        j := j + 1;
      }
      return false;
    }

    method MatchDevice(s: Setting, d: Device, side: Side) returns (found: seq<Setting>)
      ensures found == ByDevice(Current(), s, d, side)
    {
      if !MatchedContext(s.context, d) {
        return [];
      }
      if ListOf(s, side).None? {
        return [];
      }
      var valid := FilterByDevice(ListOf(s, side).value, d);
      if valid == [] {
        return [];
      }
      return [WithList(s, side, valid)];
    }

    method MatchRequirement(s: Setting, r: Requirement) returns (found: seq<Setting>)
      requires HasSide(s)
      ensures found == ByRequirement(Current(), s, r)
    {
      if s.context != r.context {
        return [];
      }
      var side := if s.sink.Some? then Sink else Source;
      var valid := FilterByRequirement(ListOf(s, side).value, RequirementsOf(r, side));
      if valid == [] {
        return [];
      }
      return [WithList(s, side, valid)];
    }

    /** The inner loop of the first pass. */
    method MatchSettingDevices(s: Setting, ds: seq<Option<Device>>, side: Side) returns (matched: seq<Setting>)
      ensures matched == FlatMap(ds, DeviceStep(Current(), s, side))
    {
      matched := [];
      var j := 0;
      while j < |ds|
        invariant j <= |ds| && matched == FlatMap(ds[..j], DeviceStep(Current(), s, side))
      {
        FlatMapNext(ds, DeviceStep(Current(), s, side), j);
        if ds[j].Some? {
          var found := MatchDevice(s, ds[j].value, side);
          matched := matched + found;
        }
        j := j + 1;
      }
      assert ds[..j] == ds;
    }

    /** First pass: every setting against every device. */
    method MatchDevices(settings: seq<Setting>, ds: seq<Option<Device>>, side: Side)
      returns (matched: seq<Setting>)
      ensures matched == FlatMap(settings, DevicesStep(Current(), ds, side))
    {
      matched := [];
      var i := 0;
      while i < |settings|
        invariant i <= |settings|
        invariant matched == FlatMap(settings[..i], DevicesStep(Current(), ds, side))
      {
        FlatMapNext(settings, DevicesStep(Current(), ds, side), i);
        var found := MatchSettingDevices(settings[i], ds, side);
        matched := matched + found;
        i := i + 1;
      }
      assert settings[..i] == settings;
    }

    /** The inner loop of the second pass. */
    method MatchSettingRequirements(s: Setting, rs: seq<Requirement>) returns (matched: seq<Setting>)
      requires HasSide(s)
      ensures matched == FlatMap(rs, RequirementStep(Current(), s))
    {
      matched := [];
      var j := 0;
      while j < |rs|
        invariant j <= |rs| && matched == FlatMap(rs[..j], RequirementStep(Current(), s))
      {
        FlatMapNext(rs, RequirementStep(Current(), s), j);
        var found := MatchRequirement(s, rs[j]);
        matched := matched + found;
        j := j + 1;
      }
      assert rs[..j] == rs;
    }

    /** Second pass: every matched setting against every requirement. */
    method MatchRequirements(settings: seq<Setting>, rs: seq<Requirement>) returns (matched: seq<Setting>)
      requires forall s :: s in settings ==> HasSide(s)
      ensures matched == FlatMap(settings, RequirementsStep(Current(), rs))
    {
      matched := [];
      var i := 0;
      while i < |settings|
        invariant i <= |settings|
        invariant matched == FlatMap(settings[..i], RequirementsStep(Current(), rs))
      {
        FlatMapNext(settings, RequirementsStep(Current(), rs), i);
        var found := MatchSettingRequirements(settings[i], rs);
        matched := matched + found;
        i := i + 1;
      }
      assert settings[..i] == settings;
    }

    /** When both capability lists are given, only the sink list counts. With neither, the source
        throws as soon as it looks at a stored setting. */
    method GetLeAudioAseConfiguration(sinks: Option<seq<Option<Device>>>, sources: Option<seq<Option<Device>>>,
                                      rs: seq<Requirement>, settings: seq<Setting>)
      returns (result: seq<Setting>)
      requires sinks.Some? || sources.Some? || settings == []
      ensures result == if sinks.Some? then AllAnswers(Current(), settings, sinks.value, rs, Sink)
                        else if sources.Some? then AllAnswers(Current(), settings, sources.value, rs, Source)
                        else []
      ensures Valid() ==> AllEnabled(result, calls)
    {
      var side := if sinks.Some? then Sink else Source;
      if settings == [] {
        return [];
      }
      var ds := if sinks.Some? then sinks.value else sources.value;
      var matched := MatchDevices(settings, ds, side);
      forall s | s in matched
        ensures HasSide(s)
      {
        MatchedHasSide(Current(), settings, ds, side, s);
      }
      result := MatchRequirements(matched, rs);
      TwoPassesAreOne(Current(), settings, ds, rs, side);
      if Valid() {
        AnswersEnabled(Current(), calls, settings, ds, rs, side);
      }
    }
  }
}
