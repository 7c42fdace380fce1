/**
 What the answers of getLeAudioAseConfiguration hold, in terms of the values that stored entries,
 devices and requirements state (bluetooth/audio/hal/LeAudioOffloadAudioProvider.cpp), without
 the tables and matching predicates by which AseConfiguration finds them.
 */
module AseLaws {
  import opened AseConfiguration
  import opened Options

  // ------------------------------------------------------------ the last value of a kind

  predicate SameKind(a: Config, b: Config) {
    (a.SamplingFrequency? && b.SamplingFrequency?)
    || (a.FrameDuration? && b.FrameDuration?)
    || (a.ChannelAllocation? && b.ChannelAllocation?)
    || (a.OctetsPerFrame? && b.OctetsPerFrame?)
    || (a.FrameBlocksPerSdu? && b.FrameBlocksPerSdu?)
  }

  /** The last value of its kind in the vector. */
  ghost predicate LastIs(configs: seq<Config>, c: Config) {
    exists i :: 0 <= i < |configs| && configs[i] == c && forall j :: i < j < |configs| ==> !SameKind(configs[j], c)
  }

  lemma LastOfMore(configs: seq<Config>, c: Config)
    requires configs != []
    ensures var n := |configs| - 1;
      LastIs(configs, c) <==> configs[n] == c || (!SameKind(configs[n], c) && LastIs(configs[..n], c))
  {
    var n := |configs| - 1;
    var init := configs[..n];
    if LastIs(init, c) && !SameKind(configs[n], c) {
      var i :| 0 <= i < n && init[i] == c && forall j :: i < j < n ==> !SameKind(init[j], c);
      assert configs[i] == c && forall j :: i < j < |configs| ==> !SameKind(configs[j], c);
    }
    if i :| 0 <= i < n && configs[i] == c && forall j :: i < j < |configs| ==> !SameKind(configs[j], c) {
      assert init[i] == c && forall j :: i < j < n ==> !SameKind(init[j], c);
    }
  }

  lemma {:induction false} TableHoldsLast(configs: seq<Config>, c: Config)
    ensures LastIs(configs, c) <==> TagOf(c) in Table(configs) && Table(configs)[TagOf(c)] == c
  {
    if configs != [] {
      LastOfMore(configs, c);
      TableHoldsLast(configs[..|configs| - 1], c);
    }
  }

  lemma {:induction false} TableTags(configs: seq<Config>, tag: Tag)
    requires tag in Table(configs)
    ensures TagOf(Table(configs)[tag]) == tag
  {
    if tag != TagOf(configs[|configs| - 1]) {
      TableTags(configs[..|configs| - 1], tag);
    }
  }

  // ------------------------------------------------------------ devices

  /** The last value of the kind that the capability speaks about is one it allows. */
  ghost predicate Allows(cap: Capability, configs: seq<Config>) {
    match cap
    case Frequencies(fs) => exists f :: LastIs(configs, SamplingFrequency(f)) && f in fs && f != HZ44100
    case Durations(ds) => exists d :: LastIs(configs, FrameDuration(d)) && d in ds
    case ChannelCounts(_) => exists ls :: LastIs(configs, ChannelAllocation(ls))
    case Octets(min, max) => exists o :: LastIs(configs, OctetsPerFrame(o)) && min <= o && o <= max
    case MaxFramesPerSdu(max) => exists n :: LastIs(configs, FrameBlocksPerSdu(n)) && n <= max
  }

  lemma CapabilityAllows(ps: Priorities, configs: seq<Config>, cap: Capability)
    ensures Allows(cap, configs) <==>
      TagFor(cap) in Table(configs) && MatchedCapability(CodeRules(ps), Table(configs)[TagFor(cap)], cap)
  {
    if TagFor(cap) in Table(configs) {
      TableTags(configs, TagFor(cap));
      TableHoldsLast(configs, Table(configs)[TagFor(cap)]);
    }
    forall c
      ensures LastIs(configs, c) ==> TagOf(c) in Table(configs) && Table(configs)[TagOf(c)] == c
    {
      TableHoldsLast(configs, c);
    }
  }

  ghost predicate Enabled(ps: Priorities, id: CodecId) {
    id in ps ==> ps[id] != CODEC_PRIORITY_DISABLED
  }

  /** The entry has the codec of the device, enabled, and values that all its capabilities allow. */
  ghost predicate Suits(ps: Priorities, dc: Option<Direction>, d: Device) {
    dc.Some? && dc.value.ase.codecId == Some(d.codecId) && Enabled(ps, d.codecId)
    && forall i :: 0 <= i < |d.capabilities| ==> Allows(d.capabilities[i], dc.value.ase.configs)
  }

  lemma SuitsIsTaken(ps: Priorities, dc: Option<Direction>, d: Device)
    ensures Suits(ps, dc, d) <==> DeviceTakes(CodeRules(ps), dc, d)
  {
    if dc.Some? {
      forall i | 0 <= i < |d.capabilities|
        ensures Allows(d.capabilities[i], dc.value.ase.configs) <==>
          TagFor(d.capabilities[i]) in Table(dc.value.ase.configs)
          && MatchedCapability(CodeRules(ps), Table(dc.value.ase.configs)[TagFor(d.capabilities[i])], d.capabilities[i])
      {
        CapabilityAllows(ps, dc.value.ase.configs, d.capabilities[i]);
      }
    }
  }

  /** The device states no metadata, or prefers one of the contexts. */
  ghost predicate Prefers(d: Device, context: set<nat>) {
    d.metadata.None?
    || exists c, i :: c in context && 0 <= i < |d.metadata.value| && PrefersAt(d.metadata.value[i], c)
  }

  ghost predicate PrefersAt(m: Option<Metadata>, c: nat) {
    m.Some? && m.value.PreferredContexts? && c in m.value.contexts
  }

  lemma PrefersIsMatched(d: Device, context: set<nat>)
    ensures Prefers(d, context) <==> MatchedContext(context, d)
  {
    if d.metadata.Some? {
      forall i | 0 <= i < |d.metadata.value| && d.metadata.value[i].Some? && d.metadata.value[i].value.PreferredContexts?
        ensures context * d.metadata.value[i].value.contexts != {} <==>
          exists c :: c in context && PrefersAt(d.metadata.value[i], c)
      {
        var common := context * d.metadata.value[i].value.contexts;
        if common != {} {
          var c :| c in common;
          assert PrefersAt(d.metadata.value[i], c);
        }
        assert forall c :: c in context && PrefersAt(d.metadata.value[i], c) ==> c in common;
      }
    }
  }

  // ------------------------------------------------------------ requirements

  /** The entry has the required codec, if one is required, the required latency, and every required
      value as its last one of that kind. */
  ghost predicate Meets(ps: Priorities, ase: Ase, req: Ase) {
    (req.codecId.Some? ==> ase.codecId == req.codecId && Enabled(ps, req.codecId.value))
    && ase.targetLatency == req.targetLatency
    && forall i :: 0 <= i < |req.configs| ==> LastIs(ase.configs, req.configs[i])
  }

  lemma MeetsIsMatched(ps: Priorities, ase: Ase, req: Ase)
    ensures Meets(ps, ase, req) <==> MatchedAse(CodeRules(ps), ase, req)
  {
    forall i | 0 <= i < |req.configs|
      ensures LastIs(ase.configs, req.configs[i]) <==>
        TagOf(req.configs[i]) in Table(ase.configs) && Table(ase.configs)[TagOf(req.configs[i])] == req.configs[i]
    {
      TableHoldsLast(ase.configs, req.configs[i]);
    }
  }

  ghost predicate MeetsSome(ps: Priorities, dc: Option<Direction>, reqs: Option<seq<Option<Ase>>>) {
    reqs.None?
    || (dc.Some? && exists i :: 0 <= i < |reqs.value| && reqs.value[i].Some? && Meets(ps, dc.value.ase, reqs.value[i].value))
  }

  lemma MeetsSomeIsTaken(ps: Priorities, dc: Option<Direction>, reqs: Option<seq<Option<Ase>>>)
    ensures MeetsSome(ps, dc, reqs) <==> RequirementTakes(CodeRules(ps), dc, reqs)
  {
    if dc.Some? && reqs.Some? {
      forall i | 0 <= i < |reqs.value| && reqs.value[i].Some?
        ensures Meets(ps, dc.value.ase, reqs.value[i].value) <==>
          MatchedAse(CodeRules(ps), dc.value.ase, reqs.value[i].value)
      {
        MeetsIsMatched(ps, dc.value.ase, reqs.value[i].value);
      }
    }
  }

  // ------------------------------------------------------------ answers

  /** The stored setting holds the entry on the side asked for, the entry suits the device and meets
      the requirement on that side, and the contexts agree. */
  ghost predicate Called(ps: Priorities, s: Setting, d: Device, r: Requirement, side: Side, dc: Option<Direction>) {
    Prefers(d, s.context) && s.context == r.context && Suits(ps, dc, d)
    && (if side == Sink then s.sink.Some? && dc in s.sink.value && MeetsSome(ps, dc, r.sink)
        else s.source.Some? && dc in s.source.value && MeetsSome(ps, dc, r.source))
  }

  lemma CalledIsGiven(ps: Priorities, s: Setting, d: Device, r: Requirement, side: Side, dc: Option<Direction>)
    ensures Called(ps, s, d, r, side, dc) <==> Gives(CodeRules(ps), s, d, r, side, dc)
  {
    PrefersIsMatched(d, s.context);
    SuitsIsTaken(ps, dc, d);
    MeetsSomeIsTaken(ps, dc, if side == Sink then r.sink else r.source);
  }

  /** The answer has the entry on the side asked for, and nothing on the other. */
  ghost predicate Answers(t: Setting, side: Side, dc: Option<Direction>) {
    if side == Sink then t.source.None? && t.sink.Some? && dc in t.sink.value
    else t.sink.None? && t.source.Some? && dc in t.source.value
  }

  ghost predicate CalledBy(ps: Priorities, settings: seq<Setting>, ds: seq<Option<Device>>, rs: seq<Requirement>,
                           side: Side, dc: Option<Direction>, s: Setting, d: Device, r: Requirement)
  {
    s in settings && Some(d) in ds && r in rs && Called(ps, s, d, r, side, dc)
  }

  /** Every entry of every answer is called for by a stored setting, a device and a requirement. */
  lemma AnsweredIsCalled(ps: Priorities, settings: seq<Setting>, ds: seq<Option<Device>>, rs: seq<Requirement>,
                         side: Side, t: Setting, dc: Option<Direction>)
    returns (s: Setting, d: Device, r: Requirement)
    requires t in AllAnswers(CodeRules(ps), settings, ds, rs, side)
    requires ListOf(t, side).Some? && dc in ListOf(t, side).value
    ensures CalledBy(ps, settings, ds, rs, side, dc, s, d, r) && Answers(t, side, dc)
    ensures t.context == s.context && t.packing == s.packing && t.flags == s.flags
  {
    s, d, r := AnswerHasTriple(CodeRules(ps), settings, ds, rs, side, t);
    var test := BothTest(CodeRules(ps), d, RequirementsOf(r, side));
    FilterMembers(ListOf(s, side).value, test, dc);
    CalledIsGiven(ps, s, d, r, side, dc);
  }

  /** Every entry that is called for is in an answer, of the setting that stores it. */
  lemma CalledIsAnswered(ps: Priorities, settings: seq<Setting>, ds: seq<Option<Device>>, rs: seq<Requirement>,
                         side: Side, dc: Option<Direction>, s: Setting, d: Device, r: Requirement)
    returns (t: Setting)
    requires CalledBy(ps, settings, ds, rs, side, dc, s, d, r)
    ensures t in AllAnswers(CodeRules(ps), settings, ds, rs, side) && Answers(t, side, dc)
    ensures t.context == s.context && t.packing == s.packing && t.flags == s.flags
  {
    CalledIsGiven(ps, s, d, r, side, dc);
    var test := BothTest(CodeRules(ps), d, RequirementsOf(r, side));
    var list := Filter(ListOf(s, side).value, test);
    FilterMembers(ListOf(s, side).value, test, dc);
    t := WithList(s, side, list);
    TripleIsListed(CodeRules(ps), settings, ds, rs, side, s, d, r, t);
  }

  // ------------------------------------------------------------ order and number of entries

  /** `xs` is what is left of `ys` after some elements are taken away. */
  ghost predicate LeftOf<T>(xs: seq<T>, ys: seq<T>)
    decreases |ys|
  {
    xs == []
    || (ys != [] && (LeftOf(xs, ys[..|ys| - 1])
                     || (xs[|xs| - 1] == ys[|ys| - 1] && LeftOf(xs[..|xs| - 1], ys[..|ys| - 1]))))
  }

  /** A filter keeps the order of what it keeps, and all of it as often as it was there. */
  lemma {:induction false} FilterKeeps<T>(xs: seq<T>, keep: T -> bool, x: T)
    ensures LeftOf(Filter(xs, keep), xs)
    ensures multiset(Filter(xs, keep))[x] == if keep(x) then multiset(xs)[x] else 0
  {
    if xs != [] {
      var ys, last := xs[..|xs| - 1], xs[|xs| - 1];
      FilterKeeps(ys, keep, x);
      assert xs == ys + [last];
      var zs := Filter(ys, keep);
      if keep(last) {
        assert (zs + [last])[..|zs|] == zs;
      }
    }
  }

  /** An answer holds entries of one stored setting, in their order, and each of them as often as
      the setting does. */
  lemma AnswerKeepsOrder(ps: Priorities, settings: seq<Setting>, ds: seq<Option<Device>>, rs: seq<Requirement>,
                         side: Side, t: Setting, dc: Option<Direction>)
    returns (s: Setting)
    requires t in AllAnswers(CodeRules(ps), settings, ds, rs, side)
    ensures s in settings && ListOf(s, side).Some? && ListOf(t, side).Some? && ListOf(t, side).value != []
    ensures LeftOf(ListOf(t, side).value, ListOf(s, side).value)
    ensures dc in ListOf(t, side).value ==>
      multiset(ListOf(t, side).value)[dc] == multiset(ListOf(s, side).value)[dc]
  {
    var d, r;
    s, d, r := AnswerHasTriple(CodeRules(ps), settings, ds, rs, side, t);
    FilterKeeps(ListOf(s, side).value, BothTest(CodeRules(ps), d, RequirementsOf(r, side)), dc);
    FilterMembers(ListOf(s, side).value, BothTest(CodeRules(ps), d, RequirementsOf(r, side)), dc);
  }
}
