/**
 Choosing a codec and building its configuration
 (bluetooth/audio/hal/A2dpOffloadCodecFactory.cpp).
 */
module CodecFactory {
  import opened A2dpBits
  import opened A2dpCodec
  import opened Options
  import Sbc = SbcCodec
  import Aac = AacCodec

  datatype CodecId = SBC | AAC | OTHER(code: nat)

  datatype RemoteCapabilities = RemoteCapabilities(seid: int, id: CodecId, capabilities: seq<bv8>)

  datatype Hint = Hint(codecId: CodecId, codecParameters: Option<CodecParameters>)

  /** The codecs in the order of the constructor. */
  const RANKED: seq<CodecId> := [AAC, SBC]

  /** The remote entry for a codec. */
  function FindRemote(remotes: seq<RemoteCapabilities>, id: CodecId): (r: Option<RemoteCapabilities>)
    ensures r.Some? ==> r.value.id == id
    ensures r.None? <==> forall k :: 0 <= k < |remotes| ==> remotes[k].id != id
  {
    if remotes == [] then None
    else if remotes[0].id == id then Some(remotes[0])
    else FindRemote(remotes[1..], id)
  }

  /** It is the first one. */
  lemma {:induction false} FoundIsFirst(remotes: seq<RemoteCapabilities>, id: CodecId, k: nat)
    requires k < |remotes| && remotes[k].id == id && forall j :: 0 <= j < k ==> remotes[j].id != id
    ensures FindRemote(remotes, id) == Some(remotes[k])
  {
    if k > 0 {
      FoundIsFirst(remotes[1..], id, k - 1);
    }
  }

  function Without(codecs: seq<CodecId>, id: CodecId): seq<CodecId> {
    if codecs == [] then []
    else if codecs[0] == id then Without(codecs[1..], id)
    else [codecs[0]] + Without(codecs[1..], id)
  }

  /** The hinted codec first, then the others in rank order. */
  function TryOrder(ranked: seq<CodecId>, hinted: CodecId): seq<CodecId> {
    [hinted] + Without(ranked, hinted)
  }

  lemma {:induction false} WithoutKeepsOthers(codecs: seq<CodecId>, id: CodecId, c: CodecId)
    ensures multiset(Without(codecs, id))[c] == if c == id then 0 else multiset(codecs)[c]
  {
    if codecs != [] {
      WithoutKeepsOthers(codecs[1..], id, c);
      assert codecs == [codecs[0]] + codecs[1..];
    }
  }

  /** The others stay in rank order, however many there are. */
  lemma {:induction false} WithoutKeepsOrder(a: seq<CodecId>, b: seq<CodecId>, id: CodecId)
    ensures Without(a + b, id) == Without(a, id) + Without(b, id)
  {
    if a == [] {
      assert a + b == b;
    } else {
      assert (a + b)[1..] == a[1..] + b;
      WithoutKeepsOrder(a[1..], b, id);
    }
  }

  /** Every ranked codec is tried exactly once. */
  lemma TryOrderPermutes(ranked: seq<CodecId>, hinted: CodecId)
    requires multiset(ranked)[hinted] == 1
    ensures multiset(TryOrder(ranked, hinted)) == multiset(ranked)
  {
    forall c
      ensures multiset(TryOrder(ranked, hinted))[c] == multiset(ranked)[c]
    {
      WithoutKeepsOthers(ranked, hinted, c);
    }
  }

  // ------------------------------------------------------------ what is chosen

  ghost predicate Buildable(id: CodecId, caps: seq<bv8>, params: Option<CodecParameters>) {
    match id
    case SBC => Sbc.Buildable(caps, params)
    case AAC => Aac.Buildable(caps, params)
    case OTHER(_) => false
  }

  /** The remote lists the codec and a configuration for it can be built. */
  ghost predicate Usable(id: CodecId, remotes: seq<RemoteCapabilities>, params: Option<CodecParameters>) {
    var r := FindRemote(remotes, id);
    r.Some? && Buildable(id, r.value.capabilities, params)
  }

  /** `c` is the configuration codec `id` builds, and it parses to `p`. */
  ghost predicate Built(id: CodecId, caps: seq<bv8>, params: Option<CodecParameters>,
                        c: seq<bv8>, p: CodecParameters)
    requires Buildable(id, caps, params)
  {
    match id
    case SBC => Sbc.Built(caps, params, c) && Sbc.Valid(c) && p == Sbc.Decode(c).codec
    case AAC => Aac.Built(caps, params, c) && Aac.Valid(c) && p == Aac.Decode(c).codec
  }

  /** Codec `id` can build for the remote capabilities, and has built `c`, which parses to `p`. */
  ghost predicate Configured(id: CodecId, caps: seq<bv8>, params: Option<CodecParameters>,
                             c: seq<bv8>, p: CodecParameters)
  {
    Buildable(id, caps, params) && Built(id, caps, params, c, p)
  }

  const NO_PARAMETERS := CodecParameters(UNKNOWN, 0, 0, 0, 0)

  datatype Answer = Answer(id: CodecId, seid: int, bytes: seq<bv8>, parameters: CodecParameters)

  /** The configuration of codec `id`, parsed back. */
  ghost predicate IsAnswer(a: Answer, id: CodecId, remotes: seq<RemoteCapabilities>,
                           params: Option<CodecParameters>)
    requires Usable(id, remotes, params)
  {
    var r := FindRemote(remotes, id).value;
    a.id == id && a.seid == r.seid
    && Built(id, r.capabilities, params, a.bytes, a.parameters)
  }

  ghost predicate Answered(a: Answer, id: CodecId, remotes: seq<RemoteCapabilities>,
                           params: Option<CodecParameters>)
  {
    Usable(id, remotes, params) && IsAnswer(a, id, remotes, params)
  }

  lemma IsTheAnswer(id: CodecId, remotes: seq<RemoteCapabilities>, params: Option<CodecParameters>,
                    bytes: seq<bv8>, p: CodecParameters)
    requires FindRemote(remotes, id).Some?
    requires Configured(id, FindRemote(remotes, id).value.capabilities, params, bytes, p)
    ensures Answered(Answer(id, FindRemote(remotes, id).value.seid, bytes, p), id, remotes, params)
  {
  }

  /** `k` is the place of the first usable codec in the order of trial. */
  ghost predicate FirstUsable(k: int, order: seq<CodecId>, remotes: seq<RemoteCapabilities>,
                              params: Option<CodecParameters>)
  {
    0 <= k < |order| && Usable(order[k], remotes, params)
    && forall j :: 0 <= j < k ==> !Usable(order[j], remotes, params)
  }

  ghost predicate NoneUsable(codecs: seq<CodecId>, remotes: seq<RemoteCapabilities>, params: Option<CodecParameters>) {
    forall id :: id in codecs ==> !Usable(id, remotes, params)
  }

  lemma FirstIs(order: seq<CodecId>, k: nat, remotes: seq<RemoteCapabilities>, params: Option<CodecParameters>)
    requires k < |order| && Usable(order[k], remotes, params) && NoneUsable(order[..k], remotes, params)
    ensures FirstUsable(k, order, remotes, params)
  {
    assert forall j :: 0 <= j < k ==> order[j] in order[..k];
  }

  lemma TriesRanked(hinted: CodecId)
    requires hinted in RANKED
    ensures forall id :: id in TryOrder(RANKED, hinted) <==> id in RANKED
  {
    assert RANKED[1..] == [SBC] && RANKED[1..][1..] == [];
  }

  /** The answer is the one of the first usable codec. */
  ghost predicate Chosen(a: Answer, remotes: seq<RemoteCapabilities>, hint: Hint) {
    var order := TryOrder(RANKED, hint.codecId);
    exists k :: FirstUsable(k, order, remotes, hint.codecParameters)
      && IsAnswer(a, order[k], remotes, hint.codecParameters)
  }

  /** The answer depends on the request alone: nothing an earlier failed attempt left in the
      output can show in it. */
  lemma ChosenUnique(a: Answer, b: Answer, remotes: seq<RemoteCapabilities>, hint: Hint)
    requires Chosen(a, remotes, hint) && Chosen(b, remotes, hint)
    ensures a == b
  {
    var order, params := TryOrder(RANKED, hint.codecId), hint.codecParameters;
    var k :| FirstUsable(k, order, remotes, params) && IsAnswer(a, order[k], remotes, params);
    var l :| FirstUsable(l, order, remotes, params) && IsAnswer(b, order[l], remotes, params);
    assert k == l;
    var caps := FindRemote(remotes, order[k]).value.capabilities;
    match order[k]
    case SBC => Sbc.BuiltUnique(caps, params, a.bytes, b.bytes);
    case AAC => Aac.BuiltUnique(caps, params, a.bytes, b.bytes);
  }

  /** The first codec in the order of trial that passes a test is the hinted one if that passes,
      and otherwise the first ranked one that passes. */
  lemma FirstTried(test: CodecId -> bool, hinted: CodecId, k: nat)
    requires hinted in RANKED && k < |TryOrder(RANKED, hinted)| && test(TryOrder(RANKED, hinted)[k])
    requires forall j :: 0 <= j < k ==> !test(TryOrder(RANKED, hinted)[j])
    ensures test(hinted) ==> TryOrder(RANKED, hinted)[k] == hinted
    ensures !test(hinted) ==> FirstRanked(test, TryOrder(RANKED, hinted)[k])
  {
    assert RANKED[1..] == [SBC] && RANKED[1..][1..] == [];
    var order := TryOrder(RANKED, hinted);
    assert order == if hinted == AAC then [AAC, SBC] else [SBC, AAC];
    assert order[0] == hinted;
    if !test(hinted) {
      var i := if hinted == AAC then 1 else 0;
      assert RANKED[i] == order[k] && forall j :: 0 <= j < i ==> !test(RANKED[j]);
    }
  }

  /** The codec is the first ranked one that passes the test. */
  predicate FirstRanked(test: CodecId -> bool, id: CodecId) {
    exists k :: 0 <= k < |RANKED| && id == RANKED[k] && forall j :: 0 <= j < k ==> !test(RANKED[j])
  }

  ghost function UsableTest(remotes: seq<RemoteCapabilities>, params: Option<CodecParameters>): CodecId -> bool {
    id => Usable(id, remotes, params)
  }

  /** A usable hinted codec is the answer; if it is not usable, the first ranked codec that is. */
  lemma ChosenFollowsHint(a: Answer, remotes: seq<RemoteCapabilities>, hint: Hint)
    requires Chosen(a, remotes, hint) && hint.codecId in RANKED
    ensures Usable(hint.codecId, remotes, hint.codecParameters) ==> a.id == hint.codecId
    ensures !Usable(hint.codecId, remotes, hint.codecParameters) ==>
      FirstRanked(UsableTest(remotes, hint.codecParameters), a.id)
  {
    var order, params := TryOrder(RANKED, hint.codecId), hint.codecParameters;
    var k :| FirstUsable(k, order, remotes, params) && IsAnswer(a, order[k], remotes, params);
    FirstTried(UsableTest(remotes, params), hint.codecId, k);
  }

  /** The entry is the first one of the answer's codec, and the answer is built for it. */
  ghost predicate AnswersEntry(a: Answer, remotes: seq<RemoteCapabilities>, params: Option<CodecParameters>, k: nat)
    requires k < |remotes|
  {
    remotes[k].id == a.id && (forall j :: 0 <= j < k ==> remotes[j].id != a.id)
    && a.seid == remotes[k].seid
    && Configured(a.id, remotes[k].capabilities, params, a.bytes, a.parameters)
  }

  /** The answer's seid, bytes and parameters are those of the first remote entry of its codec. */
  lemma ChosenEntry(a: Answer, remotes: seq<RemoteCapabilities>, hint: Hint) returns (i: nat)
    requires Chosen(a, remotes, hint)
    ensures i < |remotes| && AnswersEntry(a, remotes, hint.codecParameters, i)
  {
    var order, params := TryOrder(RANKED, hint.codecId), hint.codecParameters;
    var k :| FirstUsable(k, order, remotes, params) && IsAnswer(a, order[k], remotes, params);
    i := FirstEntry(remotes, a.id);
    FoundIsFirst(remotes, a.id, i);
  }

  lemma {:induction false} FirstEntry(remotes: seq<RemoteCapabilities>, id: CodecId) returns (k: nat)
    requires FindRemote(remotes, id).Some?
    ensures k < |remotes| && remotes[k].id == id && forall j :: 0 <= j < k ==> remotes[j].id != id
  {
    k := 0;
    if remotes[0].id != id {
      var i := FirstEntry(remotes[1..], id);
      k := i + 1;
      assert forall j :: 1 <= j < k ==> remotes[j] == remotes[1..][j - 1];
    }
  }

  // ------------------------------------------------------------ the factory

  class A2dpConfiguration {
    var remoteSeid: int
    var id: CodecId
    var parameters: CodecParameters
    const configuration: ByteVector

    constructor (configuration: ByteVector)
      ensures this.configuration == configuration
    {
      this.configuration := configuration;
      remoteSeid, id := 0, OTHER(0);
      parameters := NO_PARAMETERS;
    }

    ghost function Value(): Answer
      reads this, configuration
    {
      Answer(id, remoteSeid, configuration.data, parameters)
    }
  }

  class A2dpOffloadCodecFactory {
    const sbc: Sbc.A2dpOffloadCodecSbc
    const aac: Aac.A2dpOffloadCodecAac

    ghost predicate Valid() {
      Sbc.HasLocalBits(sbc.capabilities) && Sbc.HasLocalBitpools(sbc.capabilities)
      && Aac.HasLocalBits(aac.capabilities)
    }

    constructor ()
      ensures Valid()
    {
      sbc := new Sbc.A2dpOffloadCodecSbc();
      aac := new Aac.A2dpOffloadCodecAac();
    }

    method BuildSbc(caps: seq<bv8>, params: Option<CodecParameters>, out: ByteVector)
      returns (ok: bool, parameters: CodecParameters)
      requires Valid()
      modifies out
      ensures ok <==> Sbc.Buildable(caps, params)
      ensures ok ==> Sbc.Built(caps, params, out.data) && Sbc.Valid(out.data)
      ensures ok ==> parameters == Sbc.Decode(out.data).codec
    {
      parameters := NO_PARAMETERS;
      ok := sbc.BuildConfiguration(caps, params, out);
      if ok {
        var status, p := sbc.ParseConfiguration(out.data);
        Sbc.BuiltIsValid(caps, params, out.data);
        // the source's own assertion
        assert status == OK;
        parameters := p.value.codec;
      }
    }

    method BuildAac(caps: seq<bv8>, params: Option<CodecParameters>, out: ByteVector)
      returns (ok: bool, parameters: CodecParameters)
      requires Valid()
      modifies out
      ensures ok <==> Aac.Buildable(caps, params)
      ensures ok ==> Aac.Built(caps, params, out.data) && Aac.Valid(out.data)
      ensures ok ==> parameters == Aac.Decode(out.data).codec
    {
      parameters := NO_PARAMETERS;
      ok := aac.BuildConfiguration(caps, params, out);
      if ok {
        var status, p := aac.ParseConfiguration(out.data);
        Aac.BuiltIsValid(caps, params, out.data);
        // the source's own assertion
        assert status == OK;
        parameters := p.value.codec;
      }
    }

    method BuildAndParse(id: CodecId, caps: seq<bv8>, params: Option<CodecParameters>, out: ByteVector)
      returns (ok: bool, parameters: CodecParameters)
      requires Valid() && id in RANKED
      modifies out
      ensures ok == Buildable(id, caps, params)
      ensures ok == Configured(id, caps, params, out.data, parameters)
    {
      if id == SBC {
        ok, parameters := BuildSbc(caps, params, out);
      } else {
        ok, parameters := BuildAac(caps, params, out);
      }
    }

    /** One turn of the loop of GetConfiguration. */
    method TryCodec(codec: CodecId, remotes: seq<RemoteCapabilities>,
                    params: Option<CodecParameters>, out: A2dpConfiguration) returns (ok: bool)
      requires Valid() && codec in RANKED
      modifies out, out.configuration
      ensures ok == Usable(codec, remotes, params)
      ensures ok == Answered(out.Value(), codec, remotes, params)
      ensures !ok ==> out.id == old(out.id)
      ensures !ok ==> out.remoteSeid == old(out.remoteSeid)
      ensures !ok ==> out.parameters == old(out.parameters)
    {
      var rc := FindRemote(remotes, codec);
      if rc.None? {
        return false;
      }
      ok := Configure(codec, rc.value, params, out);
      if ok {
        IsTheAnswer(codec, remotes, params, out.configuration.data, out.parameters);
      }
    }

    /** Builds for one remote entry, parses back and fills in the answer. */
    method Configure(codec: CodecId, rc: RemoteCapabilities, params: Option<CodecParameters>, out: A2dpConfiguration)
      returns (ok: bool)
      requires Valid() && codec in RANKED
      modifies out, out.configuration
      ensures ok == Buildable(codec, rc.capabilities, params)
      ensures ok ==> out.id == codec && out.remoteSeid == rc.seid
      ensures ok == Configured(codec, rc.capabilities, params, out.configuration.data, out.parameters)
      ensures !ok ==> out.id == old(out.id) && out.remoteSeid == old(out.remoteSeid)
      ensures !ok ==> out.parameters == old(out.parameters)
    {
      var parameters;
      ok, parameters := BuildAndParse(codec, rc.capabilities, params, out.configuration);
      if ok {
        out.id, out.parameters, out.remoteSeid := codec, parameters, rc.seid;
      }
    }

    /** A hint must name a ranked codec: the source dereferences the position it finds. */
    method GetConfiguration(remotes: seq<RemoteCapabilities>, hint: Hint, out: A2dpConfiguration)
      returns (ok: bool)
      requires Valid() && hint.codecId in RANKED
      modifies out, out.configuration
      ensures ok <==> exists id :: id in RANKED && Usable(id, remotes, hint.codecParameters)
      ensures ok ==> Chosen(out.Value(), remotes, hint)
      ensures !ok ==> out.id == old(out.id)
      ensures !ok ==> out.remoteSeid == old(out.remoteSeid)
      ensures !ok ==> out.parameters == old(out.parameters)
    {
      var codecs := TryOrder(RANKED, hint.codecId);
      TriesRanked(hint.codecId);
      var i := 0;
      while i < |codecs|
        invariant i <= |codecs|
        invariant NoneUsable(codecs[..i], remotes, hint.codecParameters)
        invariant out.id == old(out.id) && out.remoteSeid == old(out.remoteSeid)
        invariant out.parameters == old(out.parameters)
      {
        ok := TryCodec(codecs[i], remotes, hint.codecParameters, out);
        if ok {
          FirstIs(codecs, i, remotes, hint.codecParameters);
          return;
        }
        i := i + 1;
        assert codecs[..i] == codecs[..i - 1] + [codecs[i - 1]];
      }
      assert codecs[..i] == codecs;
      return false;
    }
  }
}
