/**
 Audio parameter strings (bluetooth/audio/hw/utils.cc) and the "key=value;" form that
 out_get_parameters prints (bluetooth/audio/hw/stream_apis.cc).
 */
module AudioParams {

  /** The pieces of `s` between delimiters, empty pieces included. */
  function Split(s: string, d: char): (parts: seq<string>)
    ensures |parts| > 0
  {
    if s == "" then [""]
    else
      var rest := Split(s[1..], d);
      if s[0] == d then [""] + rest else Prefix(s[0], rest)
  }

  predicate Free(s: string, d: char) { d !in s }

  lemma {:induction false} SplitFree(s: string, d: char)
    requires Free(s, d)
    ensures Split(s, d) == [s]
  {
    if s != "" {
      SplitFree(s[1..], d);
      assert [s[0]] + s[1..] == s;
    }
  }

  lemma {:induction false} SplitPartsFree(s: string, d: char, i: nat)
    requires i < |Split(s, d)|
    ensures Free(Split(s, d)[i], d)
  {
    if s != "" {
      var rest := Split(s[1..], d);
      if s[0] == d {
        if i > 0 {
          SplitPartsFree(s[1..], d, i - 1);
        }
      } else {
        SplitPartsFree(s[1..], d, i);
      }
    }
  }

  /** Pieces hold only characters of the whole. */
  lemma {:induction false} SplitPartsWithin(s: string, d: char, i: nat, c: char)
    requires i < |Split(s, d)| && Free(s, c)
    ensures Free(Split(s, d)[i], c)
  {
    if s != "" {
      var rest := Split(s[1..], d);
      if s[0] == d {
        if i > 0 {
          SplitPartsWithin(s[1..], d, i - 1, c);
        }
      } else {
        SplitPartsWithin(s[1..], d, i, c);
      }
    }
  }

  /** Puts a character in front of the first piece. */
  function Prefix(c: char, parts: seq<string>): seq<string>
    requires |parts| > 0
  {
    [[c] + parts[0]] + parts[1..]
  }

  lemma PrefixConcat(c: char, p: seq<string>, q: seq<string>)
    requires |p| > 0
    ensures Prefix(c, p + q) == Prefix(c, p) + q
  {
    assert (p + q)[1..] == p[1..] + q;
  }

  lemma {:induction false} SplitConcat(a: string, b: string, d: char)
    ensures Split(a + [d] + b, d) == Split(a, d) + Split(b, d)
  {
    var s := a + [d] + b;
    if a == "" {
      assert s[1..] == b;
    } else {
      assert s[1..] == a[1..] + [d] + b;
      SplitConcat(a[1..], b, d);
      PrefixConcat(a[0], Split(a[1..], d), Split(b, d));
    }
  }

  // ------------------------------------------------------------ parsing

  type Params = map<string, string>

  /** One segment: an empty one and one with an empty key are ignored. */
  function Segment(seg: string): Params {
    if seg == "" then map[]
    else
      var kv := Split(seg, '=');
      if kv[0] == "" then map[] else map[kv[0] := if |kv| > 1 then kv[1] else ""]
  }

  /** Later maps override earlier ones. */
  function Merge<K, V>(ms: seq<map<K, V>>): map<K, V> {
    if ms == [] then map[] else ms[0] + Merge(ms[1..])
  }

  lemma OverrideAssociative<K, V>(a: map<K, V>, b: map<K, V>, c: map<K, V>)
    ensures a + (b + c) == a + b + c
  {
  }

  lemma OverrideUnit<K, V>(a: map<K, V>)
    ensures a + map[] == a && map[] + a == a
  {
  }

  lemma OverrideOne<K, V>(m: map<K, V>, k: K, v: V)
    ensures m[k := v] == m + map[k := v]
  {
  }

  lemma OverrideRestores<K, V>(m: map<K, V>, k: K)
    requires k in m
    ensures map[k := m[k]] + (m - {k}) == m
  {
  }

  lemma {:induction false} MergeConcat<K, V>(a: seq<map<K, V>>, b: seq<map<K, V>>)
    ensures Merge(a + b) == Merge(a) + Merge(b)
  {
    if a == [] {
      assert a + b == b;
      OverrideUnit(Merge(b));
    } else {
      MergeConcat(a[1..], b);
      assert (a + b)[1..] == a[1..] + b;
      OverrideAssociative(a[0], Merge(a[1..]), Merge(b));
    }
  }

  lemma MergeNext<K, V>(ms: seq<map<K, V>>, i: nat)
    requires i < |ms|
    ensures Merge(ms[..i + 1]) == Merge(ms[..i]) + ms[i]
  {
    assert ms[..i + 1] == ms[..i] + [ms[i]];
    MergeConcat(ms[..i], [ms[i]]);
    MergeOne(ms[i]);
  }

  lemma MergeOne<K, V>(m: map<K, V>)
    ensures Merge([m]) == m
  {
    assert [m][1..] == [];
    OverrideUnit(m);
  }

  function Maps(segs: seq<string>): (ms: seq<Params>)
    ensures |ms| == |segs|
  {
    seq(|segs|, i requires 0 <= i < |segs| => Segment(segs[i]))
  }

  function Parse(params: string): Params {
    Merge(Maps(Split(params, ';')))
  }

  method ParseAudioParams(params: string) returns (m: Params)
    ensures m == Parse(params)
  {
    var segments := Split(params, ';');
    ghost var ms := Maps(segments);
    m := map[];
    var i := 0;
    while i < |segments|
      invariant i <= |segments| && m == Merge(ms[..i])
    {
      var segment := segments[i];
      MergeNext(ms, i);
      OverrideUnit(m);
      i := i + 1;
      if |segment| == 0 {
        continue;
      }
      var kv := Split(segment, '=');
      if kv[0] == "" {
        continue;
      }
      var value := if |kv| > 1 then kv[1] else "";
      OverrideOne(m, kv[0], value);
      m := m[kv[0] := value];
    }
    assert ms[..i] == ms;
  }

  /** Parsing two strings joined by a semicolon is the first parse overridden by the second. */
  lemma ParseConcat(a: string, b: string)
    ensures Parse(a + ";" + b) == Parse(a) + Parse(b)
  {
    var p, q := Split(a, ';'), Split(b, ';');
    SplitConcat(a, b, ';');
    assert Maps(p + q) == Maps(p) + Maps(q);
    MergeConcat(Maps(p), Maps(q));
  }

  // ------------------------------------------------------------ printing and parsing back

  /** Pairs in the order in which they are printed. */
  function Print(pairs: seq<(string, string)>): string {
    if pairs == [] then "" else Text(pairs[0]) + ";" + Print(pairs[1..])
  }

  function Text(p: (string, string)): string { p.0 + "=" + p.1 }

  predicate CleanText(s: string) { Free(s, ';') && Free(s, '=') }

  predicate CleanPair(k: string, v: string) { k != "" && CleanText(k) && CleanText(v) }

  ghost predicate Clean(m: Params) {
    forall k :: k in m ==> CleanPair(k, m[k])
  }

  lemma SegmentIsClean(seg: string)
    requires Free(seg, ';')
    ensures Clean(Segment(seg))
  {
    var kv := Split(seg, '=');
    SplitPartsFree(seg, '=', 0);
    SplitPartsWithin(seg, '=', 0, ';');
    if |kv| > 1 {
      SplitPartsFree(seg, '=', 1);
      SplitPartsWithin(seg, '=', 1, ';');
    }
  }

  lemma {:induction false} MergeIsClean(ms: seq<Params>)
    requires forall i :: 0 <= i < |ms| ==> Clean(ms[i])
    ensures Clean(Merge(ms))
  {
    if ms != [] {
      MergeIsClean(ms[1..]);
    }
  }

  /** Whatever is parsed has non-empty keys and no delimiter in keys or values. */
  lemma ParseIsClean(params: string)
    ensures Clean(Parse(params))
  {
    var segs := Split(params, ';');
    forall i | 0 <= i < |segs|
      ensures Clean(Maps(segs)[i])
    {
      SplitPartsFree(params, ';', i);
      SegmentIsClean(segs[i]);
    }
    MergeIsClean(Maps(segs));
  }

  lemma TextIsSegment(k: string, v: string)
    requires CleanPair(k, v)
    ensures Free(k + "=" + v, ';') && Segment(k + "=" + v) == map[k := v]
  {
    SplitConcat(k, v, '=');
    SplitFree(k, '=');
    SplitFree(v, '=');
    assert Split(k + "=" + v, '=') == [k, v];
  }

  lemma ParseText(k: string, v: string)
    requires CleanPair(k, v)
    ensures Parse(k + "=" + v) == map[k := v]
  {
    TextIsSegment(k, v);
    SplitFree(k + "=" + v, ';');
    var ms := Maps([k + "=" + v]);
    assert ms == [map[k := v]];
    MergeOne(map[k := v]);
  }

  /** What one segment says, whatever it looks like: nothing before the first "=" is no key, the value
      ends at the second one, and without one the value is empty. */
  lemma ParseSegment(k: string, v: string, w: string)
    requires CleanText(k) && CleanText(v) && Free(w, ';')
    ensures Parse(k) == if k == "" then map[] else map[k := ""]
    ensures Parse(k + "=" + v) == if k == "" then map[] else map[k := v]
    ensures Parse(k + "=" + v + "=" + w) == if k == "" then map[] else map[k := v]
  {
    SplitFree(k, '=');
    SplitFree(v, '=');
    SplitConcat(k, v, '=');
    SplitConcat(k + "=" + v, w, '=');
    OneSegment(k);
    OneSegment(k + "=" + v);
    OneSegment(k + "=" + v + "=" + w);
    assert Split(k + "=" + v, '=') == [k, v];
    assert Split(k + "=" + v + "=" + w, '=') == [k, v] + Split(w, '=');
  }

  lemma OneSegment(s: string)
    requires Free(s, ';')
    ensures Parse(s) == Segment(s)
  {
    SplitFree(s, ';');
    var ms := Maps([s]);
    assert ms == [Segment(s)];
    MergeOne(Segment(s));
  }

  /** The pairs list exactly the bindings of the map, each once, in some order. */
  ghost predicate Lists(pairs: seq<(string, string)>, m: Params) {
    (forall i :: 0 <= i < |pairs| ==> pairs[i].0 in m && m[pairs[i].0] == pairs[i].1)
    && (forall i, j :: 0 <= i < j < |pairs| ==> pairs[i].0 != pairs[j].0)
    && forall k :: k in m ==> exists i :: 0 <= i < |pairs| && pairs[i].0 == k
  }

  lemma ParseEmpty()
    ensures Parse("") == map[]
  {
    var none: Params := map[];
    assert Maps([""]) == [none];
    MergeOne(none);
  }

  lemma {:induction false} PrintParses(pairs: seq<(string, string)>, m: Params)
    requires Lists(pairs, m) && Clean(m)
    ensures Parse(Print(pairs)) == m
  {
    if pairs == [] {
      ParseEmpty();
      assert m == map[];
    } else {
      var k, v := pairs[0].0, pairs[0].1;
      assert CleanPair(k, v);
      ListsRest(pairs, m);
      PrintParses(pairs[1..], m - {k});
      ParseText(k, v);
      ParseConcat(Text(pairs[0]), Print(pairs[1..]));
      OverrideRestores(m, k);
    }
  }

  lemma ListsRest(pairs: seq<(string, string)>, m: Params)
    requires pairs != [] && Lists(pairs, m)
    ensures Lists(pairs[1..], m - {pairs[0].0})
  {
    var rest, n := pairs[1..], m - {pairs[0].0};
    forall k | k in n
      ensures exists i :: 0 <= i < |rest| && rest[i].0 == k
    {
      var i :| 0 <= i < |pairs| && pairs[i].0 == k;
      assert rest[i - 1].0 == k;
    }
  }

  /** Printing a map in any order and parsing it gives the map back exactly when its keys are not
      empty and neither keys nor values hold a delimiter. */
  lemma PrintParseRoundTrip(pairs: seq<(string, string)>, m: Params)
    requires Lists(pairs, m)
    ensures Parse(Print(pairs)) == m <==> Clean(m)
  {
    ParseIsClean(Print(pairs));
    if Clean(m) {
      PrintParses(pairs, m);
    }
  }
}
