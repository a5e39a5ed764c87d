/**
 * Turning the search hits into label/URI results: the first loop of
 * `doRequest`. Each hit is read on its own; a hit that cannot be read is
 * skipped and the loop goes on with the next.
 */
module ResultMapper {

  import opened Wrappers
  import opened SearchResults
  import TermNames

  /** A stored field of a hit: a single value (given by its text) or a multi-valued list. */
  datatype FieldValue = Scalar(text: string) | Multi(values: seq<string>)

  /** A search hit (`SolrDocument`): its stored fields by name. */
  datatype Hit = Hit(fields: map<string, FieldValue>)

  /** The items of a list, separated by a comma and a space. */
  function JoinItems(vs: seq<string>): string
  {
    if vs == [] then "" else if |vs| == 1 then vs[0] else vs[0] + ", " + JoinItems(vs[1..])
  }

  /** `toString` of a field value: its text, or a list written as `[a, b]`. */
  function Render(v: FieldValue): (r: string)
    ensures v.Scalar? ==> r == v.text
    ensures v.Multi? ==> |r| >= 2 && r[0] == '[' && r[|r| - 1] == ']'
    ensures v.Multi? && |v.values| == 1 ==> r == "[" + v.values[0] + "]"
  {
    match v
    case Scalar(t) => t
    case Multi(vs) => "[" + JoinItems(vs) + "]"
  }

  /** `doc.get(URI).toString()`: fails (`None`) when the hit has no URI field. */
  function UriOf(h: Hit): (r: Option<string>)
    ensures r.Some? <==> TermNames.Uri in h.fields
    ensures r.Some? && h.fields[TermNames.Uri].Scalar? ==> r.value == h.fields[TermNames.Uri].text
  {
    if TermNames.Uri in h.fields then Some(Render(h.fields[TermNames.Uri])) else None
  }

  /** `((List<String>) doc.get(NAME_RAW)).get(0)`: fails when the field is missing, not a list, or empty. */
  function NameOf(h: Hit): (r: Option<string>)
    ensures r.Some? <==> TermNames.NameRaw in h.fields && h.fields[TermNames.NameRaw].Multi? &&
                         h.fields[TermNames.NameRaw].values != []
    ensures r.Some? ==> r.value == h.fields[TermNames.NameRaw].values[0]
  {
    if TermNames.NameRaw in h.fields && h.fields[TermNames.NameRaw].Multi? && |h.fields[TermNames.NameRaw].values| > 0
    then Some(h.fields[TermNames.NameRaw].values[0])
    else None
  }

  /** The result one hit gives, or `None` where reading it throws. */
  function ToResult(h: Hit): (r: Option<SearchResult>)
    ensures r.Some? <==> UriOf(h).Some? && NameOf(h).Some?
    ensures r.Some? ==> r.value.labelText == NameOf(h).value && r.value.uri == UriOf(h).value
  {
    match (UriOf(h), NameOf(h))
    case (Some(uri), Some(name)) => Some(SearchResult(name, uri))
    case _ => None
  }

  /** A hit whose URI field holds the empty text is still kept: nothing checks that a URI is non-empty. */
  lemma EmptyUriIsKept(name: string)
    ensures ToResult(Hit(map[TermNames.Uri := Scalar(""), TermNames.NameRaw := Multi([name])])) ==
            Some(SearchResult(name, ""))
  {
  }

  function OptionToSeq<T>(o: Option<T>): seq<T>
  {
    if o.Some? then [o.value] else []
  }

  /** The results of a batch of hits: those that can be read, in hit order. */
  function MappedHits(hs: seq<Hit>): (rs: seq<SearchResult>)
    ensures |rs| <= |hs|
  {
    if hs == [] then [] else MappedHits(hs[..|hs| - 1]) + OptionToSeq(ToResult(hs[|hs| - 1]))
  }

  /** The positions of the hits that can be read, in increasing order. */
  function KeptIndices(hs: seq<Hit>): (ks: seq<nat>)
    ensures forall k :: 0 <= k < |ks| ==> ks[k] < |hs|
    ensures forall k, l :: 0 <= k < l < |ks| ==> ks[k] < ks[l]
    ensures forall i :: 0 <= i < |hs| ==> (i in ks <==> ToResult(hs[i]).Some?)
  {
    if hs == [] then []
    else
      var init := hs[..|hs| - 1];
      assert forall i :: 0 <= i < |init| ==> init[i] == hs[i];
      KeptIndices(init) + (if ToResult(hs[|hs| - 1]).Some? then [|hs| - 1] else [])
  }

  /**
   * Order and contents: the k-th result comes from the k-th readable hit,
   * and there is one result for each readable hit.
   */
  lemma {:induction false} MappedHitsFollowKept(hs: seq<Hit>)
    ensures |MappedHits(hs)| == |KeptIndices(hs)|
    ensures forall k :: 0 <= k < |KeptIndices(hs)| ==>
                          ToResult(hs[KeptIndices(hs)[k]]) == Some(MappedHits(hs)[k])
  {
    if hs != [] {
      var init, last := hs[..|hs| - 1], hs[|hs| - 1];
      MappedHitsFollowKept(init);
      var ks, ks' := KeptIndices(hs), KeptIndices(init);
      var rs, rs' := MappedHits(hs), MappedHits(init);
      assert ks == ks' + (if ToResult(last).Some? then [|hs| - 1] else []);
      assert rs == rs' + OptionToSeq(ToResult(last));
      forall k | 0 <= k < |ks|
        ensures ToResult(hs[ks[k]]) == Some(rs[k])
      {
        if k < |ks'| {
          assert ks[k] == ks'[k] && rs[k] == rs'[k];
          assert hs[ks'[k]] == init[ks'[k]];
        }
      }
    }
  }

  /** A batch splits: the hits before a point never affect the results of those after it. */
  lemma {:induction false} MappedHitsAppend(a: seq<Hit>, b: seq<Hit>)
    ensures MappedHits(a + b) == MappedHits(a) + MappedHits(b)
    decreases |b|
  {
    if b != [] {
      var b' := b[..|b| - 1];
      assert (a + b)[..|a + b| - 1] == a + b';
      assert (a + b)[|a + b| - 1] == b[|b| - 1];
      MappedHitsAppend(a, b');
    } else {
      assert a + b == a;
    }
  }

  /** One unreadable hit among others is skipped and nothing else changes. */
  lemma BadHitSkipped(a: seq<Hit>, bad: Hit, b: seq<Hit>)
    requires ToResult(bad).None?
    ensures MappedHits(a + [bad] + b) == MappedHits(a) + MappedHits(b)
  {
    var ab := a + [bad];
    assert ab[..|ab| - 1] == a && ab[|ab| - 1] == bad;
    assert MappedHits(ab) == MappedHits(a);
    MappedHitsAppend(ab, b);
  }

  /** When every hit can be read, there is one result per hit, in the same order. */
  lemma {:induction false} AllReadableHitsKept(hs: seq<Hit>)
    requires forall i :: 0 <= i < |hs| ==> ToResult(hs[i]).Some?
    ensures |MappedHits(hs)| == |hs|
    ensures forall i :: 0 <= i < |hs| ==> Some(MappedHits(hs)[i]) == ToResult(hs[i])
  {
    if hs != [] {
      var init, last := hs[..|hs| - 1], hs[|hs| - 1];
      assert forall i :: 0 <= i < |init| ==> init[i] == hs[i];
      AllReadableHitsKept(init);
      var rs, rs' := MappedHits(hs), MappedHits(init);
      assert rs == rs' + [ToResult(last).value];
      forall i | 0 <= i < |hs|
        ensures Some(rs[i]) == ToResult(hs[i])
      {
        if i < |init| {
          assert rs[i] == rs'[i] && hs[i] == init[i];
        }
      }
    }
  }

  /** The loop of `doRequest` over the hits: reads each hit and appends its result when it can be read. */
  method MapHits(docs: seq<Hit>) returns (results: seq<SearchResult>)
    ensures results == MappedHits(docs)
  {
    results := [];
    for i := 0 to |docs|
      invariant results == MappedHits(docs[..i])
    {
      assert docs[..i + 1][..i] == docs[..i];
      var doc := docs[i];
      var uri := UriOf(doc);
      var name := NameOf(doc);
      if uri.Some? && name.Some? {
        var result := SearchResult(name.value, uri.value);
        results := results + [result];
      }
    }
    assert docs[..|docs|] == docs;
  }
}
