/**
 * Building the search query from the autocomplete request: `getQuery`,
 * `setQuery`, `setUntokenizedQuery` and `setTokenizedQuery` of
 * SolrAutocompleteController. The controller fills a `SolrQuery` object
 * through its setters; `SolrQuery` below stands in for that library class,
 * and `BuildQuery` is the value the finished object holds.
 */
module QueryBuilder {

  import opened Wrappers
  import opened AsciiCase
  import opened Requests
  import TermNames

  /** Longest term, in characters, for which a query is built. */
  const MaxQueryLength: nat := 500
  /** The fixed result window: rows 0 .. 999. */
  const DefaultMaxHitCount: nat := 1000

  /** What a `SolrQuery` holds after the controller is done with it; `None` is a setting never made. */
  datatype QuerySpec = QuerySpec(start: Option<int>, rows: Option<int>, text: Option<string>, filters: seq<string>)

  // ---------------------------------------------------------------------
  // The untokenized query text
  // ---------------------------------------------------------------------

  /** `replaceAll(" ", "\\\\ ")`: each space becomes a backslash and a space; every other character is kept. */
  function EscapeSpaces(s: string): (r: string)
    ensures |r| == |s| + SpaceCount(s)
    ensures r == [] <==> s == []
    ensures r != [] ==> r[0] != ' '
  {
    if s == [] then []
    else (if s[0] == ' ' then "\\ " else [s[0]]) + EscapeSpaces(s[1..])
  }

  /** The number of spaces in `s`. */
  function SpaceCount(s: string): nat
  {
    if s == [] then 0 else (if s[0] == ' ' then 1 else 0) + SpaceCount(s[1..])
  }

  /** The inverse of `EscapeSpaces`: a backslash followed by a space is read back as a space. */
  function UnescapeSpaces(t: string): string
  {
    if t == [] then []
    else if |t| >= 2 && t[0] == '\\' && t[1] == ' ' then " " + UnescapeSpaces(t[2..])
    else [t[0]] + UnescapeSpaces(t[1..])
  }

  /**
   * Every space in `t` has a backslash right before it. This does not make
   * every space escaped in the search server's syntax: a backslash that was
   * already in the term is not escaped, so it can pair with the next
   * backslash instead (see `BackslashBeforeSpaceExample`).
   */
  predicate NoBareSpace(t: string)
  {
    forall i :: 0 <= i < |t| && t[i] == ' ' ==> 0 < i && t[i - 1] == '\\'
  }

  /** The field and separator every untokenized query starts with. */
  function UntokenizedPrefix(): string
  {
    TermNames.NameLowercase + ":"
  }

  /** The query text of untokenized mode: a prefix search on the lower-cased name field. */
  function UntokenizedText(term: string): (r: string)
    ensures |r| > |UntokenizedPrefix()| && r[..|UntokenizedPrefix()|] == UntokenizedPrefix()
    ensures r[|r| - 1] == '*'
    ensures |r| == |UntokenizedPrefix()| + |term| + SpaceCount(Lower(term)) + 1
  {
    UntokenizedPrefix() + EscapeSpaces(Lower(term)) + "*"
  }

  /** The exact-match filter clause on the type field. */
  function TypeFilter(typeParam: string): (r: string)
    ensures |r| == |TermNames.RdfType| + |typeParam| + 3
    ensures r[..|TermNames.RdfType| + 2] == TermNames.RdfType + ":\""
    ensures r[|TermNames.RdfType| + 2..|r| - 1] == typeParam && r[|r| - 1] == '"'
  {
    TermNames.RdfType + ":\"" + typeParam + "\""
  }

  lemma {:induction false} UnescapeEscape(s: string)
    ensures UnescapeSpaces(EscapeSpaces(s)) == s
  {
    if s != [] {
      var rest := EscapeSpaces(s[1..]);
      UnescapeEscape(s[1..]);
      if s[0] == ' ' {
        assert EscapeSpaces(s) == "\\ " + rest;
        assert ("\\ " + rest)[2..] == rest;
      } else {
        assert EscapeSpaces(s) == [s[0]] + rest;
        assert ([s[0]] + rest)[1..] == rest;
      }
    }
  }

  lemma NoBareSpaceAppend(a: string, b: string)
    requires NoBareSpace(a) && NoBareSpace(b)
    ensures NoBareSpace(a + b)
  {
  }

  lemma {:induction false} EscapedHasNoBareSpace(s: string)
    ensures NoBareSpace(EscapeSpaces(s))
  {
    if s != [] {
      EscapedHasNoBareSpace(s[1..]);
      var head: string := if s[0] == ' ' then "\\ " else [s[0]];
      assert NoBareSpace(head);
      NoBareSpaceAppend(head, EscapeSpaces(s[1..]));
    }
  }

  /**
   * The shape of every untokenized query text: exactly the lower-cased name
   * field and a colon in front, a `*` at the end, a backslash right before
   * every space, and between the two the lower-cased term, recovered by
   * reading the escapes back.
   */
  lemma UntokenizedTextShape(term: string)
    ensures var t := UntokenizedText(term);
      && |t| > |UntokenizedPrefix()|
      && t[..|UntokenizedPrefix()|] == UntokenizedPrefix()
      && t[|t| - 1] == '*'
      && NoBareSpace(t)
      && UnescapeSpaces(t[|UntokenizedPrefix()|..|t| - 1]) == Lower(term)
  {
    var p, e := UntokenizedPrefix(), EscapeSpaces(Lower(term));
    var t := UntokenizedText(term);
    assert t == p + e + "*";
    assert t[|p|..|t| - 1] == e;
    UnescapeEscape(Lower(term));
    EscapedHasNoBareSpace(Lower(term));
    assert NoBareSpace(p);
    assert NoBareSpace("*");
    NoBareSpaceAppend(p, e);
    NoBareSpaceAppend(p + e, "*");
  }

  /** Two terms give the same untokenized query text exactly when they agree once lower-cased. */
  lemma UntokenizedTextInjective(a: string, b: string)
    ensures UntokenizedText(a) == UntokenizedText(b) <==> Lower(a) == Lower(b)
  {
    if UntokenizedText(a) == UntokenizedText(b) {
      UntokenizedTextShape(a);
      UntokenizedTextShape(b);
    }
  }

  lemma JaneDoeExample()
    ensures UntokenizedText("Jane Doe") == TermNames.NameLowercase + ":jane\\ doe*"
  {
    assert Lower("Jane Doe") == "jane doe";
    assert EscapeSpaces("jane doe") == "jane\\ doe" by {
      assert EscapeSpaces(" doe") == "\\ " + EscapeSpaces("doe");
    }
  }

  /**
   * Backslashes in the term are kept as they are, so the term `a\ b` gives
   * `a\\ b`: to the search server an escaped backslash followed by a bare
   * space, and the term is not matched as one literal.
   */
  lemma BackslashBeforeSpaceExample()
    ensures UntokenizedText("a\\ b") == TermNames.NameLowercase + ":a\\\\ b*"
    ensures NoBareSpace(UntokenizedText("a\\ b"))
  {
    assert Lower("a\\ b") == "a\\ b";
    assert EscapeSpaces("a\\ b") == "a\\\\ b" by {
      assert EscapeSpaces(" b") == "\\ " + EscapeSpaces("b");
      assert EscapeSpaces("\\ b") == "\\" + EscapeSpaces(" b");
    }
    UntokenizedTextShape("a\\ b");
  }

  // ---------------------------------------------------------------------
  // The query as a value
  // ---------------------------------------------------------------------

  /** What `setQuery` does to a query: untokenized mode sets the text; the tokenized mode is a stub that sets nothing. */
  function WithTermQuery(q: QuerySpec, term: string, req: Request): QuerySpec
  {
    if req.Flag(ParamTokenize) then q else q.(text := Some(UntokenizedText(term)))
  }

  /** The query `getQuery` builds from the term and the request, or `None` where it returns `null`. */
  function BuildQuery(queryStr: Option<string>, req: Request): (r: Option<QuerySpec>)
    ensures r.None? <==> queryStr.None? || |queryStr.value| > MaxQueryLength
    ensures r.Some? ==> r.value.start == Some(0) && r.value.rows == Some(DefaultMaxHitCount)
    ensures r.Some? ==>
              r.value.filters == (if req.Param(ParamRdfType).Some? then [TypeFilter(req.Param(ParamRdfType).value)] else [])
    ensures r.Some? ==>
              r.value.text == (if req.Flag(ParamTokenize) then None else Some(UntokenizedText(queryStr.value)))
  {
    if queryStr.None? then None
    else if |queryStr.value| > MaxQueryLength then None
    else
      var q := WithTermQuery(QuerySpec(Some(0), Some(DefaultMaxHitCount), None, []), queryStr.value, req);
      var typeParam := req.Param(ParamRdfType);
      Some(if typeParam.Some? then q.(filters := q.filters + [TypeFilter(typeParam.value)]) else q)
  }

  /** The `stem` parameter never changes the query, in either mode. */
  lemma StemIsIgnored(queryStr: Option<string>, req: Request, stem: string)
    ensures BuildQuery(queryStr, req) == BuildQuery(queryStr, Request(req.params[ParamStem := stem]))
    ensures BuildQuery(queryStr, req) == BuildQuery(queryStr, Request(req.params - {ParamStem}))
  {
  }

  // ---------------------------------------------------------------------
  // The query as an object, filled in step by step
  // ---------------------------------------------------------------------

  /** Stand-in for the search library's `SolrQuery`: a parameter object changed through setters. */
  class SolrQuery {
    var start: Option<int>
    var rows: Option<int>
    var text: Option<string>
    var filters: seq<string>

    function Spec(): QuerySpec
      reads this
    {
      QuerySpec(start, rows, text, filters)
    }

    constructor ()
      ensures Spec() == QuerySpec(None, None, None, [])
    {
      start, rows, text, filters := None, None, None, [];
    }

    method SetStart(n: int)
      modifies this
      ensures Spec() == old(Spec()).(start := Some(n))
    {
      start := Some(n);
    }

    method SetRows(n: int)
      modifies this
      ensures Spec() == old(Spec()).(rows := Some(n))
    {
      rows := Some(n);
    }

    method SetQuery(q: string)
      modifies this
      ensures Spec() == old(Spec()).(text := Some(q))
    {
      text := Some(q);
    }

    method AddFilterQuery(f: string)
      modifies this
      ensures Spec() == old(Spec()).(filters := old(filters) + [f])
    {
      filters := filters + [f];
    }
  }

  /** `setUntokenizedQuery`: lower-case the term, escape its spaces, and search the lower-cased name field by prefix. */
  method SetUntokenizedQuery(query: SolrQuery, queryStr: string)
    modifies query
    ensures query.Spec() == old(query.Spec()).(text := Some(UntokenizedText(queryStr)))
  {
    var s := Lower(queryStr);
    s := EscapeSpaces(s);
    s := TermNames.NameLowercase + ":" + s + "*";
    query.SetQuery(s);
  }

  /**
   * `setTokenizedQuery`: picks the stemmed or unstemmed field from `stem`,
   * but the analysis that would use it is disabled, so the query is left as
   * it was.
   */
  method SetTokenizedQuery(query: SolrQuery, queryStr: string, req: Request)
    ensures query.Spec() == old(query.Spec())
  {
    var stem := req.Flag(ParamStem);
    var termName := if stem then TermNames.AcNameStemmed else TermNames.AcNameUnstemmed;
  }

  /** `setQuery`: the mode is tokenized exactly when the `tokenize` parameter is `true`; a blank term is only logged. */
  method SetQuery(query: SolrQuery, queryStr: string, req: Request)
    modifies query
    ensures query.Spec() == WithTermQuery(old(query.Spec()), queryStr, req)
  {
    var tokenize := req.Flag(ParamTokenize);
    if tokenize {
      SetTokenizedQuery(query, queryStr, req);
    } else {
      SetUntokenizedQuery(query, queryStr);
    }
  }

  /** `getQuery`: `null` for a missing or over-long term; otherwise a fresh query holding `BuildQuery`. */
  method GetQuery(queryStr: Option<string>, req: Request) returns (query: SolrQuery?)
    ensures query == null <==> BuildQuery(queryStr, req).None?
    ensures query != null ==> fresh(query) && BuildQuery(queryStr, req) == Some(query.Spec())
  {
    if queryStr.None? {
      return null;
    } else if |queryStr.value| > MaxQueryLength {
      return null;
    }
    query := new SolrQuery();
    query.SetStart(0);
    query.SetRows(DefaultMaxHitCount);
    SetQuery(query, queryStr.value, req);
    var typeParam := req.Param(ParamRdfType);
    if typeParam.Some? {
      query.AddFilterQuery(TermNames.RdfType + ":\"" + typeParam.value + "\"");
    }
  }
}
