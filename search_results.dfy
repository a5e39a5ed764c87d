/**
 * `SearchResult`, the controller's inner record: a label and a URI, the map
 * it becomes in the JSON answer, and its case-insensitive ordering by label.
 */
module SearchResults {

  import opened AsciiCase

  /** A JSON object with string members, as `toMap` builds it. */
  type JsonObject = map<string, string>

  /** A character as `compareToIgnoreCase` compares it: upper-cased, then lower-cased. */
  function FoldChar(c: char): char
  {
    LowerChar(UpperChar(c))
  }

  /** A string with every character folded as `compareToIgnoreCase` does. */
  function Fold(s: string): string
  {
    seq(|s|, i requires 0 <= i < |s| => FoldChar(s[i]))
  }

  /**
   * `String.compareToIgnoreCase`: at the first position where the folded
   * characters differ, their difference; when one string is a prefix of the
   * other up to case, the difference of the lengths.
   */
  function CompareIgnoreCase(a: string, b: string): (r: int)
    ensures r == 0 ==> |a| == |b|
    ensures a == b ==> r == 0
    decreases |a|
  {
    if a == [] || b == [] then |a| - |b|
    else if FoldChar(a[0]) != FoldChar(b[0]) then FoldChar(a[0]) as int - FoldChar(b[0]) as int
    else CompareIgnoreCase(a[1..], b[1..])
  }

  /** The comparison is zero exactly when the two strings are equal up to case. */
  lemma {:induction false} CompareIgnoreCaseZero(a: string, b: string)
    ensures CompareIgnoreCase(a, b) == 0 <==> Fold(a) == Fold(b)
    decreases |a|
  {
    if a != [] && b != [] {
      assert Fold(a) == [FoldChar(a[0])] + Fold(a[1..]);
      assert Fold(b) == [FoldChar(b[0])] + Fold(b[1..]);
      if FoldChar(a[0]) == FoldChar(b[0]) {
        CompareIgnoreCaseZero(a[1..], b[1..]);
        assert Fold(a) == Fold(b) ==> Fold(a)[1..] == Fold(b)[1..];
      } else {
        assert Fold(a)[0] != Fold(b)[0];
      }
    } else if a != [] {
      assert |Fold(a)| != |Fold(b)|;
    } else if b != [] {
      assert |Fold(a)| != |Fold(b)|;
    }
  }

  /** Swapping the operands negates the comparison. */
  lemma {:induction false} CompareIgnoreCaseAntisymmetric(a: string, b: string)
    ensures CompareIgnoreCase(a, b) == -CompareIgnoreCase(b, a)
    decreases |a|
  {
    if a != [] && b != [] && FoldChar(a[0]) == FoldChar(b[0]) {
      CompareIgnoreCaseAntisymmetric(a[1..], b[1..]);
    }
  }

  // `label` is a reserved word in Dafny, hence `labelText` for the Java field `label`.
  datatype SearchResult = SearchResult(labelText: string, uri: string) {

    /** `toMap`: a JSON object with exactly the members `label` and `uri`. */
    function ToMap(): (m: JsonObject)
      ensures m.Keys == {"label", "uri"}
      ensures m["label"] == labelText && m["uri"] == uri
    {
      map["label" := labelText, "uri" := uri]
    }

    /** `compareTo`: orders results by label, ignoring case. */
    function CompareTo(other: SearchResult): (r: int)
      ensures r == 0 <==> Fold(labelText) == Fold(other.labelText)
      ensures r == -CompareIgnoreCase(other.labelText, labelText)
    {
      CompareIgnoreCaseZero(labelText, other.labelText);
      CompareIgnoreCaseAntisymmetric(labelText, other.labelText);
      CompareIgnoreCase(labelText, other.labelText)
    }
  }

  /** Distinct results give distinct JSON objects: `toMap` loses nothing. */
  lemma ToMapInjective(a: SearchResult, b: SearchResult)
    ensures a.ToMap() == b.ToMap() <==> a == b
  {
  }
}
