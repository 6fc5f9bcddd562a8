/**
 * Content matching of a trigger against a document's text.
 *
 * LITERAL looks for the pattern as a substring; ANY and ALL look for any or
 * every whitespace-separated word of the pattern; NONE places no constraint.
 * With `insensitive` both sides are folded to ASCII lower case first.
 */
module ContentMatch {
  import opened Text

  datatype MatchAlgorithm = MatchNone | MatchAny | MatchAll | MatchLiteral

  function Fold(s: string, insensitive: bool): (r: string)
    ensures |r| == |s|
  {
    if insensitive then LowerStr(s) else s
  }

  predicate MatchesContent(algorithm: MatchAlgorithm, pattern: string, text: string, insensitive: bool) {
    var t := Fold(text, insensitive);
    var words := Words(Fold(pattern, insensitive));
    match algorithm
    case MatchNone => true
    case MatchLiteral => Contains(t, Fold(pattern, insensitive))
    case MatchAny => exists k :: 0 <= k < |words| && Contains(t, words[k])
    case MatchAll => forall k :: 0 <= k < |words| ==> Contains(t, words[k])
  }

  lemma LowerStrSlice(s: string, i: nat, j: nat)
    requires i <= j <= |s|
    ensures LowerStr(s)[i..j] == LowerStr(s[i..j])
  {
  }

  /** Whatever matches case-sensitively also matches case-insensitively. */
  lemma SensitiveImpliesInsensitive(pattern: string, text: string)
    requires MatchesContent(MatchLiteral, pattern, text, false)
    ensures MatchesContent(MatchLiteral, pattern, text, true)
  {
    var i :| 0 <= i <= |text| && OccursAt(text, pattern, i);
    LowerStrSlice(text, i, i + |pattern|);
    assert OccursAt(LowerStr(text), LowerStr(pattern), i);
  }

  /** Case-insensitive matching does not depend on the case the pattern is written in. */
  lemma InsensitiveIgnoresPatternCase(algorithm: MatchAlgorithm, pattern: string, text: string)
    ensures MatchesContent(algorithm, pattern, text, true)
        <==> MatchesContent(algorithm, LowerStr(pattern), text, true)
  {
    LowerStrIdempotent(pattern);
  }

  lemma LowerKeepsWord(w: string)
    requires IsWord(w)
    ensures IsWord(LowerStr(w))
  {
  }

  /** For a one-word pattern ANY, ALL and LITERAL agree. */
  lemma OneWordAlgorithmsAgree(pattern: string, text: string, insensitive: bool)
    requires IsWord(pattern)
    ensures MatchesContent(MatchAny, pattern, text, insensitive)
        <==> MatchesContent(MatchLiteral, pattern, text, insensitive)
    ensures MatchesContent(MatchAll, pattern, text, insensitive)
        <==> MatchesContent(MatchLiteral, pattern, text, insensitive)
  {
    if insensitive {
      LowerKeepsWord(pattern);
    }
    var w := Fold(pattern, insensitive);
    WordsOfWord(w);
    var t := Fold(text, insensitive);
    assert Words(w)[0] == w;
    if Contains(t, w) {
      assert 0 <= 0 < |Words(w)| && Contains(t, Words(w)[0]);
    }
  }
}
