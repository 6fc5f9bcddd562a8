/**
 * Shell-style wildcard matching in the manner of Python's `fnmatch`, as the
 * workflow triggers use it for their filename and path filters.
 *
 * The pattern is matched against the WHOLE candidate string. `*` matches any
 * run of characters, including `/`, so a path filter is not matched segment
 * by segment; `?` matches one character; `[...]` matches one character of a
 * class (`[!...]` negates it, `a-z` is a range, a `]` right after the opening
 * bracket is a member); a `[` without its closing `]` is an ordinary
 * character. Matching is case-sensitive.
 */
module Glob {
  import opened Text

  datatype ClassItem = Single(c: char) | Range(lo: char, hi: char)

  datatype Token = Star | AnyChar | Lit(c: char) | Class(negated: bool, items: seq<ClassItem>)

  /** The members of a character class body, ranges read from left to right. */
  function ClassItems(body: string): (r: seq<ClassItem>)
    ensures |r| <= |body|
    decreases |body|
  {
    if body == [] then []
    else if |body| >= 3 && body[1] == '-' then [Range(body[0], body[2])] + ClassItems(body[3..])
    else [Single(body[0])] + ClassItems(body[1..])
  }

  predicate InClass(c: char, items: seq<ClassItem>) {
    exists k :: 0 <= k < |items| && ItemHas(items[k], c)
  }

  predicate ItemHas(item: ClassItem, c: char) {
    match item
    case Single(x) => c == x
    case Range(lo, hi) => lo <= c <= hi
  }

  /** Index of the first `]` of `s` at or after `from`, or `|s|` when there is none. */
  function CloseIndex(s: string, from: nat): (k: nat)
    requires from <= |s|
    ensures from <= k <= |s|
    ensures forall j :: from <= j < k ==> s[j] != ']'
    ensures k < |s| ==> s[k] == ']'
    decreases |s| - from
  {
    if from == |s| || s[from] == ']' then from else CloseIndex(s, from + 1)
  }

  lemma {:induction false} CloseIndexAt(s: string, from: nat, k: nat)
    requires from <= k <= |s|
    requires forall j :: from <= j < k ==> s[j] != ']'
    requires k < |s| ==> s[k] == ']'
    ensures CloseIndex(s, from) == k
    decreases k - from
  {
    if from < k {
      CloseIndexAt(s, from + 1, k);
    }
  }

  /** The pattern read as a sequence of tokens. */
  function Compile(p: string): seq<Token>
    decreases |p|
  {
    if p == [] then []
    else if p[0] == '*' then [Star] + Compile(p[1..])
    else if p[0] == '?' then [AnyChar] + Compile(p[1..])
    else if p[0] == '[' then
      var body := p[1..];
      var start := if |body| > 0 && body[0] == '!' then 1 else 0;
      var first := if start < |body| && body[start] == ']' then start + 1 else start;
      var close := CloseIndex(body, first);
      if close == |body| then [Lit('[')] + Compile(body)
      else [Class(start == 1, ClassItems(body[start..close]))] + Compile(body[close + 1..])
    else [Lit(p[0])] + Compile(p[1..])
  }

  /** The whole of `s` is matched by the token sequence `ts`. */
  predicate MatchTokens(ts: seq<Token>, s: string)
    decreases |ts|, |s|
  {
    if ts == [] then s == []
    else match ts[0]
      case Star => MatchTokens(ts[1..], s) || (s != [] && MatchTokens(ts, s[1..]))
      case AnyChar => s != [] && MatchTokens(ts[1..], s[1..])
      case Lit(c) => s != [] && s[0] == c && MatchTokens(ts[1..], s[1..])
      case Class(negated, items) =>
        s != [] && InClass(s[0], items) != negated && MatchTokens(ts[1..], s[1..])
  }

  /** `fnmatch(candidate, pattern)`: a whole-string wildcard match. */
  predicate GlobMatch(pattern: string, candidate: string) {
    MatchTokens(Compile(pattern), candidate)
  }

  /** No wildcard or class character: the pattern stands for itself. */
  predicate Plain(p: string) {
    forall j :: 0 <= j < |p| ==> p[j] != '*' && p[j] != '?' && p[j] != '['
  }

  function Literal(w: string): (r: seq<Token>)
    ensures |r| == |w|
    decreases |w|
  {
    if w == [] then [] else [Lit(w[0])] + Literal(w[1..])
  }

  lemma {:induction false} CompilePlainPrefix(w: string, rest: string)
    requires Plain(w)
    ensures Compile(w + rest) == Literal(w) + Compile(rest)
    decreases |w|
  {
    if w == [] {
      assert w + rest == rest;
    } else {
      assert (w + rest)[0] == w[0];
      assert (w + rest)[1..] == w[1..] + rest;
      CompilePlainPrefix(w[1..], rest);
    }
  }

  lemma {:induction false} MatchLiteralPrefix(w: string, ts: seq<Token>, s: string)
    ensures MatchTokens(Literal(w) + ts, s)
        <==> |w| <= |s| && s[..|w|] == w && MatchTokens(ts, s[|w|..])
    decreases |w|
  {
    if w == [] {
      assert Literal(w) + ts == ts;
      assert s[|w|..] == s;
    } else {
      var rest := Literal(w[1..]) + ts;
      assert Literal(w) + ts == [Lit(w[0])] + rest;
      MatchLitCons(w[0], rest, s);
      if s != [] {
        MatchLiteralPrefix(w[1..], ts, s[1..]);
        PrefixCons(w, s);
      }
    }
  }

  lemma MatchLitCons(c: char, ts: seq<Token>, s: string)
    ensures MatchTokens([Lit(c)] + ts, s) <==> s != [] && s[0] == c && MatchTokens(ts, s[1..])
  {
    assert ([Lit(c)] + ts)[0] == Lit(c) && ([Lit(c)] + ts)[1..] == ts;
  }

  /** `w` starts `s` iff their first characters agree and the rest of `w` starts the rest of `s`. */
  lemma PrefixCons(w: string, s: string)
    requires w != [] && s != []
    ensures |w| <= |s| && s[..|w|] == w
        <==> s[0] == w[0] && |w[1..]| <= |s[1..]| && s[1..][..|w[1..]|] == w[1..]
    ensures |w| <= |s| ==> s[1..][|w[1..]|..] == s[|w|..]
  {
    if |w| <= |s| {
      assert s[..|w|] == [s[0]] + s[1..][..|w| - 1];
      assert w == [w[0]] + w[1..];
    }
  }

  lemma {:induction false} MatchStarPrefix(ts: seq<Token>, s: string)
    ensures MatchTokens([Star] + ts, s) <==> exists i :: 0 <= i <= |s| && MatchTokens(ts, s[i..])
    decreases |s|
  {
    var st := [Star] + ts;
    assert st[0] == Star && st[1..] == ts;
    assert s[0..] == s;
    if s != [] {
      MatchStarPrefix(ts, s[1..]);
      forall i | 1 <= i <= |s| ensures s[i..] == s[1..][i - 1..] { }
      if MatchTokens(st, s[1..]) {
        var i :| 0 <= i <= |s[1..]| && MatchTokens(ts, s[1..][i..]);
        assert s[i + 1..] == s[1..][i..];
      }
    }
  }

  lemma {:induction false} StarMatchesRest(s: string)
    ensures MatchTokens([Star], s)
    decreases |s|
  {
    assert [Star][1..] == [];
    if s != [] {
      StarMatchesRest(s[1..]);
    }
  }

  lemma StarCompiles()
    ensures Compile("*") == [Star]
  {
    assert "*"[1..] == "";
  }

  /** `*` alone matches every candidate, separators included. */
  lemma StarMatchesAll(s: string)
    ensures GlobMatch("*", s)
  {
    StarCompiles();
    StarMatchesRest(s);
  }

  /** A pattern without wildcards matches exactly itself. */
  lemma PlainMatchesItself(p: string, s: string)
    requires Plain(p)
    ensures GlobMatch(p, s) <==> s == p
  {
    CompilePlainPrefix(p, "");
    assert p + "" == p;
    assert Literal(p) + [] == Literal(p);
    MatchLiteralPrefix(p, [], s);
    if |p| <= |s| && s[..|p|] == p && s[|p|..] == [] {
      assert s == s[..|p|] + s[|p|..];
    }
  }

  /** `*w*` for a plain `w` is a substring test: the glob the workflow filters are written with. */
  lemma StarWordStar(w: string, s: string)
    requires Plain(w)
    ensures GlobMatch("*" + w + "*", s) <==> Contains(s, w)
  {
    var p := "*" + w + "*";
    assert p[0] == '*' && p[1..] == w + "*";
    CompilePlainPrefix(w, "*");
    StarCompiles();
    var tail := Literal(w) + [Star];
    assert Compile(p) == [Star] + tail;
    MatchStarPrefix(tail, s);
    if GlobMatch(p, s) {
      var i :| 0 <= i <= |s| && MatchTokens(tail, s[i..]);
      MatchLiteralPrefix(w, [Star], s[i..]);
      assert s[i..][..|w|] == s[i..i + |w|];
      assert OccursAt(s, w, i);
    }
    if Contains(s, w) {
      var i :| 0 <= i <= |s| && OccursAt(s, w, i);
      MatchLiteralPrefix(w, [Star], s[i..]);
      assert s[i..][..|w|] == s[i..i + |w|];
      StarMatchesRest(s[i..][|w|..]);
    }
  }

  /** `?` matches exactly one character, whatever it is. */
  lemma QuestionMatchesOneChar(s: string)
    ensures GlobMatch("?", s) <==> |s| == 1
  {
    assert "?"[1..] == "";
    assert Compile("?") == [AnyChar];
    assert [AnyChar][1..] == [];
    assert MatchTokens([AnyChar], s) <==> s != [] && s[1..] == [];
  }

  /** A class body without `-` lists its members one by one. */
  lemma {:induction false} ClassItemsOfSingles(body: string, c: char)
    requires forall j :: 0 <= j < |body| ==> body[j] != '-'
    ensures InClass(c, ClassItems(body)) <==> c in body
    decreases |body|
  {
    if body != [] {
      ClassItemsOfSingles(body[1..], c);
      assert ClassItems(body) == [Single(body[0])] + ClassItems(body[1..]);
      InClassCons(Single(body[0]), ClassItems(body[1..]), c);
      assert body == [body[0]] + body[1..];
    }
  }

  lemma InClassCons(item: ClassItem, items: seq<ClassItem>, c: char)
    ensures InClass(c, [item] + items) <==> ItemHas(item, c) || InClass(c, items)
  {
    var all := [item] + items;
    if InClass(c, items) {
      var k :| 0 <= k < |items| && ItemHas(items[k], c);
      assert all[k + 1] == items[k];
    }
    if InClass(c, all) {
      var k :| 0 <= k < |all| && ItemHas(all[k], c);
      if k > 0 {
        assert all[k] == items[k - 1];
      }
    }
    assert all[0] == item;
  }


  /** `[abc]` matches one character that is one of the listed ones, `[!abc]` one that is not. */
  lemma CharacterClass(negated: bool, body: string, s: string)
    requires |body| > 0 && body[0] != '!'
    requires forall j :: 0 <= j < |body| ==> body[j] != ']' && body[j] != '-'
    ensures GlobMatch("[" + (if negated then "!" else "") + body + "]", s)
        <==> |s| == 1 && (s[0] in body) != negated
  {
    var p := "[" + (if negated then "!" else "") + body + "]";
    var items := ClassItems(body);
    CompileClass(negated, body);
    assert [Class(negated, items)][1..] == [];
    assert MatchTokens([Class(negated, items)], s)
        <==> s != [] && InClass(s[0], items) != negated && s[1..] == [];
    if s != [] {
      ClassItemsOfSingles(body, s[0]);
    }
  }

  /** A bracket expression on its own compiles to one class token. */
  lemma CompileClass(negated: bool, body: string)
    requires |body| > 0 && body[0] != '!'
    requires forall j :: 0 <= j < |body| ==> body[j] != ']'
    ensures Compile("[" + (if negated then "!" else "") + body + "]") == [Class(negated, ClassItems(body))]
  {
    var bang := if negated then "!" else "";
    var p := "[" + bang + body + "]";
    ClassLayout(bang, body);
    CompileBracket(p, |bang|, |bang| + |body|);
    assert p[1..][|bang| + |body| + 1..] == [];
  }

  /** Where the pieces of `[<bang><body>]` sit once the opening bracket is dropped. */
  lemma ClassLayout(bang: string, body: string)
    requires bang == "" || bang == "!"
    requires |body| > 0 && body[0] != '!'
    requires forall j :: 0 <= j < |body| ==> body[j] != ']'
    ensures var p := "[" + bang + body + "]";
      |p| == |bang| + |body| + 2 && p[0] == '[' && p[1..] == bang + body + "]"
      && (p[1] == '!' <==> bang == "!") && p[1 + |bang|] == body[0]
      && p[1..][|bang|..|bang| + |body|] == body
      && CloseIndex(p[1..], |bang|) == |bang| + |body|
  {
    var inner := bang + body + "]";
    var start, close := |bang|, |bang| + |body|;
    forall j | start <= j < close
      ensures inner[j] != ']'
    {
      assert inner[j] == body[j - start];
    }
    CloseIndexAt(inner, start, close);
    assert inner[start..close] == body;
    assert ("[" + bang + body + "]")[1..] == inner;
  }

  /** How `Compile` reads a pattern that opens with a closed bracket expression. */
  lemma CompileBracket(p: string, start: nat, close: nat)
    requires |p| > 1 && p[0] == '['
    requires start == (if p[1] == '!' then 1 else 0)
    requires start < close < |p| - 1 && p[1 + start] != ']'
    requires CloseIndex(p[1..], start) == close
    ensures Compile(p) == [Class(start == 1, ClassItems(p[1..][start..close]))] + Compile(p[1..][close + 1..])
  {
  }

  /** A `[` that is never closed is an ordinary character. */
  lemma UnclosedBracket(w: string, s: string)
    requires Plain(w)
    requires forall j :: 0 <= j < |w| ==> w[j] != ']'
    ensures GlobMatch("[" + w, s) <==> s == "[" + w
  {
    var p := "[" + w;
    assert p[0] == '[' && p[1..] == w;
    var start := if |w| > 0 && w[0] == '!' then 1 else 0;
    assert CloseIndex(w, start) == |w|;
    CompilePlainPrefix(w, "");
    assert w + "" == w;
    assert Compile(p) == [Lit('[')] + Literal(w);
    assert Literal("[" + w) == [Lit('[')] + Literal(w) by {
      assert ("[" + w)[1..] == w;
    }
    assert Plain("[" + w) ==> false;
    assert Literal(w) + [] == Literal(w);
    MatchLiteralPrefix("[" + w, [], s);
    assert Literal("[" + w) + [] == Compile(p);
    if |"[" + w| <= |s| && s[..|"[" + w|] == "[" + w && s[|"[" + w|..] == [] {
      assert s == s[..|"[" + w|] + s[|"[" + w|..];
    }
  }
}
