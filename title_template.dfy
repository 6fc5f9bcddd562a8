/**
 * Title templates of ASSIGNMENT actions, such as "Doc from {correspondent}".
 *
 * A template is formatted the way Python's `str.format` formats keyword
 * fields, read from left to right: `{{` and `}}` stand for single braces,
 * `{name}` is replaced by the value of a known placeholder, and the first
 * problem met (a `{` never closed, a `{` inside a field, a lone `}`, an
 * unknown name) makes the whole template fail.
 */
module TitleTemplate {
  import opened Wrappers
  import opened Text

  datatype TemplateError =
    | UnmatchedOpenBrace
    | NestedOpenBrace
    | SingleCloseBrace
    | UnknownPlaceholder(name: string)

  /** The values the placeholders stand for, already resolved to text or numbers. */
  datatype Placeholders = Placeholders(
    correspondent: string,
    documentType: string,
    ownerUsername: string,
    originalFilename: string,
    createdYear: nat,
    addedYear: nat)

  function Lookup(name: string, values: Placeholders): Option<string> {
    if name == "correspondent" then Some(values.correspondent)
    else if name == "document_type" then Some(values.documentType)
    else if name == "owner_username" then Some(values.ownerUsername)
    else if name == "original_filename" then Some(values.originalFilename)
    else if name == "created_year" then Some(NatToString(values.createdYear))
    else if name == "added_year" then Some(NatToString(values.addedYear))
    else None
  }

  predicate IsBrace(c: char) {
    c == '{' || c == '}'
  }

  predicate NoBraces(s: string) {
    forall j :: 0 <= j < |s| ==> !IsBrace(s[j])
  }

  /** Index of the first brace of `s` at or after `from`, or `|s|`. */
  function BraceIndex(s: string, from: nat): (k: nat)
    requires from <= |s|
    ensures from <= k <= |s|
    ensures forall j :: from <= j < k ==> !IsBrace(s[j])
    ensures k < |s| ==> IsBrace(s[k])
    decreases |s| - from
  {
    if from == |s| || IsBrace(s[from]) then from else BraceIndex(s, from + 1)
  }

  function Prepend(a: string, r: Result<string, TemplateError>): Result<string, TemplateError> {
    match r
    case Ok(s) => Ok(a + s)
    case Err(e) => Err(e)
  }

  function Format(t: string, values: Placeholders): Result<string, TemplateError>
    decreases |t|
  {
    if t == [] then Ok([])
    else if t[0] == '{' then
      if |t| > 1 && t[1] == '{' then Prepend("{", Format(t[2..], values))
      else
        var k := BraceIndex(t, 1);
        if k == |t| then Err(UnmatchedOpenBrace)
        else if t[k] == '{' then Err(NestedOpenBrace)
        else
          match Lookup(t[1..k], values)
          case None => Err(UnknownPlaceholder(t[1..k]))
          case Some(v) => Prepend(v, Format(t[k + 1..], values))
    else if t[0] == '}' then
      if |t| > 1 && t[1] == '}' then Prepend("}", Format(t[2..], values))
      else Err(SingleCloseBrace)
    else Prepend([t[0]], Format(t[1..], values))
  }

  /** Doubles every brace, so that `s` formats to itself. */
  function Escape(s: string): (r: string)
    ensures |r| >= |s|
    decreases |s|
  {
    if s == [] then []
    else if IsBrace(s[0]) then [s[0], s[0]] + Escape(s[1..])
    else [s[0]] + Escape(s[1..])
  }

  /** Escaping and formatting are inverse: any text survives being written as a template. */
  lemma {:induction false} FormatEscape(s: string, values: Placeholders)
    ensures Format(Escape(s), values) == Ok(s)
    decreases |s|
  {
    if s != [] {
      FormatEscape(s[1..], values);
      var e := Escape(s);
      if IsBrace(s[0]) {
        assert e[0] == s[0] && e[1] == s[0] && e[2..] == Escape(s[1..]);
      } else {
        assert e[0] == s[0] && e[1..] == Escape(s[1..]);
      }
      assert s == [s[0]] + s[1..];
    }
  }

  /** Text without braces is copied unchanged in front of whatever follows. */
  lemma {:induction false} FormatPlainPrefix(a: string, rest: string, values: Placeholders)
    requires NoBraces(a)
    ensures Format(a + rest, values) == Prepend(a, Format(rest, values))
    decreases |a|
  {
    if a == [] {
      assert a + rest == rest;
      match Format(rest, values) {
        case Ok(s) => assert a + s == s;
        case Err(_) =>
      }
    } else {
      var t := a + rest;
      assert t[0] == a[0] && t[1..] == a[1..] + rest;
      FormatPlainPrefix(a[1..], rest, values);
      match Format(rest, values) {
        case Ok(s) => assert [a[0]] + (a[1..] + s) == a + s;
        case Err(_) =>
      }
    }
  }

  /** A known placeholder is replaced by its value. */
  lemma FormatField(name: string, rest: string, values: Placeholders)
    requires NoBraces(name) && Lookup(name, values).Some?
    ensures Format("{" + name + "}" + rest, values)
        == Prepend(Lookup(name, values).value, Format(rest, values))
  {
    var t := "{" + name + "}" + rest;
    assert t[0] == '{';
    assert |name| > 0 ==> t[1] == name[0];
    assert forall j :: 1 <= j < |name| + 1 ==> t[j] == name[j - 1];
    assert t[|name| + 1] == '}';
    BraceIndexAt(t, 1, |name| + 1);
    assert t[1..|name| + 1] == name;
    assert t[|name| + 2..] == rest;
  }

  lemma {:induction false} BraceIndexAt(s: string, from: nat, k: nat)
    requires from <= k <= |s|
    requires forall j :: from <= j < k ==> !IsBrace(s[j])
    requires k < |s| ==> IsBrace(s[k])
    ensures BraceIndex(s, from) == k
    decreases k - from
  {
    if from < k {
      BraceIndexAt(s, from + 1, k);
    }
  }

  /** A `{` that is never closed makes the template fail. */
  lemma FormatUnclosed(name: string, values: Placeholders)
    requires NoBraces(name)
    ensures Format("{" + name, values) == Err(UnmatchedOpenBrace)
  {
    var t := "{" + name;
    assert t[0] == '{';
    assert forall j :: 1 <= j < |t| ==> t[j] == name[j - 1];
    BraceIndexAt(t, 1, |t|);
  }

  /** A failure anywhere is a failure of the whole template. */
  lemma FailureAfterPlainText(a: string, rest: string, values: Placeholders)
    requires NoBraces(a) && Format(rest, values).Err?
    ensures Format(a + rest, values) == Format(rest, values)
  {
    FormatPlainPrefix(a, rest, values);
  }
}
