/**
 The elaboration prompt: `str.format` with the single field `description`, as the service
 applies it to the call's text prompt.
 */
module Prompt {
  import opened Python
  import Client

  // ---------------------------------------------------------------------------
  // `text_prompt.format(description=...)`

  /** No brace at all. */
  predicate Plain(s: string) {
    '{' !in s && '}' !in s
  }

  function Prepend(a: string, r: Result<string>): Result<string> {
    match r
    case Raised => Raised
    case Ok(s) => Ok(a + s)
  }

  /** `t.format(description=d)`: `{{` and `}}` become single braces, each `{description}` field
      becomes `d`, and any other field, or a lone brace, raises. */
  function Format(t: string, d: string): (r: Result<string>)
    ensures Plain(t) ==> r == Ok(t)
    ensures r.Raised? ==> !Plain(t)
    decreases |t|
  {
    if t == [] then Ok([])
    else if t[0] != '{' && t[0] != '}' then
      assert t == [t[0]] + t[1..];
      Prepend([t[0]], Format(t[1..], d))
    else if StartsWith(t, "{{") then Prepend("{", Format(t[2..], d))
    else if StartsWith(t, "}}") then Prepend("}", Format(t[2..], d))
    else if StartsWith(t, Client.Placeholder) then Prepend(d, Format(t[|Client.Placeholder|..], d))
    else Raised
  }

  /** When the template's only braces are its `{description}` fields, formatting replaces each of
      them, exactly as `str.replace` would. */
  lemma {:induction false} FormatIsReplace(t: string, d: string)
    requires Plain(Replace(t, Client.Placeholder, ""))
    ensures Format(t, d) == Ok(Replace(t, Client.Placeholder, d))
    decreases |t|
  {
    var p := Client.Placeholder;
    if |t| < |p| {
      assert Replace(t, p, "") == t;
    } else if t[..|p|] == p {
      var rest := t[|p|..];
      assert Replace(t, p, "") == Replace(rest, p, "");
      assert StartsWith(t, p) && t[0] == '{' && t[1] == 'd';
      assert !StartsWith(t, "{{") && !StartsWith(t, "}}");
      FormatIsReplace(rest, d);
    } else {
      var rest := t[1..];
      assert Replace(t, p, "") == [t[0]] + Replace(rest, p, "");
      assert t[0] in Replace(t, p, "");
      assert Replace(t, p, d) == [t[0]] + Replace(rest, p, d);
      FormatIsReplace(rest, d);
    }
  }

  /** One step of formatting at a character that is not a brace. */
  lemma FormatPlainStep(t: string, d: string)
    requires t != [] && t[0] != '{' && t[0] != '}'
    ensures Format(t, d) == Prepend([t[0]], Format(t[1..], d))
  {
  }

  /** One step of formatting at a `{description}` field. */
  lemma FormatFieldStep(tail: string, d: string)
    ensures Format(Client.Placeholder + tail, d) == Prepend(d, Format(tail, d))
  {
    var p := Client.Placeholder;
    var t := p + tail;
    assert t[0] == '{' && t[1] == 'd';
    assert StartsWith(t, p) && !StartsWith(t, "{{") && !StartsWith(t, "}}");
    assert t[|p|..] == tail;
  }

  /** Formatting passes over a brace-free prefix unchanged. */
  lemma {:induction false} FormatAfterPlainPrefix(a: string, rest: string, d: string)
    requires Plain(a)
    ensures Format(a + rest, d) == Prepend(a, Format(rest, d))
    decreases |a|
  {
    if a == [] {
      assert a + rest == rest;
      match Format(rest, d)
      case Raised =>
      case Ok(s) => assert a + s == s;
    } else {
      var t := a + rest;
      assert a[0] in a;
      assert t[0] == a[0] && t[1..] == a[1..] + rest;
      assert a == [a[0]] + a[1..];
      FormatPlainStep(t, d);
      FormatAfterPlainPrefix(a[1..], rest, d);
      PrependTwice([a[0]], a[1..], Format(rest, d));
    }
  }

  lemma PrependTwice(x: string, y: string, r: Result<string>)
    ensures Prepend(x, Prepend(y, r)) == Prepend(x + y, r)
  {
    if r.Ok? {
      assert x + (y + r.value) == (x + y) + r.value;
    }
  }

  /** A template whose one replacement field sits between two brace-free parts formats to those
      parts around the description; the service's default prompt has this shape. */
  lemma {:induction false} FormatSingleField(head: string, tail: string, d: string)
    requires Plain(head) && Plain(tail)
    ensures Format(head + Client.Placeholder + tail, d) == Ok(head + d + tail)
  {
    var p := Client.Placeholder;
    assert head + p + tail == head + (p + tail);
    FormatAfterPlainPrefix(head, p + tail, d);
    FormatFieldStep(tail, d);
    assert Format(tail, d) == Ok(tail);
    assert head + (d + tail) == head + d + tail;
  }

  /** The prompt the text model receives is the formatted prompt with `{description}` replaced
      once more. The two agree when neither the template outside its fields nor the description
      holds a brace. */
  lemma {:induction false} SentPromptIsFormatted(t: string, d: string)
    requires Plain(Replace(t, Client.Placeholder, ""))
    requires '{' !in d
    ensures Format(t, d).Ok?
    ensures Replace(Format(t, d).value, Client.Placeholder, d) == Format(t, d).value
  {
    var p := Client.Placeholder;
    FormatIsReplace(t, d);
    if '{' in Replace(t, p, d) {
      ReplaceBraceOrigin(t, p, d);
    }
    NoBraceNoOccurrence(Replace(t, p, d), p);
    ReplaceWithoutOccurrence(Replace(t, p, d), p, d);
  }

  /** A description that itself contains `{description}` is substituted twice: with the template
      `{description}` and the description `x{description}`, the text model is sent
      `xx{description}`. */
  lemma DescriptionSubstitutedTwice()
    ensures var d := "x" + Client.Placeholder;
            && Format(Client.Placeholder, d) == Ok(d)
            && Replace(d, Client.Placeholder, d) == "x" + d
  {
    var p := Client.Placeholder;
    var d := "x" + p;
    assert p[0] == '{' && p[1] == 'd';
    assert StartsWith(p, p) && !StartsWith(p, "{{") && !StartsWith(p, "}}") && p[|p|..] == [];
    assert d + [] == d;
    ReplaceAfterBraceFreePrefix("x", p, d, "");
    assert "x" + p + "" == d;
    assert "x" + d + "" == "x" + d;
  }

}
