/**
 The slice of Python's value model that the integration's decisions depend on:
 dynamically typed values, truthiness, `dict.get`, the `or` operator, a few
 `str` methods, and insertion-ordered dictionaries.
 */
module Python {

  type byte = b: int | 0 <= b < 256

  datatype Option<+T> = None | Some(value: T)

  /** The outcome of a Python call: a returned value, or an exception that escaped it. */
  datatype Result<+T> = Ok(value: T) | Raised

  /** A Python value as it appears in config-entry data, service-call data and JSON records.
      Floats are kept as exact reals: only their truthiness matters here. */
  datatype Val =
    | VNone
    | VBool(b: bool)
    | VInt(i: int)
    | VFloat(x: real)
    | VStr(s: string)
    | VList(items: seq<Val>)
    | VDict(fields: map<string, Val>)

  /** Library functions whose implementation is outside the model; they are taken as given. */
  datatype Lib = Lib(
    toStr: Val -> string,               // str(), as used by f-strings
    slugify: string -> string,          // homeassistant.util.slugify
    b64encode: seq<byte> -> string)     // base64.b64encode(...).decode("utf-8")

  /** `bool(v)`: None, False, zero, the empty string and empty containers are falsy. */
  predicate Truthy(v: Val) {
    match v
    case VNone => false
    case VBool(b) => b
    case VInt(i) => i != 0
    case VFloat(x) => x != 0.0
    case VStr(s) => s != ""
    case VList(items) => items != []
    case VDict(fields) => fields != map[]
  }

  /** `a or b`: the first operand when it is truthy, otherwise the second. */
  function Or(a: Val, b: Val): Val {
    if Truthy(a) then a else b
  }

  /** `m.get(k, default)`. */
  function Get(m: map<string, Val>, k: string, default: Val): Val {
    if k in m then m[k] else default
  }

  /** `s.startswith(p)`. */
  predicate StartsWith(s: string, p: string) {
    |p| <= |s| && s[..|p|] == p
  }

  /** `s.find(c)`: the index of the first `c` in `s`, or -1. */
  function IndexOf(s: string, c: char): (i: int)
    ensures -1 <= i < |s|
    ensures i == -1 <==> c !in s
    ensures 0 <= i ==> s[i] == c && c !in s[..i]
  {
    if s == [] then -1
    else if s[0] == c then 0
    else
      var j := IndexOf(s[1..], c);
      if j == -1 then -1
      else
        assert s[..j + 1] == [s[0]] + s[1..][..j];
        j + 1
  }

  /** `s.split(c, 1)[1]`: what follows the first `c`; the indexing raises IndexError when `s`
      holds no `c`. */
  function AfterFirst(s: string, c: char): (r: Result<string>)
    ensures r.Raised? <==> c !in s
    ensures r.Ok? ==> exists k | 0 <= k < |s| :: s[..k] + [c] + r.value == s && c !in s[..k]
  {
    var i := IndexOf(s, c);
    if i == -1 then Raised
    else
      assert s[..i] + [c] + s[i + 1..] == s;
      Ok(s[i + 1..])
  }

  /** `pat` occurs in `s` starting at index `i`. */
  predicate OccursAt(s: string, pat: string, i: int) {
    0 <= i <= |s| - |pat| && s[i..i + |pat|] == pat
  }

  /** `pat in s` for strings. */
  predicate Occurs(s: string, pat: string) {
    exists i | 0 <= i <= |s| :: OccursAt(s, pat, i)
  }

  /** `s.rstrip(c)` for a one-character argument: every trailing `c` is removed. */
  function RStrip(s: string, c: char): (r: string)
    ensures r <= s
    ensures r == [] || r[|r| - 1] != c
    ensures forall i | |r| <= i < |s| :: s[i] == c
    decreases |s|
  {
    if s != [] && s[|s| - 1] == c then RStrip(s[..|s| - 1], c) else s
  }

  /** The characters for which `str.isspace()` holds, so that `not s.strip()` holds exactly
      when every character of `s` is one of them. */
  predicate IsSpace(c: char) {
    || c == ' ' || ('\t' <= c <= '\r') || ('\U{1C}' <= c <= '\U{1F}')
    || c == '\U{85}' || c == '\U{A0}' || c == '\U{1680}' || ('\U{2000}' <= c <= '\U{200A}')
    || c == '\U{2028}' || c == '\U{2029}' || c == '\U{202F}' || c == '\U{205F}' || c == '\U{3000}'
  }


  /** `not s.strip()`. */
  predicate IsBlank(s: string) {
    forall i | 0 <= i < |s| :: IsSpace(s[i])
  }

  /** `s.replace(pat, rep)` for a non-empty pattern: occurrences are replaced left to right,
      without overlap. */
  function Replace(s: string, pat: string, rep: string): (r: string)
    requires pat != []
    ensures rep == pat ==> r == s
    ensures |s| < |pat| ==> r == s
    decreases |s|
  {
    if |s| < |pat| then s
    else if s[..|pat|] == pat then
      assert s == s[..|pat|] + s[|pat|..];
      rep + Replace(s[|pat|..], pat, rep)
    else
      assert s == [s[0]] + s[1..];
      [s[0]] + Replace(s[1..], pat, rep)
  }

  /** `s.replace(pat, rep, 1)` for a non-empty pattern: only the first occurrence is replaced. */
  function ReplaceFirst(s: string, pat: string, rep: string): (r: string)
    requires pat != []
    ensures rep == pat ==> r == s
    ensures StartsWith(s, pat) ==> r == rep + s[|pat|..]
    ensures !Occurs(s, pat) ==> r == s
    decreases |s|
  {
    if |s| < |pat| then s
    else if s[..|pat|] == pat then
      assert s == s[..|pat|] + s[|pat|..];
      assert OccursAt(s, pat, 0);
      rep + s[|pat|..]
    else
      assert s == [s[0]] + s[1..];
      assert !OccursAt(s, pat, 0);
      OccursShifts(s, pat);
      [s[0]] + ReplaceFirst(s[1..], pat, rep)
  }

  /** An occurrence in the tail of a string is an occurrence in the string. */
  lemma OccursShifts(s: string, pat: string)
    requires s != []
    ensures Occurs(s[1..], pat) ==> Occurs(s, pat)
  {
    if Occurs(s[1..], pat) {
      var t := s[1..];
      var i :| 0 <= i <= |t| && OccursAt(t, pat, i);
      assert s[i + 1..i + 1 + |pat|] == t[i..i + |pat|];
      assert OccursAt(s, pat, i + 1);
    }
  }

  /** Replacing a pattern that does not occur leaves the string unchanged. */
  lemma {:induction false} ReplaceWithoutOccurrence(s: string, pat: string, rep: string)
    requires pat != []
    requires !Occurs(s, pat)
    ensures Replace(s, pat, rep) == s
    decreases |s|
  {
    if |s| >= |pat| {
      assert s[0..0 + |pat|] == s[..|pat|];
      assert !OccursAt(s, pat, 0);
      var t := s[1..];
      if Occurs(t, pat) {
        var i :| 0 <= i <= |t| && OccursAt(t, pat, i);
        assert 0 <= i <= |t| - |pat|;
        assert s[i + 1..i + 1 + |pat|] == t[i..i + |pat|];
        assert OccursAt(s, pat, i + 1);
        assert false;
      }
      ReplaceWithoutOccurrence(t, pat, rep);
      assert [s[0]] + t == s;
    }
  }

  /** An opening brace in the result of a replacement comes from the replacement text or
      from a part of `s` that is not an occurrence of the pattern. */
  lemma {:induction false} ReplaceBraceOrigin(s: string, pat: string, rep: string)
    requires pat != []
    requires '{' in Replace(s, pat, rep)
    ensures '{' in Replace(s, pat, "") || '{' in rep
    decreases |s|
  {
    if |s| < |pat| {
    } else if s[..|pat|] == pat {
      var rest := s[|pat|..];
      assert Replace(s, pat, rep) == rep + Replace(rest, pat, rep);
      assert Replace(s, pat, "") == Replace(rest, pat, "");
      if '{' !in rep {
        assert '{' in Replace(rest, pat, rep);
        ReplaceBraceOrigin(rest, pat, rep);
      }
    } else {
      var rest := s[1..];
      assert Replace(s, pat, rep) == [s[0]] + Replace(rest, pat, rep);
      assert Replace(s, pat, "") == [s[0]] + Replace(rest, pat, "");
      if s[0] != '{' {
        assert '{' in Replace(rest, pat, rep);
        ReplaceBraceOrigin(rest, pat, rep);
      }
    }
  }

  /** A pattern that starts with '{' cannot occur in a string without '{'. */
  lemma NoBraceNoOccurrence(s: string, pat: string)
    requires pat != [] && pat[0] == '{'
    requires '{' !in s
    ensures !Occurs(s, pat)
  {
    forall i | 0 <= i <= |s| - |pat|
      ensures s[i..i + |pat|][0] == s[i]
    {
    }
  }

  /** One step of `Replace` at a position where the pattern does not start. */
  lemma ReplaceSkipsChar(s: string, pat: string, rep: string)
    requires pat != [] && s != []
    requires s[0] != pat[0]
    ensures Replace(s, pat, rep) == [s[0]] + Replace(s[1..], pat, rep)
  {
    if |s| >= |pat| {
      assert s[..|pat|][0] == s[0];
    }
  }

  /** One step of `Replace` at a position where the pattern starts. */
  lemma ReplaceAtOccurrence(pat: string, rep: string, b: string)
    requires pat != []
    ensures Replace(pat + b, pat, rep) == rep + Replace(b, pat, rep)
  {
    var s := pat + b;
    assert s[..|pat|] == pat;
    assert s[|pat|..] == b;
  }

  /** When the pattern starts with '{' and a prefix holds no '{', replacement passes over the
      prefix untouched and then replaces the occurrence that follows it. */
  lemma {:induction false} ReplaceAfterBraceFreePrefix(a: string, pat: string, rep: string, b: string)
    requires pat != [] && pat[0] == '{'
    requires '{' !in a
    ensures Replace(a + pat + b, pat, rep) == a + rep + Replace(b, pat, rep)
    decreases |a|
  {
    if a == [] {
      assert a + pat + b == pat + b;
      ReplaceAtOccurrence(pat, rep, b);
    } else {
      ReplaceAfterBraceFreePrefix(a[1..], pat, rep, b);
      ReplaceConsPrefix(a, pat, rep, b, Replace(b, pat, rep));
    }
  }

  /** One step of `ReplaceAfterBraceFreePrefix`: a head that cannot start the pattern is kept. */
  lemma ReplaceConsPrefix(a: string, pat: string, rep: string, b: string, r: string)
    requires pat != [] && a != [] && a[0] != pat[0]
    requires Replace(a[1..] + pat + b, pat, rep) == a[1..] + rep + r
    ensures Replace(a + pat + b, pat, rep) == a + rep + r
  {
    PrefixedTail(a, pat, b);
    ReplaceSkipsChar(a + pat + b, pat, rep);
    assert a == [a[0]] + a[1..];
    assert [a[0]] + (a[1..] + rep + r) == a + rep + r;
  }

  /** Dropping the head of a non-empty prefix. */
  lemma PrefixedTail(a: string, pat: string, b: string)
    requires a != []
    ensures (a + pat + b)[0] == a[0] && (a + pat + b)[1..] == a[1..] + pat + b
  {
  }

  /** An insertion-ordered Python dict with string keys, as its list of items. */
  type Dict<V> = seq<(string, V)>

  /** `list(d.keys())`. */
  function Keys<V>(d: Dict<V>): (ks: seq<string>)
    ensures |ks| == |d|
    ensures forall i | 0 <= i < |d| :: ks[i] == d[i].0
  {
    if d == [] then [] else [d[0].0] + Keys(d[1..])
  }

  /** `k in d`. */
  predicate HasKey<V>(d: Dict<V>, k: string) {
    k in Keys(d)
  }

  /** `d.get(k)`: the value of the first item whose key is `k`. */
  function Find<V>(d: Dict<V>, k: string): (r: Option<V>)
    ensures r.Some? <==> HasKey(d, k)
  {
    if d == [] then None
    else if d[0].0 == k then Some(d[0].1)
    else Find(d[1..], k)
  }

  /** `d[k] = v`: an existing key keeps its position, a new key is appended. */
  function Put<V>(d: Dict<V>, k: string, v: V): (r: Dict<V>)
    ensures Find(r, k) == Some(v)
    ensures forall k' | k' != k :: Find(r, k') == Find(d, k')
    ensures HasKey(d, k) ==> Keys(r) == Keys(d)
    ensures !HasKey(d, k) ==> Keys(r) == Keys(d) + [k]
  {
    if d == [] then [(k, v)]
    else if d[0].0 == k then [(k, v)] + d[1..]
    else [d[0]] + Put(d[1..], k, v)
  }

  /** The key sequence `ks` with every `k` filtered out, the others in their order. */
  function KeysWithout(ks: seq<string>, k: string): (r: seq<string>)
    ensures forall x :: x in r <==> x in ks && x != k
    ensures |r| <= |ks|
  {
    if ks == [] then []
    else if ks[0] == k then KeysWithout(ks[1..], k)
    else [ks[0]] + KeysWithout(ks[1..], k)
  }

  /** `d.pop(k, None)`: items with key `k` are removed and the others keep their order. */
  function Remove<V>(d: Dict<V>, k: string): (r: Dict<V>)
    ensures !HasKey(r, k)
    ensures forall k' | k' != k :: Find(r, k') == Find(d, k')
    ensures Keys(r) == KeysWithout(Keys(d), k)
  {
    if d == [] then []
    else
      assert Keys(d) == [d[0].0] + Keys(d[1..]);
      if d[0].0 == k then Remove(d[1..], k)
      else [d[0]] + Remove(d[1..], k)
  }
}
