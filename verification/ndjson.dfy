/**
 The streaming decoder of the generate endpoint's reply: newline-delimited JSON
 records whose `response` fragments are concatenated in arrival order until a
 record whose `done` is exactly `true`.
 */
module Ndjson {
  import opened Python

  /** What `json.loads` makes of one line: a decode error or a value. */
  datatype Parsed = JsonError | Json(value: Val)

  /** One line of the body once it has been stripped and parsed. */
  datatype Line =
    | Blank                                   // empty or whitespace-only once the trailing newlines are gone
    | Malformed                               // json.loads raised JSONDecodeError
    | NonObject                               // valid JSON that is not an object, so it has no `.get`
    | Obj(response: Option<Val>, done: Val)   // an object; a missing `done` reads as None

  /** Turns one raw line of the body into a `Line`, with `json.loads` as the given `parse`. */
  function Classify(raw: string, parse: string -> Parsed): (l: Line)
    ensures var line := RStrip(raw, '\n');
            && (l.Blank? <==> IsBlank(line))
            && (l.Malformed? <==> !IsBlank(line) && parse(line) == JsonError)
            && (l.Obj? <==> !IsBlank(line) && parse(line).Json? && parse(line).value.VDict?)
            && (l.Obj? ==> var f := parse(line).value.fields;
                           && l.done == Get(f, "done", VNone)
                           && l.response == (if "response" in f then Some(f["response"]) else None))
  {
    var line := RStrip(raw, '\n');
    if IsBlank(line) then Blank
    else match parse(line)
      case JsonError => Malformed
      case Json(VDict(f)) => Obj(if "response" in f then Some(f["response"]) else None, Get(f, "done", VNone))
      case Json(_) => NonObject
  }

  /** `data_obj.get("done") is True`: only the boolean `true` stops the stream. */
  predicate IsStop(l: Line) {
    l.Obj? && l.done == VBool(true)
  }

  /** `data_obj.get("response", "")`. */
  function Fragment(l: Line): Val
    requires l.Obj?
  {
    match l.response
    case None => VStr("")
    case Some(v) => v
  }

  /** `"".join(parts)`: the concatenation of the parts, or a TypeError when one is not a str. */
  function Join(parts: seq<Val>): (r: Result<string>)
    ensures r.Ok? <==> forall i | 0 <= i < |parts| :: parts[i].VStr?
    ensures parts == [] ==> r == Ok("")
  {
    if parts == [] then Ok("")
    else match (parts[0], Join(parts[1..]))
      case (VStr(s), Ok(rest)) => Ok(s + rest)
      case _ => Raised
  }

  /** The list of parts the loop collects, or Raised when it calls `.get` on a non-object. */
  function CollectParts(lines: seq<Line>): (r: Result<seq<Val>>)
    ensures r.Raised? ==> HasNonObject(lines)
    ensures r.Ok? ==> |r.value| <= |lines|
  {
    if lines == [] then Ok([])
    else match lines[0]
      case Blank => NonObjectShifts(lines); CollectParts(lines[1..])
      case Malformed => NonObjectShifts(lines); CollectParts(lines[1..])
      case NonObject => Raised
      case Obj(_, _) =>
        if IsStop(lines[0]) then Ok([Fragment(lines[0])])
        else match CollectParts(lines[1..])
          case Raised =>
            NonObjectShifts(lines);
            Raised
          case Ok(rest) => Ok([Fragment(lines[0])] + rest)
  }

  /** A non-object line after the first is a non-object line of the whole. */
  lemma NonObjectShifts(lines: seq<Line>)
    requires lines != []
    ensures HasNonObject(lines[1..]) ==> HasNonObject(lines)
  {
    if HasNonObject(lines[1..]) {
      var i :| 0 <= i < |lines[1..]| && lines[1..][i].NonObject?;
      assert lines[i + 1].NonObject?;
    }
  }

  /** `_collect_ndjson` over the classified lines of a reply: it agrees with the independent
      description `Expected` below on every stream. */
  function Decode(lines: seq<Line>): (r: Result<string>)
    ensures lines == [] ==> r == Ok("")
    ensures r == Expected(lines)
  {
    CollectPartsIsConsumedFragments(lines);
    match CollectParts(lines)
    case Raised => Raised
    case Ok(parts) => Join(parts)
  }

  // ---------------------------------------------------------------------------
  // An independent description of the decoder: the lines it consumes, the
  // fragments of those lines, and the conditions under which it raises.

  /** How many lines the loop reads: up to and including the first stop record, else all. */
  function Consumed(lines: seq<Line>): (n: nat)
    ensures n <= |lines|
    ensures n == |lines| || (0 < n && IsStop(lines[n - 1]))
    ensures forall i | 0 <= i && i + 1 < n :: !IsStop(lines[i])
    ensures lines != [] ==> 0 < n
  {
    if lines == [] then 0
    else if IsStop(lines[0]) then 1
    else 1 + Consumed(lines[1..])
  }

  /** The `response` fragment of every object line, in arrival order. */
  function Fragments(lines: seq<Line>): seq<Val>
  {
    if lines == [] then []
    else if lines[0].Obj? then [Fragment(lines[0])] + Fragments(lines[1..])
    else Fragments(lines[1..])
  }

  predicate HasNonObject(lines: seq<Line>) {
    exists i | 0 <= i < |lines| :: lines[i].NonObject?
  }

  /** What the decoder is meant to return: a raise if a consumed line is not an object,
      otherwise the join of the consumed fragments. */
  function Expected(lines: seq<Line>): Result<string>
  {
    var c := lines[..Consumed(lines)];
    if HasNonObject(c) then Raised else Join(Fragments(c))
  }

  lemma {:induction false} CollectPartsIsConsumedFragments(lines: seq<Line>)
    ensures var c := lines[..Consumed(lines)];
            CollectParts(lines) == if HasNonObject(c) then Raised else Ok(Fragments(c))
    decreases |lines|
  {
    if lines != [] {
      var c := lines[..Consumed(lines)];
      assert c[0] == lines[0];
      if !lines[0].NonObject? && !IsStop(lines[0]) {
        var rest := lines[1..];
        var cr := rest[..Consumed(rest)];
        assert c == [lines[0]] + cr;
        CollectPartsIsConsumedFragments(rest);
        assert HasNonObject(c) <==> HasNonObject(cr) by {
          if HasNonObject(cr) {
            var i :| 0 <= i < |cr| && cr[i].NonObject?;
            assert c[i + 1] == cr[i];
          }
          if HasNonObject(c) {
            var i :| 0 <= i < |c| && c[i].NonObject?;
            assert i != 0;
            assert cr[i - 1] == c[i];
          }
        }
        assert Fragments(c) == (if lines[0].Obj? then [Fragment(lines[0])] else []) + Fragments(cr);
      } else if IsStop(lines[0]) {
        assert c == [lines[0]];
        assert !HasNonObject(c);
        assert c[1..] == [];
        assert Fragments(c) == [Fragment(lines[0])] + Fragments([]);
        assert Fragments(c) == [Fragment(lines[0])];
        assert CollectParts(lines) == Ok([Fragment(lines[0])]);
      }
    }
  }

  /** The decoder agrees with its independent description on every stream. */
  lemma DecodeIsExpected(lines: seq<Line>)
    ensures Decode(lines) == Expected(lines)
  {
    CollectPartsIsConsumedFragments(lines);
  }

  /** `"".join(a + b)` is the join of `a` followed by the join of `b`. */
  lemma {:induction false} JoinAppend(a: seq<Val>, b: seq<Val>)
    ensures Join(a + b) == match (Join(a), Join(b))
                           case (Ok(x), Ok(y)) => Ok(x + y)
                           case _ => Raised
    decreases |a|
  {
    if a == [] {
      assert a + b == b;
      match Join(b) {
        case Ok(y) => assert "" + y == y;
        case Raised =>
      }
    } else {
      assert (a + b)[0] == a[0];
      assert (a + b)[1..] == a[1..] + b;
      JoinAppend(a[1..], b);
      match (a[0], Join(a[1..]), Join(b)) {
        case (VStr(s), Ok(x), Ok(y)) => assert s + (x + y) == (s + x) + y;
        case _ =>
      }
    }
  }

  // ---------------------------------------------------------------------------
  // Properties of the decoder.

  /** A blank or malformed line contributes nothing and does not abort the stream. */
  lemma {:induction false} SkippedLineIgnored(a: seq<Line>, l: Line, b: seq<Line>)
    requires l.Blank? || l.Malformed?
    ensures Decode(a + [l] + b) == Decode(a + b)
    decreases |a|
  {
    CollectSkippedLineIgnored(a, l, b);
  }

  lemma {:induction false} CollectSkippedLineIgnored(a: seq<Line>, l: Line, b: seq<Line>)
    requires l.Blank? || l.Malformed?
    ensures CollectParts(a + [l] + b) == CollectParts(a + b)
    decreases |a|
  {
    if a == [] {
      assert a + [l] + b == [l] + b;
      assert ([l] + b)[1..] == b;
      assert a + b == b;
    } else {
      assert (a + [l] + b)[0] == a[0] && (a + b)[0] == a[0];
      assert (a + [l] + b)[1..] == a[1..] + [l] + b;
      assert (a + b)[1..] == a[1..] + b;
      CollectSkippedLineIgnored(a[1..], l, b);
    }
  }

  /** Nothing after the first stop record affects the result; the stop record's own
      fragment is part of it. */
  lemma {:induction false} LinesAfterStopIgnored(a: seq<Line>, s: Line, b: seq<Line>)
    requires IsStop(s)
    ensures Decode(a + [s] + b) == Decode(a + [s])
    decreases |a|
  {
    CollectLinesAfterStopIgnored(a, s, b);
  }

  lemma {:induction false} CollectLinesAfterStopIgnored(a: seq<Line>, s: Line, b: seq<Line>)
    requires IsStop(s)
    ensures CollectParts(a + [s] + b) == CollectParts(a + [s])
    decreases |a|
  {
    if a == [] {
      assert a + [s] + b == [s] + b;
      assert a + [s] == [s];
    } else {
      assert (a + [s] + b)[0] == a[0] && (a + [s])[0] == a[0];
      assert (a + [s] + b)[1..] == a[1..] + [s] + b;
      assert (a + [s])[1..] == a[1..] + [s];
      CollectLinesAfterStopIgnored(a[1..], s, b);
    }
  }

  /** Before any stop, decoding a stream in two pieces concatenates the pieces' results in
      arrival order; a raise in either piece is a raise of the whole. */
  lemma DecodeAppend(a: seq<Line>, b: seq<Line>)
    requires forall i | 0 <= i < |a| :: !IsStop(a[i])
    ensures Decode(a + b) == match (Decode(a), Decode(b))
                             case (Ok(x), Ok(y)) => Ok(x + y)
                             case _ => Raised
  {
    CollectAppend(a, b);
    match (CollectParts(a), CollectParts(b)) {
      case (Ok(x), Ok(y)) => JoinAppend(x, y);
      case _ =>
    }
  }

  /** Before any stop, the parts of two pieces are the parts of the first followed by those
      of the second. */
  lemma {:induction false} CollectAppend(a: seq<Line>, b: seq<Line>)
    requires forall i | 0 <= i < |a| :: !IsStop(a[i])
    ensures CollectParts(a + b) == match (CollectParts(a), CollectParts(b))
                                   case (Ok(x), Ok(y)) => Ok(x + y)
                                   case _ => Raised
    decreases |a|
  {
    if a == [] {
      assert a + b == b;
      match CollectParts(b) {
        case Ok(y) => assert [] + y == y;
        case Raised =>
      }
    } else {
      var ab := a + b;
      assert ab[0] == a[0];
      assert ab[1..] == a[1..] + b;
      assert !IsStop(a[0]);
      CollectAppend(a[1..], b);
      match (CollectParts(a[1..]), CollectParts(b)) {
        case (Ok(x), Ok(y)) =>
          if a[0].Obj? {
            assert [Fragment(a[0])] + (x + y) == ([Fragment(a[0])] + x) + y;
          }
        case _ =>
      }
    }
  }

  /** A `done` other than boolean `true` (false, missing, 1, "true") does not stop the
      stream: the following record's fragment is still collected. */
  lemma OnlyTrueStops(x: string, d: Val, y: string)
    requires d != VBool(true)
    ensures Decode([Obj(Some(VStr(x)), d), Obj(Some(VStr(y)), VBool(true))]) == Ok(x + y)
  {
    var s := [Obj(Some(VStr(x)), d), Obj(Some(VStr(y)), VBool(true))];
    assert s[1..] == [Obj(Some(VStr(y)), VBool(true))];
    assert CollectParts(s) == Ok([VStr(x)] + [VStr(y)]);
    var parts := [VStr(x), VStr(y)];
    assert parts[1..] == [VStr(y)];
    assert Join(parts[1..]) == Ok(y + "");
    assert y + "" == y;
  }

  /** A response that is present but not a string (null, a number, ...) makes the join raise. */
  lemma NonStringResponseRaises(a: seq<Line>, v: Val, d: Val, b: seq<Line>)
    requires !v.VStr?
    requires forall i | 0 <= i < |a| :: !IsStop(a[i])
    ensures Decode(a + [Obj(Some(v), d)] + b) == Raised
  {
    var l := Obj(Some(v), d);
    DecodeIsExpected(a + [l] + b);
    var lines := a + [l] + b;
    var c := lines[..Consumed(lines)];
    assert lines[|a|] == l;
    assert forall i | 0 <= i < |a| :: lines[i] == a[i];
    assert |a| < Consumed(lines);
    if !HasNonObject(c) {
      FragmentsContain(c, |a|);
    }
  }

  /** Every object line's fragment appears among the fragments. */
  lemma {:induction false} FragmentsContain(c: seq<Line>, k: nat)
    requires k < |c| && c[k].Obj?
    ensures Fragment(c[k]) in Fragments(c)
    decreases k
  {
    if k > 0 {
      FragmentsContain(c[1..], k - 1);
    }
  }

  /** The loop of `_collect_ndjson`, with the `break` on a stop record and the final join. */
  method CollectNdjson(lines: seq<Line>) returns (r: Result<string>)
    ensures r == Decode(lines)
    ensures r == Expected(lines)
  {
    var parts: seq<Val> := [];
    var i := 0;
    var raised := false;
    ghost var stopped := false;
    assert lines[0..] == lines;
    ghost var whole := CollectParts(lines);
    match whole {
      case Ok(rest) => assert [] + rest == rest;
      case Raised =>
    }
    while i < |lines|
      invariant 0 <= i <= |lines|
      invariant CollectParts(lines) == match CollectParts(lines[i..])
                                       case Raised => Raised
                                       case Ok(rest) => Ok(parts + rest)
      decreases |lines| - i
    {
      assert lines[i..][1..] == lines[i + 1..];
      match lines[i] {
        case Blank =>
        case Malformed =>
        case NonObject =>
          raised := true;
          assert CollectParts(lines) == Raised;
          break;
        case Obj(_, done) =>
          var part := Fragment(lines[i]);
          if done == VBool(true) {
            parts := parts + [part];
            assert CollectParts(lines) == Ok(parts);
            stopped := true;
            break;
          }
          ghost var after := CollectParts(lines[i + 1..]);
          match after {
            case Raised =>
            case Ok(rest) => assert parts + ([part] + rest) == (parts + [part]) + rest;
          }
          parts := parts + [part];
      }
      i := i + 1;
    }
    if !raised && !stopped {
      assert lines[i..] == [];
      assert parts + [] == parts;
    }
    assert raised ==> CollectParts(lines) == Raised;
    assert !raised ==> CollectParts(lines) == Ok(parts);
    if raised {
      r := Raised;
    } else {
      r := Join(parts);
    }
    DecodeIsExpected(lines);
  }
}
