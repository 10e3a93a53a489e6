/**
 * Python's `%` operator with a mapping on the right: `template % mapping`.
 *
 * Only the two specifiers the tasks use are interpreted: `%(key)s`, replaced
 * by the mapping's value for `key`, and `%%`, which yields one `%`.  The key is
 * scanned as CPython scans it (balanced parentheses), and looked up before the
 * conversion character is read, so a missing key is reported even when the
 * specifier is unfinished.  Every other specifier is reported as Unsupported.
 */
module Percent {
  import opened Base

  datatype FormatError =
    | MissingKey(key: string)       // KeyError: the key is not in the mapping
    | IncompleteFormat              // ValueError: the text ends inside a specifier
    | IncompleteKey                 // ValueError: `%(` without its matching `)`
    | Unsupported(conversion: char) // a specifier other than `%(key)s` and `%%`

  function Prepend(s: string, r: Result<string, FormatError>): Result<string, FormatError>
  {
    match r
    case Success(v) => Success(s + v)
    case Failure(e) => Failure(e)
  }

  /** Index of the `)` that closes a key opened before index `i`, with `depth` parentheses open. */
  function KeyEnd(t: string, i: nat, depth: nat): (r: Option<nat>)
    requires i <= |t| && depth > 0
    ensures r.Some? ==> i <= r.value < |t| && t[r.value] == ')'
    decreases |t| - i
  {
    if i == |t| then None
    else if t[i] == ')' then (if depth == 1 then Some(i) else KeyEnd(t, i + 1, depth - 1))
    else if t[i] == '(' then KeyEnd(t, i + 1, depth + 1)
    else KeyEnd(t, i + 1, depth)
  }

  /** `t % m`, scanning `t` from left to right; the first error met is the one raised. */
  function Interpolate(t: string, m: map<string, string>): Result<string, FormatError>
    decreases |t|
  {
    if t == [] then Success([])
    else if t[0] != '%' then Prepend([t[0]], Interpolate(t[1..], m))
    else if |t| == 1 then Failure(IncompleteFormat)
    else if t[1] == '%' then Prepend("%", Interpolate(t[2..], m))
    else if t[1] != '(' then Failure(Unsupported(t[1]))
    else match KeyEnd(t, 2, 1)
      case None => Failure(IncompleteKey)
      case Some(j) =>
        var key := t[2..j];
        if key !in m then Failure(MissingKey(key))
        else if j + 1 == |t| then Failure(IncompleteFormat)
        else if t[j + 1] != 's' then Failure(Unsupported(t[j + 1]))
        else Prepend(m[key], Interpolate(t[j + 2..], m))
  }

  /** A template read as literal text and named fields. */
  datatype Piece = Lit(text: string) | Field(key: string)

  /** Template text that stands for the literal `s`: each `%` doubled. */
  function Escape(s: string): string
  {
    if s == [] then [] else (if s[0] == '%' then "%%" else [s[0]]) + Escape(s[1..])
  }

  function Placeholder(key: string): string
  {
    "%(" + key + ")s"
  }

  /** The template text of a sequence of pieces. */
  function Format(ps: seq<Piece>): string
  {
    if ps == [] then []
    else (match ps[0] case Lit(s) => Escape(s) case Field(k) => Placeholder(k)) + Format(ps[1..])
  }

  /** A key without parentheses, so that its placeholder ends at the first `)`. */
  predicate PlainKey(key: string)
  {
    '(' !in key && ')' !in key
  }

  predicate PlainPieces(ps: seq<Piece>)
  {
    forall i :: 0 <= i < |ps| && ps[i].Field? ==> PlainKey(ps[i].key)
  }

  lemma PlainAppend(a: seq<Piece>, b: seq<Piece>)
    requires PlainPieces(a) && PlainPieces(b)
    ensures PlainPieces(a + b)
  {
    forall i | 0 <= i < |a + b| && (a + b)[i].Field? ensures PlainKey((a + b)[i].key) {
      if i >= |a| {
        assert (a + b)[i] == b[i - |a|];
      }
    }
  }

  function Keys(ps: seq<Piece>): set<string>
  {
    set i | 0 <= i < |ps| && ps[i].Field? :: ps[i].key
  }

  /** Reference meaning of a template: literals copied, fields looked up, left to right. */
  function Render(ps: seq<Piece>, m: map<string, string>): Result<string, FormatError>
  {
    if ps == [] then Success([])
    else match ps[0]
      case Lit(s) => Prepend(s, Render(ps[1..], m))
      case Field(k) => if k in m then Prepend(m[k], Render(ps[1..], m)) else Failure(MissingKey(k))
  }

  /** One step of Render at index `i`, for unfolding a concrete template. */
  lemma RenderAt(ps: seq<Piece>, i: nat, m: map<string, string>)
    requires i < |ps|
    ensures ps[i].Lit? ==> Render(ps[i..], m) == Prepend(ps[i].text, Render(ps[i + 1..], m))
    ensures ps[i].Field? && ps[i].key in m ==> Render(ps[i..], m) == Prepend(m[ps[i].key], Render(ps[i + 1..], m))
    ensures ps[i].Field? && ps[i].key !in m ==> Render(ps[i..], m) == Failure(MissingKey(ps[i].key))
  {
    assert ps[i..][0] == ps[i];
    assert ps[i..][1..] == ps[i + 1..];
  }

  /** A template split in two renders as its first part followed by its second. */
  lemma {:induction false} RenderAppend(a: seq<Piece>, b: seq<Piece>, m: map<string, string>)
    ensures Render(a + b, m) == match Render(a, m) case Success(x) => Prepend(x, Render(b, m)) case Failure(e) => Failure(e)
  {
    if a == [] {
      assert a + b == b;
      match Render(b, m)
      case Success(v) => assert [] + v == v;
      case Failure(_) =>
    } else {
      assert (a + b)[0] == a[0];
      assert (a + b)[1..] == a[1..] + b;
      RenderAppend(a[1..], b, m);
      match a[0]
      case Lit(s) =>
        match Render(a[1..], m) {
          case Success(x) => PrependConcat(s, x, Render(b, m));
          case Failure(_) =>
        }
      case Field(k) =>
        if k in m {
          match Render(a[1..], m) {
            case Success(x) => PrependConcat(m[k], x, Render(b, m));
            case Failure(_) =>
          }
        }
    }
  }

  /** A literal followed by a field the map has renders as the literal, the value, then the rest. */
  lemma RenderLitField(text: string, k: string, rest: seq<Piece>, m: map<string, string>, v: string)
    requires k in m && Render(rest, m) == Success(v)
    ensures Render([Lit(text), Field(k)] + rest, m) == Success(text + m[k] + v)
  {
    var ps := [Lit(text), Field(k)] + rest;
    assert ps[2..] == rest;
    RenderAt(ps, 1, m);
    RenderAt(ps, 0, m);
    assert ps[0..] == ps;
    AppendAssoc(text, m[k], v);
  }

  /** One step of Format at index `i`. */
  lemma FormatAt(ps: seq<Piece>, i: nat)
    requires i < |ps|
    ensures ps[i].Lit? ==> Format(ps[i..]) == Escape(ps[i].text) + Format(ps[i + 1..])
    ensures ps[i].Field? ==> Format(ps[i..]) == Placeholder(ps[i].key) + Format(ps[i + 1..])
  {
    assert ps[i..][0] == ps[i];
    assert ps[i..][1..] == ps[i + 1..];
  }

  /** The template text of two pieces lists written one after the other. */
  lemma {:induction false} FormatAppend(a: seq<Piece>, b: seq<Piece>)
    ensures Format(a + b) == Format(a) + Format(b)
  {
    if a == [] {
      assert a + b == b;
    } else {
      assert (a + b)[0] == a[0];
      assert (a + b)[1..] == a[1..] + b;
      FormatAppend(a[1..], b);
      var h := match a[0] case Lit(s) => Escape(s) case Field(k) => Placeholder(k);
      AppendAssoc(h, Format(a[1..]), Format(b));
    }
  }

  /** Appending a literal appends its escape; appending a field appends its placeholder. */
  lemma FormatSnoc(ps: seq<Piece>, p: Piece)
    ensures p.Lit? ==> Format(ps + [p]) == Format(ps) + Escape(p.text)
    ensures p.Field? ==> Format(ps + [p]) == Format(ps) + Placeholder(p.key)
  {
    FormatAppend(ps, [p]);
    assert [p][1..] == [];
    assert Format([p]) == (if p.Lit? then Escape(p.text) else Placeholder(p.key)) + [];
  }

  /** Text without `%` is its own escape. */
  lemma {:induction false} EscapePlain(s: string)
    requires '%' !in s
    ensures Escape(s) == s
  {
    if s != [] {
      EscapePlain(s[1..]);
      assert [s[0]] + s[1..] == s;
    }
  }

  lemma PrependConcat(a: string, b: string, r: Result<string, FormatError>)
    ensures Prepend(a, Prepend(b, r)) == Prepend(a + b, r)
  {
    match r
    case Success(v) => assert a + (b + v) == (a + b) + v;
    case Failure(_) =>
  }

  /** Text without `%` is copied unchanged. */
  lemma {:induction false} NoPercentUnchanged(t: string, m: map<string, string>)
    requires '%' !in t
    ensures Interpolate(t, m) == Success(t)
  {
    if t != [] {
      NoPercentUnchanged(t[1..], m);
      assert [t[0]] + t[1..] == t;
    }
  }

  lemma InterpolateChar(c: char, tail: string, m: map<string, string>)
    requires c != '%'
    ensures Interpolate([c] + tail, m) == Prepend([c], Interpolate(tail, m))
  {
    assert ([c] + tail)[1..] == tail;
  }

  lemma InterpolatePercent(tail: string, m: map<string, string>)
    ensures Interpolate("%%" + tail, m) == Prepend("%", Interpolate(tail, m))
  {
    assert ("%%" + tail)[2..] == tail;
  }

  /** One character of an escaped literal, given that the rest of the literal interpolates to itself. */
  lemma InterpolateEscapeStep(s: string, rest: string, m: map<string, string>)
    requires s != []
    requires Interpolate(Escape(s[1..]) + rest, m) == Prepend(s[1..], Interpolate(rest, m))
    ensures Interpolate(Escape(s) + rest, m) == Prepend(s, Interpolate(rest, m))
  {
    var tail := Escape(s[1..]) + rest;
    if s[0] == '%' {
      assert Escape(s) + rest == "%%" + tail by {
        AppendAssoc("%%", Escape(s[1..]), rest);
      }
      InterpolatePercent(tail, m);
      PrependConcat("%", s[1..], Interpolate(rest, m));
    } else {
      assert Escape(s) + rest == [s[0]] + tail by {
        AppendAssoc([s[0]], Escape(s[1..]), rest);
      }
      InterpolateChar(s[0], tail, m);
      PrependConcat([s[0]], s[1..], Interpolate(rest, m));
    }
    assert [s[0]] + s[1..] == s;
  }

  /** An escaped literal interpolates to itself, whatever follows it. */
  lemma {:induction false} InterpolateEscape(s: string, rest: string, m: map<string, string>)
    ensures Interpolate(Escape(s) + rest, m) == Prepend(s, Interpolate(rest, m))
  {
    if s == [] {
      assert Escape(s) + rest == rest;
      match Interpolate(rest, m)
      case Success(v) => assert s + v == v;
      case Failure(_) =>
    } else {
      InterpolateEscape(s[1..], rest, m);
      InterpolateEscapeStep(s, rest, m);
    }
  }

  lemma {:induction false} KeyEndPlain(t: string, i: nat, n: nat)
    requires i + n < |t| && t[i + n] == ')'
    requires forall j :: i <= j < i + n ==> t[j] != '(' && t[j] != ')'
    ensures KeyEnd(t, i, 1) == Some(i + n)
    decreases n
  {
    if n > 0 {
      KeyEndPlain(t, i + 1, n - 1);
    }
  }

  /** A placeholder is replaced by its value, which is not scanned again; a missing key is an error. */
  lemma InterpolatePlaceholder(key: string, rest: string, m: map<string, string>)
    requires PlainKey(key)
    ensures Interpolate(Placeholder(key) + rest, m)
         == if key in m then Prepend(m[key], Interpolate(rest, m)) else Failure(MissingKey(key))
  {
    var t := Placeholder(key) + rest;
    var n := |key|;
    assert t == "%(" + key + ")s" + rest;
    assert t[2..2 + n] == key;
    forall j | 2 <= j < 2 + n ensures t[j] != '(' && t[j] != ')' {
      assert t[j] == key[j - 2];
    }
    KeyEndPlain(t, 2, n);
    assert t[n + 3] == 's';
    assert t[n + 4..] == rest;
  }

  /** `%`-interpolating a well-formed template computes its reference meaning. */
  lemma {:induction false} FormatInterpolates(ps: seq<Piece>, m: map<string, string>)
    requires PlainPieces(ps)
    ensures Interpolate(Format(ps), m) == Render(ps, m)
  {
    if ps != [] {
      var rest := Format(ps[1..]);
      assert PlainPieces(ps[1..]) by {
        forall i | 0 <= i < |ps[1..]| && ps[1..][i].Field? ensures PlainKey(ps[1..][i].key) {
          assert ps[1..][i] == ps[i + 1];
        }
      }
      FormatInterpolates(ps[1..], m);
      match ps[0]
      case Lit(s) =>
        InterpolateEscape(s, rest, m);
      case Field(k) =>
        assert PlainKey(ps[0].key);
        InterpolatePlaceholder(k, rest, m);
    }
  }

  /** Rendering succeeds exactly when every field's key is in the mapping. */
  lemma {:induction false} RenderSucceeds(ps: seq<Piece>, m: map<string, string>)
    ensures Render(ps, m).Success? <==> Keys(ps) <= m.Keys
  {
    if ps != [] {
      RenderSucceeds(ps[1..], m);
      assert Keys(ps) == (if ps[0].Field? then {ps[0].key} else {}) + Keys(ps[1..]) by {
        forall k ensures k in Keys(ps) <==> k in (if ps[0].Field? then {ps[0].key} else {}) + Keys(ps[1..]) {
          if k in Keys(ps[1..]) {
            var i :| 0 <= i < |ps[1..]| && ps[1..][i].Field? && ps[1..][i].key == k;
            assert ps[i + 1] == ps[1..][i];
          }
          if k in Keys(ps) {
            var i :| 0 <= i < |ps| && ps[i].Field? && ps[i].key == k;
            if i > 0 { assert ps[1..][i - 1] == ps[i]; }
          }
        }
      }
    }
  }

  /** A failing render names a key of the template that the mapping lacks. */
  lemma {:induction false} RenderFailure(ps: seq<Piece>, m: map<string, string>)
    ensures Render(ps, m).Failure? ==>
      Render(ps, m).error.MissingKey? && Render(ps, m).error.key in Keys(ps) && Render(ps, m).error.key !in m
  {
    if ps != [] {
      RenderFailure(ps[1..], m);
      if Render(ps, m).Failure? && Render(ps[1..], m).Failure? {
        var k := Render(ps[1..], m).error.key;
        var i :| 0 <= i < |ps[1..]| && ps[1..][i].Field? && ps[1..][i].key == k;
        assert ps[i + 1] == ps[1..][i];
      }
    }
  }
}
