/**
 * Python's `str.format` with keyword arguments only, as the feedback
 * manager's templates use it: literal text, doubled braces and `{key}`
 * fields. Format specifications, conversions and attribute or index
 * lookups inside a field are not modelled.
 */
module StrFormat {
  import opened Base

  function Then(prefix: string, rest: Option<string>): (r: Option<string>)
    ensures r.Some? <==> rest.Some?
    ensures r.Some? ==> r.value == prefix + rest.value
  {
    if rest.Some? then Some(prefix + rest.value) else None
  }

  predicate BraceFree(s: string) {
    '{' !in s && '}' !in s
  }

  lemma {:induction false} BraceFreeConcat(a: string, b: string)
    requires BraceFree(a) && BraceFree(b)
    ensures BraceFree(a + b)
  {
    assert forall c :: c in a + b ==> c in a || c in b;
  }

  /**
   * `template.format(**kw)`: `{{` and `}}` stand for single braces and `{key}` for
   * the keyword argument `key`. `None` when Python raises: a field with no keyword
   * argument (`KeyError`), an unclosed field, a `{` inside a field or a lone `}`
   * (`ValueError`).
   */
  function Format(t: string, kw: map<string, string>): Option<string>
    decreases |t|
  {
    if |t| == 0 then Some("")
    else if t[0] == '{' then
      if |t| > 1 && t[1] == '{' then Then("{", Format(t[2..], kw))
      else
        var j := FirstIndex(t[1..], '}');
        if j == |t| - 1 then None
        else
          var key := t[1..1 + j];
          if '{' in key || key !in kw then None
          else Then(kw[key], Format(t[j + 2..], kw))
    else if t[0] == '}' then
      if |t| > 1 && t[1] == '}' then Then("}", Format(t[2..], kw)) else None
    else Then([t[0]], Format(t[1..], kw))
  }

  /** Text without braces is copied as it is. */
  lemma {:induction false} FormatLiteral(t: string, kw: map<string, string>)
    requires BraceFree(t)
    ensures Format(t, kw) == Some(t)
    decreases |t|
  {
    if |t| > 0 {
      assert BraceFree(t[1..]) by {
        assert forall c :: c in t[1..] ==> c in t;
      }
      FormatLiteral(t[1..], kw);
      assert [t[0]] + t[1..] == t;
    }
  }

  /** Literal text before the rest of a template is copied in front of its result. */
  lemma {:induction false} FormatAfterLiteral(p: string, t: string, kw: map<string, string>)
    requires BraceFree(p)
    ensures Format(p + t, kw) == Then(p, Format(t, kw))
    decreases |p|
  {
    if |p| > 0 {
      assert (p + t)[0] == p[0];
      assert (p + t)[1..] == p[1..] + t;
      assert BraceFree(p[1..]) by {
        assert forall c :: c in p[1..] ==> c in p;
      }
      assert p[0] in p;
      FormatAfterLiteral(p[1..], t, kw);
      assert [p[0]] + p[1..] == p;
      if Format(t, kw).Some? {
        var v := Format(t, kw).value;
        assert [p[0]] + (p[1..] + v) == p + v;
      }
    } else {
      assert p + t == t;
      if Format(t, kw).Some? {
        assert p + Format(t, kw).value == Format(t, kw).value;
      }
    }
  }

  /** The replacement field `{key}`. */
  function Field(key: string): (r: string)
    ensures |r| == |key| + 2 && r[0] == '{' && r[|r| - 1] == '}' && r[1..|r| - 1] == key
  {
    "{" + key + "}"
  }

  /** A field is replaced by its keyword argument, and fails without one. */
  lemma {:induction false} FormatField(key: string, t: string, kw: map<string, string>)
    requires BraceFree(key)
    ensures Format(Field(key) + t, kw) == if key in kw then Then(kw[key], Format(t, kw)) else None
  {
    var s := Field(key) + t;
    assert s[0] == '{';
    assert s[1..] == key + "}" + t;
    var j := FirstIndex(s[1..], '}');
    assert (key + "}" + t)[|key|] == '}';
    assert '}' !in (key + "}" + t)[..|key|] by {
      assert (key + "}" + t)[..|key|] == key;
    }
    assert j == |key|;
    assert s[1..1 + j] == key;
    assert s[j + 2..] == t;
    if |key| == 0 {
      assert s[1] == '}';
    } else {
      assert s[1] == key[0];
    }
  }

  /** A template with one field between two literal parts. */
  lemma {:induction false} FormatOneField(p: string, key: string, q: string, kw: map<string, string>)
    requires BraceFree(p) && BraceFree(key) && BraceFree(q)
    ensures Format(p + Field(key) + q, kw) == if key in kw then Some(p + kw[key] + q) else None
  {
    var field := Field(key) + q;
    assert p + Field(key) + q == p + field;
    FormatAfterLiteral(p, field, kw);
    FormatField(key, q, kw);
    FormatLiteral(q, kw);
    if key in kw {
      assert Format(field, kw) == Some(kw[key] + q);
      assert p + (kw[key] + q) == p + kw[key] + q;
    }
  }

  /** Two fields, with literal text before, between and after. */
  lemma {:induction false} FormatTwoFields(p: string, k1: string, q: string, k2: string, u: string, kw: map<string, string>)
    requires BraceFree(p) && BraceFree(k1) && BraceFree(q) && BraceFree(k2) && BraceFree(u)
    ensures Format(p + Field(k1) + q + Field(k2) + u, kw) ==
      if k1 in kw && k2 in kw then Some(p + kw[k1] + q + kw[k2] + u) else None
  {
    var rest := q + Field(k2) + u;
    var f1 := Field(k1) + rest;
    Regroup5(p, Field(k1), q, Field(k2), u);
    FormatOneField(q, k2, u, kw);
    FormatField(k1, rest, kw);
    FormatAfterLiteral(p, f1, kw);
    if k1 in kw && k2 in kw {
      assert Format(f1, kw) == Some(kw[k1] + (q + kw[k2] + u));
      Regroup5(p, kw[k1], q, kw[k2], u);
    }
  }
}
