/**
  Sequential placeholder replacement, the way format_query applies its
  `formats` dictionary (spotdl/utils/formatter.py:114-116), and the theorem
  that on well-formed templates it is the same as expanding every
  placeholder at once.
*/
module Templates {
  import opened Wrappers
  import opened Strings

  /** One `formats` entry: a placeholder and its value (`None` is Python's None). */
  type Field = (string, Option<string>)

  /** Python's `str(value)`. */
  function Text(v: Option<string>): string {
    if v.Some? then v.value else "None"
  }

  predicate KeysNonEmpty(fields: seq<Field>) {
    forall i :: 0 <= i < |fields| ==> |fields[i].0| > 0
  }

  /** `for key, value in formats.items(): template = template.replace(key, str(value))` */
  function ReplaceFields(template: string, fields: seq<Field>): string
    requires KeysNonEmpty(fields)
    decreases |fields|
  {
    if |fields| == 0 then template
    else ReplaceFields(ReplaceAll(template, fields[0].0, Text(fields[0].1)), fields[1..])
  }

  /** A placeholder `{word}`: braces at both ends and nowhere else. */
  predicate IsKey(k: string) {
    |k| >= 3 && k[0] == '{' && k[|k| - 1] == '}' &&
    forall i :: 0 < i < |k| - 1 ==> k[i] != '{' && k[i] != '}'
  }

  /** A template seen as literal text and placeholders. */
  datatype Piece = Lit(text: string) | Slot(key: string)

  function PieceText(p: Piece): string {
    match p
    case Lit(t) => t
    case Slot(k) => k
  }

  function Render(ps: seq<Piece>): string
    decreases |ps|
  {
    if |ps| == 0 then "" else PieceText(ps[0]) + Render(ps[1..])
  }

  /** Literal text holds no `{`; every slot is a placeholder. */
  predicate WellFormed(ps: seq<Piece>) {
    forall i :: 0 <= i < |ps| ==>
      (ps[i].Lit? ==> '{' !in ps[i].text) && (ps[i].Slot? ==> IsKey(ps[i].key))
  }

  /** Every key is a placeholder and no value prints a `{`. */
  predicate Clean(fields: seq<Field>) {
    forall i :: 0 <= i < |fields| ==> IsKey(fields[i].0) && '{' !in Text(fields[i].1)
  }

  /** What a placeholder becomes: the value of the first entry with that key, or itself. */
  function ExpandSlot(k: string, fields: seq<Field>): string
    decreases |fields|
  {
    if |fields| == 0 then k
    else if fields[0].0 == k then Text(fields[0].1)
    else ExpandSlot(k, fields[1..])
  }

  /** Every placeholder replaced at once: the reference meaning of format_query. */
  function Expand(ps: seq<Piece>, fields: seq<Field>): string
    decreases |ps|
  {
    if |ps| == 0 then ""
    else
      (match ps[0]
       case Lit(t) => t
       case Slot(k) => ExpandSlot(k, fields)) + Expand(ps[1..], fields)
  }

  function Subst(ps: seq<Piece>, k: string, v: string): (r: seq<Piece>)
    ensures |r| == |ps|
    decreases |ps|
  {
    if |ps| == 0 then []
    else [if ps[0] == Slot(k) then Lit(v) else ps[0]] + Subst(ps[1..], k, v)
  }

  /** Text without `{` is skipped over by a placeholder replacement. */
  lemma {:induction false} ReplaceSkipsPlain(a: string, s: string, k: string, v: string)
    requires '{' !in a && IsKey(k)
    ensures ReplaceAll(a + s, k, v) == a + ReplaceAll(s, k, v)
    decreases |a|
  {
    var x := a + s;
    if |a| > 0 && |x| >= |k| {
      assert x[..|k|][0] == a[0];
      assert x[1..] == a[1..] + s;
      ReplaceSkipsPlain(a[1..], s, k, v);
      assert [a[0]] + a[1..] == a;
    } else if |a| == 0 {
      assert x == s;
    }
  }

  lemma ReplaceHit(k: string, s: string, v: string)
    requires |k| > 0
    ensures ReplaceAll(k + s, k, v) == v + ReplaceAll(s, k, v)
  {
    assert (k + s)[..|k|] == k;
    assert (k + s)[|k|..] == s;
  }

  /** A placeholder at the front of the text is the only one that can match there. */
  lemma KeyPrefix(p: string, k: string, s: string)
    requires IsKey(p) && IsKey(k)
    ensures |k| <= |p + s| && (p + s)[..|k|] == k ==> p == k
  {
    var x := p + s;
    if |k| <= |x| && x[..|k|] == k {
      assert forall j :: 0 <= j < |p| - 1 ==> x[j] == p[j];
      assert x[|p| - 1] == '}';
      assert forall j :: 0 <= j < |k| - 1 ==> x[j] == k[j];
      assert x[|k| - 1] == '}';
      assert |k| == |p|;
      assert x[..|p|] == p;
    }
  }

  /** Another placeholder is skipped over as a whole. */
  lemma ReplaceSkipsOtherKey(p: string, s: string, k: string, v: string)
    requires IsKey(p) && IsKey(k) && p != k
    ensures ReplaceAll(p + s, k, v) == p + ReplaceAll(s, k, v)
  {
    var x := p + s;
    KeyPrefix(p, k, s);
    if |x| >= |k| {
      assert x[..|k|] != k;
      assert ReplaceAll(x, k, v) == [x[0]] + ReplaceAll(x[1..], k, v);
      var tail := p[1..];
      assert x[1..] == tail + s;
      assert forall i :: 0 <= i < |tail| ==> tail[i] == p[i + 1];
      assert '{' !in tail;
      ReplaceSkipsPlain(tail, s, k, v);
      assert [p[0]] + tail == p;
    } else {
      assert |s| < |k|;
    }
  }

  /** One replacement of a placeholder substitutes exactly its slots. */
  lemma {:induction false} ReplaceRender(ps: seq<Piece>, k: string, v: string)
    requires WellFormed(ps) && IsKey(k)
    ensures ReplaceAll(Render(ps), k, v) == Render(Subst(ps, k, v))
    decreases |ps|
  {
    if |ps| > 0 {
      assert WellFormed(ps[1..]) by {
        forall i | 0 <= i < |ps| - 1 ensures ps[1..][i] == ps[i + 1] { }
      }
      ReplaceRender(ps[1..], k, v);
      match ps[0]
      case Lit(t) =>
        assert ps[0] == ps[0];
        ReplaceSkipsPlain(t, Render(ps[1..]), k, v);
      case Slot(p) =>
        if p == k {
          ReplaceHit(k, Render(ps[1..]), v);
        } else {
          ReplaceSkipsOtherKey(p, Render(ps[1..]), k, v);
        }
    }
  }

  lemma {:induction false} ExpandNothing(ps: seq<Piece>)
    ensures Expand(ps, []) == Render(ps)
    decreases |ps|
  {
    if |ps| > 0 {
      ExpandNothing(ps[1..]);
    }
  }

  lemma {:induction false} ExpandSubst(ps: seq<Piece>, f: Field, rest: seq<Field>)
    ensures Expand(Subst(ps, f.0, Text(f.1)), rest) == Expand(ps, [f] + rest)
    decreases |ps|
  {
    if |ps| > 0 {
      ExpandSubst(ps[1..], f, rest);
      assert ([f] + rest)[1..] == rest;
    }
  }

  lemma SubstWellFormed(ps: seq<Piece>, k: string, v: string)
    requires WellFormed(ps) && '{' !in v
    ensures WellFormed(Subst(ps, k, v))
    decreases |ps|
  {
    if |ps| > 0 {
      assert WellFormed(ps[1..]) by {
        forall i | 0 <= i < |ps| - 1 ensures ps[1..][i] == ps[i + 1] { }
      }
      SubstWellFormed(ps[1..], k, v);
      var r := Subst(ps, k, v);
      forall i | 0 <= i < |r|
        ensures (r[i].Lit? ==> '{' !in r[i].text) && (r[i].Slot? ==> IsKey(r[i].key))
      {
        if i > 0 {
          assert r[i] == Subst(ps[1..], k, v)[i - 1];
        }
      }
    }
  }

  /**
    The central fact about format_query's replacement loop: on a
    well-formed template whose values print no `{`, replacing the keys one
    after the other is the same as expanding every placeholder at once.
  */
  lemma {:induction false} ReplaceFieldsExpands(ps: seq<Piece>, fields: seq<Field>)
    requires WellFormed(ps) && Clean(fields)
    ensures KeysNonEmpty(fields)
    ensures ReplaceFields(Render(ps), fields) == Expand(ps, fields)
    decreases |fields|
  {
    if |fields| == 0 {
      ExpandNothing(ps);
    } else {
      var f := fields[0];
      ReplaceRender(ps, f.0, Text(f.1));
      SubstWellFormed(ps, f.0, Text(f.1));
      assert Clean(fields[1..]) by {
        forall i | 0 <= i < |fields| - 1 ensures fields[1..][i] == fields[i + 1] { }
      }
      ReplaceFieldsExpands(Subst(ps, f.0, Text(f.1)), fields[1..]);
      ExpandSubst(ps, f, fields[1..]);
      assert [f] + fields[1..] == fields;
    }
  }

  /** With distinct keys, a placeholder expands to the value stored under it. */
  lemma {:induction false} ExpandSlotAt(fields: seq<Field>, i: nat)
    requires i < |fields|
    requires forall j :: 0 <= j < i ==> fields[j].0 != fields[i].0
    ensures ExpandSlot(fields[i].0, fields) == Text(fields[i].1)
    decreases i
  {
    if i > 0 {
      ExpandSlotAt(fields[1..], i - 1);
    }
  }

  /** Replacing with a longer value never shrinks a string, and grows it when the key occurs. */
  lemma {:induction false} ReplaceGrows(s: string, k: string, v: string)
    requires |v| > |k| > 0
    ensures |ReplaceAll(s, k, v)| >= |s|
    ensures Contains(s, k) ==> |ReplaceAll(s, k, v)| > |s|
    decreases |s|
  {
    if |s| >= |k| {
      if s[..|k|] == k {
        ReplaceGrows(s[|k|..], k, v);
      } else {
        ReplaceGrows(s[1..], k, v);
        assert !StartsWith(s, k);
      }
    } else {
      ShortNotContains(s, k);
    }
  }

  lemma {:induction false} SubstAbsent(ps: seq<Piece>, k: string, v: string)
    requires forall i :: 0 <= i < |ps| ==> ps[i] != Slot(k)
    ensures Subst(ps, k, v) == ps
    decreases |ps|
  {
    if |ps| > 0 {
      SubstAbsent(ps[1..], k, v);
    }
  }

  /** A placeholder that is no slot of a well-formed template does not occur in its text. */
  lemma NoSlotNotContained(ps: seq<Piece>, k: string)
    requires WellFormed(ps) && IsKey(k)
    requires forall i :: 0 <= i < |ps| ==> ps[i] != Slot(k)
    ensures !Contains(Render(ps), k)
  {
    var v := k + "x";
    ReplaceRender(ps, k, v);
    SubstAbsent(ps, k, v);
    ReplaceGrows(Render(ps), k, v);
  }
}
