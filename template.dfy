/**
 * Templates with `{{name}}` placeholders, as the messages formats and the
 * greetings are written: a sequence of tokens, each either plain text without
 * an opening brace or a placeholder. On such a text, the ordinal `Replace` of
 * a placeholder is the substitution of that token.
 */
module Template {
  import opened Text

  /** A piece of a template: text, or the placeholder `{{name}}`. */
  datatype Token = Lit(text: string) | Slot(name: string)

  /** The placeholder text `{{name}}`. */
  function Hole(name: string): string
  {
    "{{" + name + "}}"
  }

  /** A placeholder name: non-empty and without braces. */
  predicate GoodName(name: string)
  {
    |name| > 0 && '{' !in name && '}' !in name
  }

  /** Text holds no opening brace, and every placeholder has a good name. */
  predicate WellFormed(ts: seq<Token>)
  {
    forall i :: 0 <= i < |ts| ==>
      (ts[i].Lit? ==> '{' !in ts[i].text) && (ts[i].Slot? ==> GoodName(ts[i].name))
  }

  function TokenText(t: Token): string
  {
    match t
    case Lit(s) => s
    case Slot(n) => Hole(n)
  }

  /** The text the tokens spell. */
  function Render(ts: seq<Token>): string
  {
    if ts == [] then "" else TokenText(ts[0]) + Render(ts[1..])
  }

  /** The tokens with every placeholder `name` replaced by the text `r`. */
  function Fill(ts: seq<Token>, name: string, r: string): seq<Token>
  {
    seq(|ts|, i requires 0 <= i < |ts| => if ts[i] == Slot(name) then Lit(r) else ts[i])
  }

  lemma HoleChars(n: string)
    ensures |Hole(n)| == |n| + 4
    ensures Hole(n)[0] == '{' && Hole(n)[1] == '{' && Hole(n)[|n| + 2] == '}' && Hole(n)[|n| + 3] == '}'
    ensures forall k :: 0 <= k < |n| ==> Hole(n)[k + 2] == n[k]
  {
  }

  /** Two placeholders are the same text only when they have the same name. */
  lemma HoleInjective(m: string, n: string)
    requires Hole(m) == Hole(n)
    ensures m == n
  {
    assert m == Hole(m)[2..|m| + 2];
    assert n == Hole(n)[2..|n| + 2];
  }

  /** A longer placeholder does not start with a shorter one: it still spells its name where the shorter closes. */
  lemma HolePrefixDiffers(m: string, n: string)
    requires GoodName(m) && |n| < |m|
    ensures Hole(m)[..|Hole(n)|] != Hole(n)
  {
    HoleChars(m);
    HoleChars(n);
    assert Hole(m)[..|Hole(n)|][|n| + 2] == m[|n|];
  }

  /**
   * No occurrence of `{{n}}` starts inside a token other than that
   * placeholder, whatever follows the token.
   */
  lemma NoOccurrenceInHead(t: Token, rest: string, n: string)
    requires GoodName(n) && t != Slot(n)
    requires t.Lit? ==> '{' !in t.text
    requires t.Slot? ==> GoodName(t.name)
    ensures forall i :: 0 <= i < |TokenText(t)| ==> !OccursAt(TokenText(t) + rest, i, Hole(n))
  {
    var p, q := Hole(n), TokenText(t);
    var s := q + rest;
    HoleChars(n);
    forall i | 0 <= i < |q| && OccursAt(s, i, p) ensures false {
      assert s[i..i + |p|] == p;
      assert s[i] == p[0] == '{';
      assert s[i] == q[i];
      if t.Slot? {
        var m := t.name;
        HoleChars(m);
        if i == 0 {
          assert s[..|q|] == q && s[..|p|] == p;
          if |p| == |q| {
            HoleInjective(m, n);
          } else if |p| < |q| {
            HolePrefixDiffers(m, n);
          } else {
            HolePrefixDiffers(n, m);
          }
        }
      }
    }
  }

  lemma FillTail(ts: seq<Token>, n: string, r: string)
    requires ts != []
    ensures Fill(ts, n, r)[1..] == Fill(ts[1..], n, r)
  {
  }

  /**
   * On a well-formed template, `Replace` of the placeholder `{{n}}` by a text
   * without an opening brace is the substitution of that token, and the
   * template stays well formed.
   */
  lemma {:induction false} ReplaceSlot(ts: seq<Token>, n: string, r: string)
    requires WellFormed(ts) && GoodName(n) && '{' !in r
    ensures Replace(Render(ts), Hole(n), r) == Render(Fill(ts, n, r))
    ensures WellFormed(Fill(ts, n, r))
    decreases |ts|
  {
    var p := Hole(n);
    if ts != [] {
      var t, rest := ts[0], Render(ts[1..]);
      var filled := Fill(ts, n, r);
      assert WellFormed(ts[1..]) by {
        forall i | 0 <= i < |ts[1..]| ensures ts[1..][i] == ts[i + 1] { }
      }
      ReplaceSlot(ts[1..], n, r);
      FillTail(ts, n, r);
      assert Render(filled) == TokenText(filled[0]) + Render(Fill(ts[1..], n, r));
      if t == Slot(n) {
        assert OccursAt(p + rest, 0, p) by { assert (p + rest)[0..|p|] == p; }
        ReplaceAtStart(p + rest, p, r);
        assert (p + rest)[|p|..] == rest;
      } else {
        NoOccurrenceInHead(t, rest, n);
        ReplaceSplit(TokenText(t), rest, p, r);
      }
    }
  }

  /** After a token other than `{{n}}`, the placeholder occurs exactly when it occurs in what follows. */
  lemma ContainsAfterHead(t: Token, rest: string, n: string)
    requires GoodName(n) && t != Slot(n)
    requires t.Lit? ==> '{' !in t.text
    requires t.Slot? ==> GoodName(t.name)
    ensures Contains(TokenText(t) + rest, Hole(n)) <==> Contains(rest, Hole(n))
  {
    NoOccurrenceInHead(t, rest, n);
    ContainsAfter(TokenText(t), rest, Hole(n));
  }

  /** The placeholder `{{n}}` occurs in a well-formed template exactly when it is one of its tokens. */
  lemma {:induction false} ContainsHole(ts: seq<Token>, n: string)
    requires WellFormed(ts) && GoodName(n)
    ensures Contains(Render(ts), Hole(n)) <==> Slot(n) in ts
    decreases |ts|
  {
    var p := Hole(n);
    if ts == [] {
      assert !OccursAt("", 0, p) by { HoleChars(n); }
    } else {
      var t, rest := ts[0], Render(ts[1..]);
      assert WellFormed(ts[1..]) by {
        forall i | 0 <= i < |ts[1..]| ensures ts[1..][i] == ts[i + 1] { }
      }
      ContainsHole(ts[1..], n);
      assert Slot(n) in ts <==> t == Slot(n) || Slot(n) in ts[1..] by {
        assert ts == [t] + ts[1..];
      }
      if t == Slot(n) {
        assert OccursAt(p + rest, 0, p) by { assert (p + rest)[0..|p|] == p; }
      } else {
        ContainsAfterHead(t, rest, n);
      }
    }
  }

  lemma RenderCons(t: Token, ts: seq<Token>)
    ensures Render([t] + ts) == TokenText(t) + Render(ts)
  {
    assert ([t] + ts)[1..] == ts;
  }

  lemma WellFormedCons(t: Token, ts: seq<Token>)
    requires WellFormed(ts)
    requires t.Lit? ==> '{' !in t.text
    requires t.Slot? ==> GoodName(t.name)
    ensures WellFormed([t] + ts)
  {
    forall i | 1 <= i < |ts| + 1 ensures ([t] + ts)[i] == ts[i - 1] { }
  }

  /** A text without an opening brace is a template of one token. */
  lemma TextTemplate(s: string)
    requires '{' !in s
    ensures WellFormed([Lit(s)]) && Render([Lit(s)]) == s
  {
    assert Render([Lit(s)]) == s + Render([]);
  }
}
