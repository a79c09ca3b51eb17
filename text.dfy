/** Text assembled piece by piece: a list rendered as consecutive bullets, and
    the number of lines in a text. */
module Text {

  lemma AppendAssoc(a: string, b: string, c: string)
    ensures (a + b) + c == a + (b + c)
  {
  }

  /** The bullets of the items, one after another in input order. */
  function Render<T>(xs: seq<T>, bullet: T -> string): string {
    if xs == [] then "" else Render(xs[..|xs| - 1], bullet) + bullet(xs[|xs| - 1])
  }

  /** Rendering a concatenation renders each part in turn. */
  lemma {:induction false} RenderAppend<T>(a: seq<T>, b: seq<T>, bullet: T -> string)
    ensures Render(a + b, bullet) == Render(a, bullet) + Render(b, bullet)
    decreases |b|
  {
    if b != [] {
      var b' := b[..|b| - 1];
      assert (a + b)[..|a + b| - 1] == a + b';
      RenderAppend(a, b', bullet);
    } else {
      assert a + b == a;
    }
  }

  lemma RenderSingle<T>(x: T, bullet: T -> string)
    ensures Render([x], bullet) == bullet(x)
  {
    assert [x][..0] == [];
  }

  lemma RenderSplit<T>(xs: seq<T>, i: nat, bullet: T -> string)
    requires i <= |xs|
    ensures Render(xs, bullet) == Render(xs[..i], bullet) + Render(xs[i..], bullet)
  {
    assert xs == xs[..i] + xs[i..];
    RenderAppend(xs[..i], xs[i..], bullet);
  }

  lemma RenderFront<T>(ys: seq<T>, bullet: T -> string)
    requires ys != []
    ensures Render(ys, bullet) == bullet(ys[0]) + Render(ys[1..], bullet)
  {
    assert ys == [ys[0]] + ys[1..];
    RenderAppend([ys[0]], ys[1..], bullet);
    RenderSingle(ys[0], bullet);
  }

  /** The bullet of item i comes after those of the earlier items and before
      those of the later ones. */
  lemma RenderInOrder<T>(xs: seq<T>, i: nat, bullet: T -> string)
    requires i < |xs|
    ensures Render(xs, bullet) == Render(xs[..i], bullet) + bullet(xs[i]) + Render(xs[i + 1..], bullet)
  {
    RenderSplit(xs, i, bullet);
    RenderFront(xs[i..], bullet);
    assert xs[i..][1..] == xs[i + 1..];
    AppendAssoc(Render(xs[..i], bullet), bullet(xs[i]), Render(xs[i + 1..], bullet));
  }

  /** `for x in xs: text += bullet(x)`: the text grows by one bullet per item. */
  method AppendBullets<T>(text: string, xs: seq<T>, bullet: T -> string) returns (r: string)
    ensures r == text + Render(xs, bullet)
  {
    r := text;
    for i := 0 to |xs|
      invariant r == text + Render(xs[..i], bullet)
    {
      RenderSnoc(xs, i, bullet);
      AppendAssoc(text, Render(xs[..i], bullet), bullet(xs[i]));
      r := r + bullet(xs[i]);
    }
    assert xs[..|xs|] == xs;
  }

  lemma RenderSnoc<T>(xs: seq<T>, i: nat, bullet: T -> string)
    requires i < |xs|
    ensures Render(xs[..i + 1], bullet) == Render(xs[..i], bullet) + bullet(xs[i])
  {
    assert xs[..i + 1][..i] == xs[..i];
  }

  function NewlineCount(s: string): nat {
    if s == [] then 0 else (if s[0] == '\n' then 1 else 0) + NewlineCount(s[1..])
  }

  lemma {:induction false} NewlineCountAppend(a: string, b: string)
    ensures NewlineCount(a + b) == NewlineCount(a) + NewlineCount(b)
    decreases |a|
  {
    if a != [] {
      assert (a + b)[1..] == a[1..] + b;
      NewlineCountAppend(a[1..], b);
    } else {
      assert a + b == b;
    }
  }

  lemma {:induction false} NoNewlineCount(s: string)
    requires '\n' !in s
    ensures NewlineCount(s) == 0
    decreases |s|
  {
    if s != [] {
      assert s[0] in s;
      assert forall c :: c in s[1..] ==> c in s;
      NoNewlineCount(s[1..]);
    }
  }

  /** A text without newline, followed by one, is one line. */
  lemma OneLineCount(text: string)
    requires '\n' !in text
    ensures NewlineCount(text + "\n") == 1
  {
    NewlineCountAppend(text, "\n");
    NoNewlineCount(text);
    assert "\n"[1..] == [];
  }

  /** Items that each render as one line render as one line per item. */
  lemma {:induction false} RenderLineCount<T>(xs: seq<T>, bullet: T -> string)
    requires forall i :: 0 <= i < |xs| ==> NewlineCount(bullet(xs[i])) == 1
    ensures NewlineCount(Render(xs, bullet)) == |xs|
    decreases |xs|
  {
    if xs != [] {
      RenderLineCount(xs[..|xs| - 1], bullet);
      NewlineCountAppend(Render(xs[..|xs| - 1], bullet), bullet(xs[|xs| - 1]));
    }
  }

}
