/** Fixed-size batching, as both loaders do it: the slices s[i:i+n] for i in
    range(0, len(s), n). */
module Batching {
  import opened PyValues

  /** The batches of s, in order. Every batch has n elements except possibly the last. */
  function Chunks<T>(s: seq<T>, n: nat): seq<seq<T>>
    requires n > 0
    decreases |s|
  {
    if s == [] then [] else [s[..Min(n, |s|)]] + Chunks(s[Min(n, |s|)..], n)
  }

  /** The concatenation of a sequence of batches. */
  function Flatten<T>(ss: seq<seq<T>>): seq<T> {
    if ss == [] then [] else ss[0] + Flatten(ss[1..])
  }

  lemma {:induction false} FlattenSnoc<T>(ss: seq<seq<T>>, s: seq<T>)
    ensures Flatten(ss + [s]) == Flatten(ss) + s
    decreases |ss|
  {
    if ss == [] {
      assert [s][1..] == [];
      assert ss + [s] == [s];
    } else {
      assert (ss + [s])[1..] == ss[1..] + [s];
      FlattenSnoc(ss[1..], s);
    }
  }

  lemma {:induction false} FlattenAppend<T>(a: seq<seq<T>>, b: seq<seq<T>>)
    ensures Flatten(a + b) == Flatten(a) + Flatten(b)
    decreases |a|
  {
    if a == [] {
      assert a + b == b;
    } else {
      assert (a + b)[1..] == a[1..] + b;
      FlattenAppend(a[1..], b);
    }
  }

  /** An element of the concatenation is an element of one of the parts. */
  lemma {:induction false} FlattenMember<T>(ss: seq<seq<T>>, x: T)
    ensures x in Flatten(ss) <==> exists j :: 0 <= j < |ss| && x in ss[j]
    decreases |ss|
  {
    if ss != [] {
      FlattenMember(ss[1..], x);
      if exists j :: 0 <= j < |ss| && x in ss[j] {
        var j :| 0 <= j < |ss| && x in ss[j];
        if j > 0 {
          assert ss[1..][j - 1] == ss[j];
        }
      }
      if exists j :: 0 <= j < |ss[1..]| && x in ss[1..][j] {
        var j :| 0 <= j < |ss[1..]| && x in ss[1..][j];
        assert ss[j + 1] == ss[1..][j];
      }
    }
  }

  /** Concatenating the batches gives back the input: every element is in exactly
      one batch, and order is kept. */
  lemma {:induction false} ChunksFlatten<T>(s: seq<T>, n: nat)
    requires n > 0
    ensures Flatten(Chunks(s, n)) == s
    decreases |s|
  {
    if s != [] {
      var k := Min(n, |s|);
      ChunksFlatten(s[k..], n);
      assert Chunks(s, n)[1..] == Chunks(s[k..], n);
      assert s[..k] + s[k..] == s;
    }
  }

  /** No batch is empty, none holds more than n elements, and only the last may be short. */
  lemma {:induction false} ChunksSizes<T>(s: seq<T>, n: nat)
    requires n > 0
    ensures forall i :: 0 <= i < |Chunks(s, n)| ==> 0 < |Chunks(s, n)[i]| <= n
    ensures forall i :: 0 <= i < |Chunks(s, n)| - 1 ==> |Chunks(s, n)[i]| == n
    decreases |s|
  {
    if s != [] {
      var k := Min(n, |s|);
      ChunksSizes(s[k..], n);
      var c := Chunks(s, n);
      assert c == [s[..k]] + Chunks(s[k..], n);
      if |s| < n {
        assert s[k..] == [];
      }
      forall i | 1 <= i < |c|
        ensures 0 < |c[i]| <= n && (i < |c| - 1 ==> |c[i]| == n)
      {
        assert c[i] == Chunks(s[k..], n)[i - 1];
      }
    }
  }

  /** The batch that starts at offset i: Chunks(s[i..], n) unfolds one batch. */
  lemma ChunksStep<T>(s: seq<T>, i: nat, n: nat)
    requires n > 0 && i < |s|
    ensures Chunks(s[i..], n) == [s[i..Min(i + n, |s|)]] + Chunks(s[Min(i + n, |s|)..], n)
  {
    var t := s[i..];
    assert t[..Min(n, |t|)] == s[i..Min(i + n, |s|)];
    assert t[Min(n, |t|)..] == s[Min(i + n, |s|)..];
  }

  /** The step of a loop that walks s in strides of n: once the batches before offset
      i are done, taking s[i:i+n] leaves the batches from offset i + n to do. */
  lemma ChunksAdvance<T>(s: seq<T>, i: nat, n: nat, done: seq<seq<T>>)
    requires n > 0 && i < |s|
    requires done + Chunks(s[Min(i, |s|)..], n) == Chunks(s, n)
    ensures (done + [s[i..Min(i + n, |s|)]]) + Chunks(s[Min(i + n, |s|)..], n) == Chunks(s, n)
  {
    ChunksStep(s, i, n);
    var batch, rest := s[i..Min(i + n, |s|)], Chunks(s[Min(i + n, |s|)..], n);
    assert (done + [batch]) + rest == done + ([batch] + rest);
  }

  /** The concatenation of f(x) over the elements x of xs, in order: the list a loop
      builds when it appends what each element yields (nothing, one entry, or more). */
  function FlatMap<A, B>(xs: seq<A>, f: A -> seq<B>): seq<B> {
    if xs == [] then [] else FlatMap(xs[..|xs| - 1], f) + f(xs[|xs| - 1])
  }

  lemma FlatMapSingle<A, B>(x: A, f: A -> seq<B>)
    ensures FlatMap([x], f) == f(x)
  {
    assert [x][..0] == [];
  }

  /** What a prefix yields comes first, then what the rest yields. */
  lemma {:induction false} FlatMapAppend<A, B>(xs: seq<A>, ys: seq<A>, f: A -> seq<B>)
    ensures FlatMap(xs + ys, f) == FlatMap(xs, f) + FlatMap(ys, f)
    decreases |ys|
  {
    if ys == [] {
      assert xs + ys == xs;
    } else {
      assert (xs + ys)[..|xs + ys| - 1] == xs + ys[..|ys| - 1];
      FlatMapAppend(xs, ys[..|ys| - 1], f);
    }
  }

  /** y is in the result exactly when some element yields it. */
  lemma {:induction false} FlatMapMember<A, B>(xs: seq<A>, f: A -> seq<B>, y: B)
    ensures y in FlatMap(xs, f) <==> exists j :: 0 <= j < |xs| && y in f(xs[j])
    decreases |xs|
  {
    if xs != [] {
      var init := xs[..|xs| - 1];
      FlatMapMember(init, f, y);
      if exists j :: 0 <= j < |xs| && y in f(xs[j]) {
        var j :| 0 <= j < |xs| && y in f(xs[j]);
        if j < |init| {
          assert init[j] == xs[j];
        }
      }
      if exists j :: 0 <= j < |init| && y in f(init[j]) {
        var j :| 0 <= j < |init| && y in f(init[j]);
        assert xs[j] == init[j];
      }
    }
  }

  /** When no element yields anything, the result is empty. */
  lemma {:induction false} FlatMapNone<A, B>(xs: seq<A>, f: A -> seq<B>)
    requires forall j :: 0 <= j < |xs| ==> f(xs[j]) == []
    ensures FlatMap(xs, f) == []
    decreases |xs|
  {
    if xs != [] {
      var init := xs[..|xs| - 1];
      assert forall j :: 0 <= j < |init| ==> init[j] == xs[j];
      FlatMapNone(init, f);
    }
  }

  /** When no element yields more than one entry, there are no more entries than elements. */
  lemma {:induction false} FlatMapAtMostOne<A, B>(xs: seq<A>, f: A -> seq<B>)
    requires forall j :: 0 <= j < |xs| ==> |f(xs[j])| <= 1
    ensures |FlatMap(xs, f)| <= |xs|
    decreases |xs|
  {
    if xs != [] {
      var init := xs[..|xs| - 1];
      assert forall j :: 0 <= j < |init| ==> init[j] == xs[j];
      FlatMapAtMostOne(init, f);
    }
  }

  /** When every element yields exactly one entry, entry j is element j's. */
  lemma {:induction false} FlatMapExactlyOne<A, B>(xs: seq<A>, f: A -> seq<B>)
    requires forall j :: 0 <= j < |xs| ==> |f(xs[j])| == 1
    ensures |FlatMap(xs, f)| == |xs|
    ensures forall j :: 0 <= j < |xs| ==> FlatMap(xs, f)[j] == f(xs[j])[0]
    decreases |xs|
  {
    if xs != [] {
      var init := xs[..|xs| - 1];
      assert forall j :: 0 <= j < |init| ==> init[j] == xs[j];
      FlatMapExactlyOne(init, f);
    }
  }
}
