/** Lists of lists concatenated in order, and lists of outcomes that stop at
    the first failure: the two shapes of the collector's late-collect loops. */
module Sequences {
  import opened Values

  // ---------------------------------------------------------------------------
  // Flattening a list of lists, in order

  function Flatten<T>(xss: seq<seq<T>>): seq<T>
  {
    if xss == [] then [] else Flatten(xss[..|xss| - 1]) + xss[|xss| - 1]
  }

  /** The sum of the lengths of the lists. */
  function TotalLength<T>(xss: seq<seq<T>>): nat
  {
    if xss == [] then 0 else TotalLength(xss[..|xss| - 1]) + |xss[|xss| - 1]|
  }

  lemma {:induction false} FlattenLength<T>(xss: seq<seq<T>>)
    ensures |Flatten(xss)| == TotalLength(xss)
  {
    if xss != [] {
      FlattenLength(xss[..|xss| - 1]);
    }
  }

  lemma FlattenSnoc<T>(xss: seq<seq<T>>, xs: seq<T>)
    ensures Flatten(xss + [xs]) == Flatten(xss) + xs
  {
    assert (xss + [xs])[..|xss|] == xss;
  }

  /** Flattening distributes over concatenation. */
  lemma {:induction false} FlattenAppend<T>(xss: seq<seq<T>>, yss: seq<seq<T>>)
    ensures Flatten(xss + yss) == Flatten(xss) + Flatten(yss)
  {
    if yss == [] {
      assert xss + yss == xss;
    } else {
      var n := |yss| - 1;
      assert xss + yss == (xss + yss[..n]) + [yss[n]];
      FlattenSnoc(xss + yss[..n], yss[n]);
      FlattenAppend(xss, yss[..n]);
      FlattenSnoc(yss[..n], yss[n]);
      assert yss == yss[..n] + [yss[n]];
    }
  }

  /** Element `k` of list `i` sits in the flattened list right after all the
      elements of the lists before `i`. */
  lemma {:induction false} FlattenAt<T>(xss: seq<seq<T>>, i: nat, k: nat)
    requires i < |xss| && k < |xss[i]|
    ensures TotalLength(xss[..i]) + k < |Flatten(xss)|
    ensures Flatten(xss)[TotalLength(xss[..i]) + k] == xss[i][k]
  {
    var init := xss[..|xss| - 1];
    FlattenLength(init);
    FlattenLength(xss);
    if i == |xss| - 1 {
      assert xss[..i] == init;
    } else {
      assert init[..i] == xss[..i];
      FlattenAt(init, i, k);
    }
  }

  /** Every position of the flattened list comes from exactly the place
      `FlattenAt` names: some element `k` of some list `i`. */
  lemma {:induction false} FlattenIndex<T>(xss: seq<seq<T>>, n: nat)
    requires n < |Flatten(xss)|
    ensures exists i, k :: 0 <= i < |xss| && 0 <= k < |xss[i]| && n == TotalLength(xss[..i]) + k && Flatten(xss)[n] == xss[i][k]
  {
    var last := |xss| - 1;
    var init := xss[..last];
    FlattenLength(init);
    assert xss[..last] == init;
    if n < |Flatten(init)| {
      FlattenIndex(init, n);
      var i, k :| 0 <= i < |init| && 0 <= k < |init[i]| && n == TotalLength(init[..i]) + k && Flatten(init)[n] == init[i][k];
      assert init[..i] == xss[..i];
      assert Flatten(xss)[n] == xss[i][k];
    } else {
      var k := n - |Flatten(init)|;
      assert n == TotalLength(xss[..last]) + k && Flatten(xss)[n] == xss[last][k];
    }
  }

  /** The positions `FlattenAt` names keep the order of the lists. */
  lemma {:induction false} OffsetBefore<T>(xss: seq<seq<T>>, q: nat, m: nat, p: nat)
    requires q < p <= |xss| && m < |xss[q]|
    ensures TotalLength(xss[..q]) + m < TotalLength(xss[..p])
  {
    assert xss[..p][..p - 1] == xss[..p - 1];
    if q < p - 1 {
      OffsetBefore(xss, q, m, p - 1);
    }
  }

  /** Lists of pointwise equal lengths have the same total length. */
  lemma {:induction false} TotalLengthPointwise<T, U>(xss: seq<seq<T>>, yss: seq<seq<U>>)
    requires |xss| == |yss|
    requires forall i :: 0 <= i < |xss| ==> |xss[i]| == |yss[i]|
    ensures TotalLength(xss) == TotalLength(yss)
  {
    if xss != [] {
      TotalLengthPointwise(xss[..|xss| - 1], yss[..|yss| - 1]);
    }
  }

  // ---------------------------------------------------------------------------
  // Running steps that may throw: the first thrown error ends the run

  /** The values of a run of steps, or the error of the first step that threw. */
  function Gather<T>(xs: seq<Fallible<T>>): Fallible<seq<T>>
  {
    if xs == [] then Ok([])
    else match xs[0]
      case Thrown(e) => Thrown(e)
      case Ok(v) =>
        match Gather(xs[1..])
        case Thrown(e) => Thrown(e)
        case Ok(vs) => Ok([v] + vs)
  }

  lemma {:induction false} GatherAppend<T>(xs: seq<Fallible<T>>, ys: seq<Fallible<T>>)
    ensures Gather(xs + ys) ==
      if Gather(xs).Thrown? then Gather(xs)
      else if Gather(ys).Thrown? then Gather(ys)
      else Ok(Gather(xs).value + Gather(ys).value)
  {
    if xs == [] {
      assert xs + ys == ys;
      if Gather(ys).Ok? {
        assert Gather(xs).value + Gather(ys).value == Gather(ys).value;
      }
    } else {
      assert (xs + ys)[0] == xs[0];
      assert (xs + ys)[1..] == xs[1..] + ys;
      GatherAppend(xs[1..], ys);
      if Gather(xs).Ok? && Gather(ys).Ok? {
        var v, a, b := xs[0].value, Gather(xs[1..]).value, Gather(ys).value;
        assert Gather(xs) == Ok([v] + a);
        assert Gather(xs[1..] + ys) == Ok(a + b);
        assert Gather(xs + ys) == Ok([v] + (a + b));
        assert [v] + (a + b) == ([v] + a) + b;
      }
    }
  }

  /** A run succeeds exactly when every step does, and then its values are the
      steps' values, in order. */
  lemma {:induction false} GatherOk<T>(xs: seq<Fallible<T>>)
    ensures Gather(xs).Ok? <==> forall i :: 0 <= i < |xs| ==> xs[i].Ok?
    ensures Gather(xs).Ok? ==> |Gather(xs).value| == |xs| && forall i :: 0 <= i < |xs| ==> Gather(xs).value[i] == xs[i].value
  {
    if xs != [] {
      GatherOk(xs[1..]);
      assert forall i :: 1 <= i < |xs| ==> xs[i] == xs[1..][i - 1];
    }
  }

  /** A run that fails reports the error of a step that threw, and every step
      before that one succeeded. */
  lemma {:induction false} GatherThrown<T>(xs: seq<Fallible<T>>)
    requires Gather(xs).Thrown?
    ensures exists i :: 0 <= i < |xs| && xs[i] == Thrown(Gather(xs).error) && forall j :: 0 <= j < i ==> xs[j].Ok?
  {
    if xs[0].Ok? {
      GatherThrown(xs[1..]);
      var i :| 0 <= i < |xs[1..]| && xs[1..][i] == Thrown(Gather(xs[1..]).error) && forall j :: 0 <= j < i ==> xs[1..][j].Ok?;
      assert xs[i + 1] == Thrown(Gather(xs).error);
      assert forall j :: 0 <= j < i + 1 ==> xs[j].Ok? by {
        forall j | 0 <= j < i + 1 ensures xs[j].Ok? {
          if j > 0 { assert xs[j] == xs[1..][j - 1]; }
        }
      }
    } else {
      assert xs[0] == Thrown(Gather(xs).error);
    }
  }

  /** One more successful step, at position `j` of list `i`, extends a
      successful run by its value. */
  lemma GatherNext<T>(xss: seq<seq<Fallible<T>>>, i: nat, j: nat, done: seq<T>)
    requires i < |xss| && j < |xss[i]| && xss[i][j].Ok?
    requires Gather(Flatten(xss[..i]) + xss[i][..j]) == Ok(done)
    ensures Gather(Flatten(xss[..i]) + xss[i][..j + 1]) == Ok(done + [xss[i][j].value])
  {
    var before := Flatten(xss[..i]) + xss[i][..j];
    assert xss[i][..j + 1] == xss[i][..j] + [xss[i][j]];
    assert Flatten(xss[..i]) + xss[i][..j + 1] == before + [xss[i][j]];
    assert [xss[i][j]][1..] == [];
    assert Gather([xss[i][j]]) == Ok([xss[i][j].value] + []);
    assert [xss[i][j].value] + [] == [xss[i][j].value];
    GatherAppend(before, [xss[i][j]]);
    assert Gather(before + [xss[i][j]]) == Ok(done + [xss[i][j].value]);
  }

  /** A run that went through all of list `i` is the run over the lists up to
      and including `i`. */
  lemma NextList<T>(xss: seq<seq<T>>, i: nat)
    requires i < |xss|
    ensures Flatten(xss[..i]) + xss[i][..|xss[i]|] == Flatten(xss[..i + 1])
    ensures Flatten(xss[..i]) + xss[i][..0] == Flatten(xss[..i])
  {
    assert xss[i][..|xss[i]|] == xss[i];
    assert xss[..i + 1] == xss[..i] + [xss[i]];
    FlattenSnoc(xss[..i], xss[i]);
  }

  /** In a run made of lists of steps, a step that throws after everything
      before it succeeded ends the whole run with its error. */
  lemma FirstFailureWins<T>(xss: seq<seq<Fallible<T>>>, i: nat, j: nat, done: seq<T>)
    requires i < |xss| && j < |xss[i]| && xss[i][j].Thrown?
    requires Gather(Flatten(xss[..i]) + xss[i][..j]) == Ok(done)
    ensures Gather(Flatten(xss)) == Thrown(xss[i][j].error)
  {
    var before := Flatten(xss[..i]) + xss[i][..j];
    var after := [xss[i][j]] + xss[i][j + 1..] + Flatten(xss[i + 1..]);
    assert xss == xss[..i] + [xss[i]] + xss[i + 1..];
    FlattenAppend(xss[..i] + [xss[i]], xss[i + 1..]);
    FlattenSnoc(xss[..i], xss[i]);
    assert xss[i] == xss[i][..j] + [xss[i][j]] + xss[i][j + 1..];
    assert Flatten(xss) == before + after;
    GatherAppend(before, after);
    assert after[0] == xss[i][j];
  }
}
