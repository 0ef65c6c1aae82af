/** Concatenation of a sequence of groups, and where each group lands in the
    result.  The processor's output for a block is the concatenation of the
    groups its events produce; these lemmas locate each group in it. */
module Groups {

  /** The groups of `gs`, one after another, in order. */
  function Concat<T>(gs: seq<seq<T>>): seq<T> {
    if gs == [] then [] else Concat(gs[..|gs| - 1]) + gs[|gs| - 1]
  }

  /** Where group `i` starts in `Concat(gs)`. */
  function Start<T>(gs: seq<seq<T>>, i: nat): nat
    requires i <= |gs|
  {
    |Concat(gs[..i])|
  }

  lemma {:induction false} ConcatAppend<T>(a: seq<seq<T>>, b: seq<seq<T>>)
    ensures Concat(a + b) == Concat(a) + Concat(b)
    decreases |b|
  {
    if b == [] {
      assert a + b == a;
    } else {
      var b' := b[..|b| - 1];
      assert (a + b)[..|a + b| - 1] == a + b';
      assert (a + b)[|a + b| - 1] == b[|b| - 1];
      ConcatAppend(a, b');
    }
  }

  /** Group `i` occupies exactly `Start(i) .. Start(i + 1)`, which lies
      inside the concatenation. */
  lemma GroupSpan<T>(gs: seq<seq<T>>, i: nat)
    requires i < |gs|
    ensures Start(gs, i) + |gs[i]| == Start(gs, i + 1) <= |Concat(gs)|
    ensures Concat(gs)[Start(gs, i)..Start(gs, i + 1)] == gs[i]
  {
    assert gs[..i + 1][..i] == gs[..i];
    assert gs == gs[..i + 1] + gs[i + 1..];
    ConcatAppend(gs[..i + 1], gs[i + 1..]);
  }

  /** Position `Start(i) + k` of the concatenation holds element `k` of
      group `i`. */
  lemma ElementAt<T>(gs: seq<seq<T>>, i: nat, k: nat)
    requires i < |gs| && k < |gs[i]|
    ensures Start(gs, i) + k < |Concat(gs)|
    ensures Concat(gs)[Start(gs, i) + k] == gs[i][k]
  {
    GroupSpan(gs, i);
    var st := Start(gs, i);
    assert Concat(gs)[st..Start(gs, i + 1)][k] == Concat(gs)[st + k];
  }

  /** Group starts never decrease. */
  lemma {:induction false} StartMonotone<T>(gs: seq<seq<T>>, i: nat, j: nat)
    requires i <= j <= |gs|
    ensures Start(gs, i) <= Start(gs, j)
    decreases j - i
  {
    if i < j {
      GroupSpan(gs, i);
      StartMonotone(gs, i + 1, j);
    }
  }

  /** The whole concatenation starts at 0 and ends after the last group. */
  lemma StartBounds<T>(gs: seq<seq<T>>)
    ensures Start(gs, 0) == 0
    ensures Start(gs, |gs|) == |Concat(gs)|
  {
    assert gs[..0] == [];
    assert gs[..|gs|] == gs;
  }

  /** When every element of group `i` has key `keys[i]` and the keys never
      decrease, the concatenation is ordered by key too. */
  lemma {:induction false} ConcatOrdered<T>(gs: seq<seq<T>>, keys: seq<int>, key: T -> int)
    requires |keys| == |gs|
    requires forall i, k :: 0 <= i < |gs| && 0 <= k < |gs[i]| ==> key(gs[i][k]) == keys[i]
    requires forall i, j :: 0 <= i < j < |keys| ==> keys[i] <= keys[j]
    ensures forall x, y :: 0 <= x < y < |Concat(gs)| ==> key(Concat(gs)[x]) <= key(Concat(gs)[y])
    ensures gs != [] ==> forall x :: 0 <= x < |Concat(gs)| ==> key(Concat(gs)[x]) <= keys[|keys| - 1]
    decreases |gs|
  {
    if gs != [] {
      var init, last := gs[..|gs| - 1], gs[|gs| - 1];
      ConcatOrdered(init, keys[..|keys| - 1], key);
      var before, out := Concat(init), Concat(gs);
      var top := keys[|keys| - 1];
      assert forall x :: 0 <= x < |out| ==> key(out[x]) <= top by {
        forall x | 0 <= x < |out| ensures key(out[x]) <= top {
          if x < |before| {
            assert out[x] == before[x];
            if init != [] { assert keys[|init| - 1] <= top; }
          } else {
            assert out[x] == last[x - |before|];
          }
        }
      }
      forall x, y | 0 <= x < y < |out| ensures key(out[x]) <= key(out[y]) {
        if y < |before| {
          assert out[x] == before[x] && out[y] == before[y];
        } else {
          assert out[y] == last[y - |before|];
        }
      }
    }
  }

  /** Element `k` of group `i` comes before element `l` of a later group `j`
      in the concatenation, and both are where the group starts say. */
  lemma ElementsInOrder<T>(gs: seq<seq<T>>, i: nat, k: nat, j: nat, l: nat)
    requires i < j < |gs| && k < |gs[i]| && l < |gs[j]|
    ensures Start(gs, i) + k < Start(gs, j) + l < |Concat(gs)|
    ensures Concat(gs)[Start(gs, i) + k] == gs[i][k]
    ensures Concat(gs)[Start(gs, j) + l] == gs[j][l]
  {
    GroupSpan(gs, i);
    StartMonotone(gs, i + 1, j);
    ElementAt(gs, i, k);
    ElementAt(gs, j, l);
  }
}
