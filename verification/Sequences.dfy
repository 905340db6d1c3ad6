/** Order-preserving selections of sequences, shared by every part of the model. */
module Sequences {

  /** `a` can be obtained from `b` by deleting elements, keeping the order of the rest. */
  ghost predicate Subseq<T>(a: seq<T>, b: seq<T>)
    decreases |b|
  {
    a == [] ||
    (b != [] &&
     ((a[|a| - 1] == b[|b| - 1] && Subseq(a[..|a| - 1], b[..|b| - 1])) ||
      Subseq(a, b[..|b| - 1])))
  }

  lemma {:induction false} SubseqRefl<T>(a: seq<T>)
    ensures Subseq(a, a)
    decreases |a|
  {
    if a != [] {
      SubseqRefl(a[..|a| - 1]);
    }
  }

  /** Adding the same element at both ends keeps the relation. */
  lemma SubseqSnoc<T>(a: seq<T>, b: seq<T>, x: T)
    requires Subseq(a, b)
    ensures Subseq(a + [x], b + [x])
    ensures Subseq(a, b + [x])
  {
    assert (a + [x])[..|a|] == a && (b + [x])[..|b|] == b;
  }

  lemma {:induction false} SubseqPrefix<T>(a: seq<T>, x: seq<T>, b: seq<T>)
    requires Subseq(a + x, b)
    ensures Subseq(a, b)
    decreases |b|
  {
    if a != [] && x != [] {
      var ax, c := a + x, b[..|b| - 1];
      if ax[|ax| - 1] == b[|b| - 1] && Subseq(ax[..|ax| - 1], c) {
        assert ax[..|ax| - 1] == a + x[..|x| - 1];
        SubseqPrefix(a, x[..|x| - 1], c);
      } else {
        SubseqPrefix(a, x, c);
      }
    } else {
      assert a == [] || a + x == a;
    }
  }

  /** Deleting a block from the middle keeps the relation. */
  lemma {:induction false} SubseqDrop<T>(a: seq<T>, x: seq<T>, z: seq<T>, b: seq<T>)
    requires Subseq(a + x + z, b)
    ensures Subseq(a + z, b)
    decreases |b|
  {
    if z == [] {
      assert a + x + z == a + x && a + z == a;
      SubseqPrefix(a, x, b);
    } else {
      var w, c := a + x + z, b[..|b| - 1];
      if w[|w| - 1] == b[|b| - 1] && Subseq(w[..|w| - 1], c) {
        assert w[..|w| - 1] == a + x + z[..|z| - 1];
        SubseqDrop(a, x, z[..|z| - 1], c);
        assert (a + z)[..|a + z| - 1] == a + z[..|z| - 1];
      } else {
        SubseqDrop(a, x, z, c);
      }
    }
  }

  lemma {:induction false} SubseqTrans<T>(a: seq<T>, b: seq<T>, c: seq<T>)
    requires Subseq(a, b) && Subseq(b, c)
    ensures Subseq(a, c)
    decreases |c|, |b|
  {
    if a != [] {
      var b', c' := b[..|b| - 1], c[..|c| - 1];
      if Subseq(b, c') {
        SubseqTrans(a, b, c');
      } else if a[|a| - 1] == b[|b| - 1] && Subseq(a[..|a| - 1], b') {
        SubseqTrans(a[..|a| - 1], b', c');
      } else {
        SubseqTrans(a, b', c');
      }
    }
  }

  lemma {:induction false} SubseqMember<T>(a: seq<T>, b: seq<T>, i: nat)
    requires Subseq(a, b) && i < |a|
    ensures a[i] in b
    decreases |b|
  {
    var c := b[..|b| - 1];
    if Subseq(a, c) {
      SubseqMember(a, c, i);
    } else if i < |a| - 1 {
      SubseqMember(a[..|a| - 1], c, i);
    }
  }

  /** An element that occurs in `b` only as its last element is also last in any subsequence holding it. */
  lemma {:induction false} SubseqLast<T>(a: seq<T>, b: seq<T>, i: nat)
    requires Subseq(a, b) && i < |a|
    requires a[i] !in b[..|b| - 1]
    ensures i == |a| - 1
  {
    if i < |a| - 1 {
      var c := b[..|b| - 1];
      if Subseq(a, c) {
        SubseqMember(a, c, i);
      } else {
        SubseqMember(a[..|a| - 1], c, i);
      }
    }
  }

  lemma {:induction false} SubseqAppend<T>(a: seq<T>, b: seq<T>, x: seq<T>)
    requires Subseq(a, b)
    ensures Subseq(a + x, b + x)
    decreases |x|
  {
    hide Subseq;
    if x == [] {
      assert a + x == a && b + x == b;
    } else {
      var x' := x[..|x| - 1];
      SubseqAppend(a, b, x');
      SubseqSnoc(a + x', b + x', x[|x| - 1]);
      assert (a + x') + [x[|x| - 1]] == a + x && (b + x') + [x[|x| - 1]] == b + x;
    }
  }

  ghost predicate Distinct<T>(s: seq<T>) {
    forall i, j :: 0 <= i < j < |s| ==> s[i] != s[j]
  }

  lemma {:induction false} SubseqPrepend<T>(x: seq<T>, a: seq<T>, b: seq<T>)
    requires Subseq(a, b)
    ensures Subseq(x + a, x + b)
    decreases |b|
  {
    if b == [] {
      SubseqRefl(x);
      assert x + a == x && x + b == x;
    } else {
      var c := b[..|b| - 1];
      assert (x + b)[..|x + b| - 1] == x + c;
      if Subseq(a, c) {
        SubseqPrepend(x, a, c);
      } else if a != [] {
        SubseqPrepend(x, a[..|a| - 1], c);
        assert (x + a)[..|x + a| - 1] == x + a[..|a| - 1];
      }
    }
  }

  lemma SubseqSuffix<T>(a: seq<T>, x: seq<T>, b: seq<T>)
    requires Subseq(a, b)
    ensures Subseq(a, x + b)
  {
    hide Subseq;
    SubseqPrepend(x, a, b);
    assert x + a == [] + x + a && [] + a == a;
    SubseqDrop([], x, a, x + b);
  }

  /** A block none of whose elements occurs in the selection may be cut out. */
  lemma {:induction false} SubseqAvoids<T>(d: seq<T>, x: seq<T>, b: seq<T>, z: seq<T>)
    requires Subseq(d, x + b + z) && forall e :: e in d ==> e !in b
    ensures Subseq(d, x + z)
    decreases |b| + |z|
  {
    var w := x + b + z;
    if z != [] {
      var y := z[..|z| - 1];
      assert w[..|w| - 1] == x + b + y && (x + z)[..|x + z| - 1] == x + y;
      if Subseq(d, w[..|w| - 1]) {
        SubseqAvoids(d, x, b, y);
      } else if d != [] {
        SubseqAvoids(d[..|d| - 1], x, b, y);
      }
    } else if b != [] {
      var c := b[..|b| - 1];
      assert w[..|w| - 1] == x + c + z;
      assert d != [] ==> d[|d| - 1] in d && w[|w| - 1] in b;
      SubseqAvoids(d, x, c, z);
    } else {
      assert w == x + z;
    }
  }

  /** What is selected after an element that occurs once comes after it. */
  lemma {:induction false} SubseqAfter<T>(c: T, d: seq<T>, x: seq<T>, w: seq<T>)
    requires Subseq([c] + d, x + [c] + w) && c !in x && c !in w
    ensures Subseq(d, w)
    decreases |w|
  {
    var a, b := [c] + d, x + [c] + w;
    if d != [] {
      assert a[..|a| - 1] == [c] + d[..|d| - 1];
      if w == [] {
        assert b[..|b| - 1] == x;
        NotSelected(a, x, 0);
        NotSelected([c] + d[..|d| - 1], x, 0);
      } else {
        var v := w[..|w| - 1];
        assert b[..|b| - 1] == x + [c] + v;
        if Subseq(a, b[..|b| - 1]) {
          SubseqAfter(c, d, x, v);
        } else {
          SubseqAfter(c, d[..|d| - 1], x, v);
        }
      }
    }
  }

  lemma NotSelected<T>(a: seq<T>, b: seq<T>, i: nat)
    requires i < |a| && a[i] !in b
    ensures !Subseq(a, b)
  {
    if Subseq(a, b) {
      SubseqMember(a, b, i);
    }
  }

  /** The elements of a set in some order, each once. */
  ghost function Listing<T(!new)>(members: set<T>): (s: seq<T>)
    ensures forall x :: x in s <==> x in members
    ensures Distinct(s)
  {
    if members == {} then []
    else
      var x :| x in members;
      [x] + Listing(members - {x})
  }
}
