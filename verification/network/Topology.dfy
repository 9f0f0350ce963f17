/** Network topologies: trees whose siblings are sorted by shape. Sorting makes them a canonical
    form, so comparing two trees child by child decides whether they are the same unordered tree. */
module Topologies {
  import opened Wrappers

  datatype Topology<T> = Topology(data: T, children: seq<Topology<T>>)

  datatype Ordering = Less | Equal | Greater {
    function Flip(): Ordering {
      match this
      case Less => Greater
      case Equal => Equal
      case Greater => Less
    }
  }

  /** The order on trees: lexicographic on children, data ignored. */
  function Compare<T, U>(a: Topology<T>, b: Topology<U>): Ordering
    decreases a, 1
  {
    CompareAll(a.children, b.children)
  }

  function CompareAll<T, U>(xs: seq<Topology<T>>, ys: seq<Topology<U>>): Ordering
    decreases xs, 0
  {
    if xs == [] && ys == [] then Equal
    else if xs == [] then Less
    else if ys == [] then Greater
    else
      match Compare(xs[0], ys[0])
      case Equal => CompareAll(xs[1..], ys[1..])
      case c => c
  }

  /** The tree without its data. */
  function Shape<T>(t: Topology<T>): Topology<()> {
    Topology((), Shapes(t.children))
  }

  function Shapes<T>(ts: seq<Topology<T>>): (r: seq<Topology<()>>)
    ensures |r| == |ts| && forall i :: 0 <= i < |ts| ==> r[i] == Shape(ts[i])
  {
    if ts == [] then [] else [Shape(ts[0])] + Shapes(ts[1..])
  }

  /** Trees compare as equal exactly when they have the same shape. */
  lemma {:induction false} EqualIsSameShape<T, U>(a: Topology<T>, b: Topology<U>)
    ensures Compare(a, b) == Equal <==> Shape(a) == Shape(b)
    decreases a, 1
  {
    EqualAll(a.children, b.children);
  }

  lemma {:induction false} EqualAll<T, U>(xs: seq<Topology<T>>, ys: seq<Topology<U>>)
    ensures CompareAll(xs, ys) == Equal <==> Shapes(xs) == Shapes(ys)
    decreases xs, 0
  {
    if xs != [] && ys != [] {
      EqualIsSameShape(xs[0], ys[0]);
      EqualAll(xs[1..], ys[1..]);
      assert Shapes(xs) == [Shape(xs[0])] + Shapes(xs[1..]) && Shapes(ys) == [Shape(ys[0])] + Shapes(ys[1..]);
      assert Shapes(xs)[0] == Shape(xs[0]) && Shapes(xs)[1..] == Shapes(xs[1..]);
      assert Shapes(ys)[0] == Shape(ys[0]) && Shapes(ys)[1..] == Shapes(ys[1..]);
    }
  }

  lemma {:induction false} CompareFlips<T, U>(a: Topology<T>, b: Topology<U>)
    ensures Compare(b, a) == Compare(a, b).Flip()
    decreases a, 1
  {
    CompareAllFlips(a.children, b.children);
  }

  lemma {:induction false} CompareAllFlips<T, U>(xs: seq<Topology<T>>, ys: seq<Topology<U>>)
    ensures CompareAll(ys, xs) == CompareAll(xs, ys).Flip()
    decreases xs, 0
  {
    if xs != [] && ys != [] {
      CompareFlips(xs[0], ys[0]);
      CompareAllFlips(xs[1..], ys[1..]);
    }
  }

  /** The first `k` trees compare as equal, and then one list ends or its tree sorts before. */
  ghost predicate BeforeAt<T, U>(xs: seq<Topology<T>>, ys: seq<Topology<U>>, k: nat) {
    && k <= |xs| && k < |ys| && (forall i :: 0 <= i < k ==> Compare(xs[i], ys[i]) == Equal)
    && (k == |xs| || Compare(xs[k], ys[k]) == Less)
  }

  /** The order is lexicographic on the lists of children: at the first difference the smaller child decides,
      and a list sorts before one that goes on. */
  lemma OrderIsLexicographic<T, U>(a: Topology<T>, b: Topology<U>)
    ensures Compare(a, b) == Less <==> exists k: nat :: BeforeAt(a.children, b.children, k)
  {
    hide CompareAll;
    LessAt(a.children, b.children);
  }

  lemma {:induction false} LessAt<T, U>(xs: seq<Topology<T>>, ys: seq<Topology<U>>)
    ensures CompareAll(xs, ys) == Less <==> exists k: nat :: BeforeAt(xs, ys, k)
    decreases |xs|
  {
    hide Compare;
    if xs == [] {
      assert ys != [] ==> BeforeAt(xs, ys, 0);
    } else if ys != [] {
      LessAt(xs[1..], ys[1..]);
      if Compare(xs[0], ys[0]) == Equal {
        forall k: nat | BeforeAt(xs[1..], ys[1..], k) ensures BeforeAt(xs, ys, k + 1) {
          assert forall i :: 0 < i < k + 1 ==> xs[i] == xs[1..][i - 1] && ys[i] == ys[1..][i - 1];
        }
        forall k: nat | BeforeAt(xs, ys, k) ensures k > 0 && BeforeAt(xs[1..], ys[1..], k - 1) {
          assert forall i :: 0 <= i < k - 1 ==> xs[1..][i] == xs[i + 1] && ys[1..][i] == ys[i + 1];
        }
      } else {
        if Compare(xs[0], ys[0]) == Less { assert BeforeAt(xs, ys, 0); }
        assert forall k: nat :: BeforeAt(xs, ys, k) ==> k == 0;
      }
    }
  }

  /** `a` sorts before `c`, or with it, when both steps from `a` to `b` to `c` go that way. */
  lemma {:induction false} CompareTransitive<T, U, V>(a: Topology<T>, b: Topology<U>, c: Topology<V>)
    requires Compare(a, b) != Greater && Compare(b, c) != Greater
    ensures Compare(a, c) != Greater
    ensures Compare(a, c) == Equal ==> Compare(a, b) == Equal && Compare(b, c) == Equal
    decreases a, 1
  {
    CompareAllTransitive(a.children, b.children, c.children);
  }

  lemma {:induction false} CompareAllTransitive<T, U, V>(xs: seq<Topology<T>>, ys: seq<Topology<U>>,
                                                         zs: seq<Topology<V>>)
    requires CompareAll(xs, ys) != Greater && CompareAll(ys, zs) != Greater
    ensures CompareAll(xs, zs) != Greater
    ensures CompareAll(xs, zs) == Equal ==> CompareAll(xs, ys) == Equal && CompareAll(ys, zs) == Equal
    decreases xs, 0
  {
    if xs != [] {
      CompareTransitive(xs[0], ys[0], zs[0]);
      EqualIsSameShape(xs[0], ys[0]);
      EqualIsSameShape(ys[0], zs[0]);
      EqualIsSameShape(xs[0], zs[0]);
      if Compare(xs[0], zs[0]) == Equal {
        CompareAllTransitive(xs[1..], ys[1..], zs[1..]);
      }
    }
  }

  predicate Leq<T, U>(a: Topology<T>, b: Topology<U>) {
    Compare(a, b) != Greater
  }

  predicate Sorted<T>(ts: seq<Topology<T>>) {
    forall i, j :: 0 <= i < j < |ts| ==> Leq(ts[i], ts[j])
  }

  /** Inserts `x` after all siblings that do not sort after it. */
  function InsertLast<T>(ts: seq<Topology<T>>, x: Topology<T>): (r: seq<Topology<T>>)
    ensures |r| == |ts| + 1 && multiset(r) == multiset(ts) + multiset{x}
  {
    if ts == [] || Leq(ts[|ts| - 1], x) then ts + [x]
    else
      var before := ts[..|ts| - 1];
      assert ts == before + [ts[|ts| - 1]];
      InsertLast(before, x) + [ts[|ts| - 1]]
  }

  /** Sorting siblings by insertion, which keeps those of one shape in order. */
  function Sort<T>(ts: seq<Topology<T>>): (r: seq<Topology<T>>)
    ensures |r| == |ts| && multiset(r) == multiset(ts)
  {
    if ts == [] then []
    else
      assert ts == ts[..|ts| - 1] + [ts[|ts| - 1]];
      InsertLast(Sort(ts[..|ts| - 1]), ts[|ts| - 1])
  }

  function New<T>(data: T): Topology<T> {
    Topology(data, [])
  }

  function WithChildren<T>(data: T, children: seq<Topology<T>>): Topology<T> {
    Topology(data, Sort(children))
  }

  function AddChild<T>(t: Topology<T>, child: Topology<T>): Topology<T> {
    Topology(t.data, Sort(t.children + [child]))
  }

  lemma {:induction false} InsertSorted<T>(ts: seq<Topology<T>>, x: Topology<T>)
    requires Sorted(ts)
    ensures Sorted(InsertLast(ts, x))
    decreases |ts|
  {
    hide Compare;
    if ts != [] {
      var n := |ts| - 1;
      if Leq(ts[n], x) {
        forall i | 0 <= i < n ensures Leq(ts[i], x) {
          LeqTransitive(ts[i], ts[n], x);
        }
      } else {
        LeqTotal(ts[n], x);
        InsertSorted(ts[..n], x);
        var r := InsertLast(ts[..n], x);
        forall i | 0 <= i < |r| ensures Leq(r[i], ts[n]) {
          assert r[i] in multiset(r) && multiset(r) == multiset(ts[..n]) + multiset{x};
          assert r[i] == x || r[i] in ts[..n];
        }
      }
    }
  }

  lemma LeqTransitive<T>(a: Topology<T>, b: Topology<T>, c: Topology<T>)
    requires Leq(a, b) && Leq(b, c)
    ensures Leq(a, c)
  {
    CompareTransitive(a, b, c);
  }

  lemma LeqTotal<T>(a: Topology<T>, b: Topology<T>)
    ensures Leq(a, b) || Leq(b, a)
  {
    CompareFlips(a, b);
  }

  lemma {:induction false} SortSorts<T>(ts: seq<Topology<T>>)
    ensures Sorted(Sort(ts))
    decreases |ts|
  {
    if ts != [] {
      SortSorts(ts[..|ts| - 1]);
      InsertSorted(Sort(ts[..|ts| - 1]), ts[|ts| - 1]);
    }
  }

  /** Sorting siblings that are sorted leaves them where they are. */
  lemma {:induction false} SortKeepsSorted<T>(ts: seq<Topology<T>>)
    requires Sorted(ts)
    ensures Sort(ts) == ts
    decreases |ts|
  {
    hide Compare, Leq;
    if ts != [] {
      var n := |ts| - 1;
      SortKeepsSorted(ts[..n]);
      assert ts == ts[..n] + [ts[n]];
      assert n > 0 ==> Leq(ts[..n][n - 1], ts[n]);
    }
  }

  /** Sorted at every level, as every tree built by New, WithChildren and AddChild is. */
  predicate Canonical<T>(t: Topology<T>) {
    Sorted(t.children) && forall i :: 0 <= i < |t.children| ==> Canonical(t.children[i])
  }

  /** The constructors keep trees canonical. */
  lemma WithChildrenIsCanonical<T>(data: T, children: seq<Topology<T>>)
    requires forall i :: 0 <= i < |children| ==> Canonical(children[i])
    ensures Canonical(WithChildren(data, children)) && Canonical(New(data))
  {
    hide Sort;
    SortSorts(children);
    var sorted := Sort(children);
    forall i | 0 <= i < |sorted| ensures Canonical(sorted[i]) {
      assert sorted[i] in multiset(sorted) && multiset(sorted) == multiset(children);
      assert sorted[i] in children;
    }
  }

  lemma AddChildIsCanonical<T>(t: Topology<T>, child: Topology<T>)
    requires Canonical(t) && Canonical(child)
    ensures Canonical(AddChild(t, child))
  {
    hide Sort;
    WithChildrenIsCanonical(t.data, t.children + [child]);
  }

  function Without<T>(ts: seq<T>, i: nat): (r: seq<T>)
    requires i < |ts|
    ensures |r| == |ts| - 1 && multiset(r) == multiset(ts) - multiset{ts[i]}
  {
    assert ts == ts[..i] + [ts[i]] + ts[i + 1..];
    ts[..i] + ts[i + 1..]
  }

  /** The same unordered tree: the children of one can be paired off with those of the other. */
  ghost predicate Isomorphic<T, U>(a: Topology<T>, b: Topology<U>)
    decreases a, 1
  {
    PairedOff(a.children, b.children)
  }

  ghost predicate PairedOff<T, U>(xs: seq<Topology<T>>, ys: seq<Topology<U>>)
    decreases xs, 0
  {
    if xs == [] then ys == []
    else exists j :: 0 <= j < |ys| && Isomorphic(xs[0], ys[j]) && PairedOff(xs[1..], Without(ys, j))
  }

  /** Two sorted lists of shapes with the same elements are the same list. */
  lemma {:induction false} SortedIsUnique(xs: seq<Topology<()>>, ys: seq<Topology<()>>)
    requires Sorted(xs) && Sorted(ys) && multiset(xs) == multiset(ys)
    ensures xs == ys
    decreases |xs|
  {
    hide Compare, Leq;
    SameLength(xs, ys);
    if xs != [] {
      SameHead(xs, ys);
      DropHead(xs);
      DropHead(ys);
      SortedIsUnique(xs[1..], ys[1..]);
      assert xs == [xs[0]] + xs[1..] && ys == [ys[0]] + ys[1..];
    }
  }

  lemma DropHead<T>(xs: seq<T>)
    requires xs != []
    ensures multiset(xs[1..]) == multiset(xs) - multiset{xs[0]}
  {
    assert xs == [xs[0]] + xs[1..];
  }

  lemma SameHead(xs: seq<Topology<()>>, ys: seq<Topology<()>>)
    requires xs != [] && ys != [] && Sorted(xs) && Sorted(ys) && multiset(xs) == multiset(ys)
    ensures xs[0] == ys[0]
  {
    hide Compare, Leq;
    assert xs[0] in multiset(ys) && ys[0] in multiset(xs);
    var i :| 0 <= i < |ys| && ys[i] == xs[0];
    var j :| 0 <= j < |xs| && xs[j] == ys[0];
    LeqRefl(xs[0]);
    LeqRefl(ys[0]);
    assert Leq(xs[0], ys[0]) && Leq(ys[0], xs[0]);
    LeqBothWays(xs[0], ys[0]);
  }

  lemma SameLength<T>(xs: seq<T>, ys: seq<T>)
    requires multiset(xs) == multiset(ys)
    ensures |xs| == |ys|
  {
    assert |multiset(xs)| == |xs| && |multiset(ys)| == |ys|;
  }

  lemma LeqRefl(a: Topology<()>)
    ensures Leq(a, a)
  {
    EqualIsSameShape(a, a);
  }

  lemma LeqBothWays(a: Topology<()>, b: Topology<()>)
    requires Leq(a, b) && Leq(b, a)
    ensures a == b
  {
    CompareFlips(a, b);
    EqualIsSameShape(a, b);
    ShapeOfShape(a);
    ShapeOfShape(b);
  }

  lemma {:induction false} ShapeOfShape(a: Topology<()>)
    ensures Shape(a) == a
    decreases a
  {
    forall i | 0 <= i < |a.children| ensures Shapes(a.children)[i] == a.children[i] {
      ShapeOfShape(a.children[i]);
    }
    assert Shapes(a.children) == a.children;
    assert a.data == ();
  }

  /** Only the shape counts when trees are compared. */
  lemma {:induction false} CompareShapes<T>(a: Topology<T>, b: Topology<T>)
    ensures Compare(Shape(a), Shape(b)) == Compare(a, b)
    decreases a, 1
  {
    CompareAllShapes(a.children, b.children);
  }

  lemma {:induction false} CompareAllShapes<T>(xs: seq<Topology<T>>, ys: seq<Topology<T>>)
    ensures CompareAll(Shapes(xs), Shapes(ys)) == CompareAll(xs, ys)
    decreases xs, 0
  {
    if xs != [] && ys != [] {
      CompareShapes(xs[0], ys[0]);
      CompareAllShapes(xs[1..], ys[1..]);
      assert Shapes(xs)[1..] == Shapes(xs[1..]) && Shapes(ys)[1..] == Shapes(ys[1..]);
    }
  }

  lemma SortedShapes<T>(ts: seq<Topology<T>>)
    ensures Sorted(Shapes(ts)) <==> Sorted(ts)
  {
    hide Compare, Shape;
    forall i, j | 0 <= i < j < |ts| ensures Leq(Shapes(ts)[i], Shapes(ts)[j]) == Leq(ts[i], ts[j]) {
      CompareShapes(ts[i], ts[j]);
    }
  }

  lemma WithoutFirst<T>(ts: seq<T>)
    requires ts != []
    ensures Without(ts, 0) == ts[1..]
  {
  }

  lemma TakeShape<T>(ts: seq<Topology<T>>, j: nat)
    requires j < |ts|
    ensures multiset(Shapes(ts)) == multiset(Shapes(Without(ts, j))) + multiset{Shape(ts[j])}
  {
    hide Shape;
    ShapesWithout(ts, j);
    PutBack(Shapes(ts), j);
  }

  lemma PutBack<T>(s: seq<T>, j: nat)
    requires j < |s|
    ensures multiset(s) == multiset(Without(s, j)) + multiset{s[j]}
  {
    hide Without;
    assert s[j] in multiset(s);
  }

  lemma ShapesWithout<T>(ts: seq<Topology<T>>, j: nat)
    requires j < |ts|
    ensures Shapes(Without(ts, j)) == Without(Shapes(ts), j)
  {
    hide Shape, Shapes;
    var l, r := Shapes(Without(ts, j)), Without(Shapes(ts), j);
    forall i | 0 <= i < |l| ensures l[i] == r[i] {
      assert Without(ts, j)[i] == ts[if i < j then i else i + 1];
    }
  }

  /** The canonical form of any tree: rebuilt from the leaves with WithChildren. */
  function Normalize<T>(t: Topology<T>): (r: Topology<T>)
    ensures Canonical(r)
  {
    var children := NormalizeAll(t.children);
    WithChildrenIsCanonical(t.data, children);
    WithChildren(t.data, children)
  }

  function NormalizeAll<T>(ts: seq<Topology<T>>): (r: seq<Topology<T>>)
    ensures |r| == |ts| && forall i :: 0 <= i < |r| ==> r[i] == Normalize(ts[i])
  {
    if ts == [] then [] else [Normalize(ts[0])] + NormalizeAll(ts[1..])
  }

  lemma NormalizeWithout<T>(ts: seq<Topology<T>>, j: nat)
    requires j < |ts|
    ensures NormalizeAll(Without(ts, j)) == Without(NormalizeAll(ts), j)
  {
    hide Normalize, NormalizeAll, Without;
    var l, r := NormalizeAll(Without(ts, j)), Without(NormalizeAll(ts), j);
    forall i | 0 <= i < |l| ensures l[i] == r[i] {
      WithoutAt(ts, j, i);
      WithoutAt(NormalizeAll(ts), j, i);
    }
  }

  lemma WithoutAt<T>(ts: seq<T>, j: nat, i: nat)
    requires j < |ts| && i < |ts| - 1
    ensures Without(ts, j)[i] == ts[if i < j then i else i + 1]
  {
  }

  /** The shapes of the canonical forms of siblings. */
  function Forms<T>(ts: seq<Topology<T>>): multiset<Topology<()>> {
    multiset(Shapes(NormalizeAll(ts)))
  }

  lemma TakeForm<T>(ts: seq<Topology<T>>, j: nat)
    requires j < |ts|
    ensures Forms(ts) == Forms(Without(ts, j)) + multiset{Shape(Normalize(ts[j]))}
  {
    hide Shape, Shapes, Normalize, NormalizeAll, Without;
    NormalizeWithout(ts, j);
    TakeShape(NormalizeAll(ts), j);
  }

  lemma FindForm<T>(ts: seq<Topology<T>>, form: Topology<()>)
    requires form in Forms(ts)
    ensures exists j :: 0 <= j < |ts| && Shape(Normalize(ts[j])) == form
  {
    hide Shape, Shapes, Normalize, NormalizeAll;
    var j :| 0 <= j < |Shapes(NormalizeAll(ts))| && Shapes(NormalizeAll(ts))[j] == form;
    assert Shape(Normalize(ts[j])) == form;
  }

  lemma NoForms<T>(ts: seq<Topology<T>>)
    ensures |Forms(ts)| == |ts|
  {
    hide Shapes, NormalizeAll;
  }

  /** Trees are the same unordered tree exactly when their canonical forms have the same shape. */
  lemma {:induction false} CanonicalFormDecides<T, U>(a: Topology<T>, b: Topology<U>)
    ensures Isomorphic(a, b) <==> Shape(Normalize(a)) == Shape(Normalize(b))
    decreases a, 1
  {
    hide PairedOff, Sort, Shapes, NormalizeAll;
    PairsDecide(a.children, b.children);
    var xs, ys := NormalizeAll(a.children), NormalizeAll(b.children);
    SortForms(xs);
    SortForms(ys);
    if Forms(a.children) == Forms(b.children) {
      SortedIsUnique(Shapes(Sort(xs)), Shapes(Sort(ys)));
    }
  }

  lemma SortForms<T>(xs: seq<Topology<T>>)
    ensures Sorted(Shapes(Sort(xs))) && multiset(Shapes(Sort(xs))) == multiset(Shapes(xs))
  {
    hide Sort, Shapes, Sorted;
    SortSorts(xs);
    SortedShapes(Sort(xs));
    ShapesPermute(Sort(xs), xs);
  }

  lemma {:induction false} ShapesPermute<T>(xs: seq<Topology<T>>, ys: seq<Topology<T>>)
    requires multiset(xs) == multiset(ys)
    ensures multiset(Shapes(xs)) == multiset(Shapes(ys))
    decreases |xs|
  {
    hide Shape, Without;
    SameLength(xs, ys);
    if xs != [] {
      assert xs[0] in multiset(ys);
      var j :| 0 <= j < |ys| && ys[j] == xs[0];
      ShapesPermute(Without(xs, 0), Without(ys, j));
      TakeShape(xs, 0);
      TakeShape(ys, j);
    }
  }

  lemma {:induction false} PairsDecide<T, U>(xs: seq<Topology<T>>, ys: seq<Topology<U>>)
    ensures PairedOff(xs, ys) <==> Forms(xs) == Forms(ys)
    decreases xs, 0
  {
    hide Forms, Isomorphic, Normalize, Without, Shape;
    NoForms(xs);
    NoForms(ys);
    if xs != [] {
      TakeForm(xs, 0);
      WithoutFirst(xs);
      if PairedOff(xs, ys) {
        var j :| 0 <= j < |ys| && Isomorphic(xs[0], ys[j]) && PairedOff(xs[1..], Without(ys, j));
        CanonicalFormDecides(xs[0], ys[j]);
        PairsDecide(xs[1..], Without(ys, j));
        TakeForm(ys, j);
      }
      if Forms(xs) == Forms(ys) {
        FindForm(ys, Shape(Normalize(xs[0])));
        var j :| 0 <= j < |ys| && Shape(Normalize(ys[j])) == Shape(Normalize(xs[0]));
        CanonicalFormDecides(xs[0], ys[j]);
        TakeForm(ys, j);
        Cancel(Forms(xs[1..]), Forms(Without(ys, j)), Shape(Normalize(xs[0])));
        PairsDecide(xs[1..], Without(ys, j));
      }
    } else {
      assert Forms(xs) == multiset{};
      assert ys == [] ==> Forms(ys) == multiset{};
    }
  }

  lemma Cancel<T>(a: multiset<T>, b: multiset<T>, x: T)
    requires a + multiset{x} == b + multiset{x}
    ensures a == b
  {
    assert a == (a + multiset{x}) - multiset{x} && b == (b + multiset{x}) - multiset{x};
  }

  lemma {:induction false} NormalizeKeepsCanonical<T>(t: Topology<T>)
    requires Canonical(t)
    ensures Normalize(t) == t
    decreases t
  {
    hide Sort;
    forall i | 0 <= i < |t.children| ensures NormalizeAll(t.children)[i] == t.children[i] {
      NormalizeKeepsCanonical(t.children[i]);
    }
    assert NormalizeAll(t.children) == t.children;
    SortKeepsSorted(t.children);
  }

  /** Trees built by the constructors compare as equal exactly when they are the same unordered tree. */
  lemma EqualIsIsomorphic<T, U>(a: Topology<T>, b: Topology<U>)
    requires Canonical(a) && Canonical(b)
    ensures Compare(a, b) == Equal <==> Isomorphic(a, b)
  {
    hide Compare, Isomorphic, Shape, Normalize, Canonical;
    EqualIsSameShape(a, b);
    NormalizeKeepsCanonical(a);
    NormalizeKeepsCanonical(b);
    CanonicalFormDecides(a, b);
  }

  /** The siblings of one shape, in order. */
  function OfShape<T>(ts: seq<Topology<T>>, shape: Topology<()>): seq<Topology<T>> {
    if ts == [] then []
    else
      var last := ts[|ts| - 1];
      OfShape(ts[..|ts| - 1], shape) + if Shape(last) == shape then [last] else []
  }

  lemma OfShapeLast<T>(ts: seq<Topology<T>>, x: Topology<T>, shape: Topology<()>)
    ensures OfShape(ts + [x], shape) == OfShape(ts, shape) + if Shape(x) == shape then [x] else []
  {
    assert (ts + [x])[..|ts|] == ts;
  }

  lemma {:induction false} InsertIsStable<T>(ts: seq<Topology<T>>, x: Topology<T>, shape: Topology<()>)
    ensures OfShape(InsertLast(ts, x), shape) == OfShape(ts + [x], shape)
    decreases |ts|
  {
    hide Shape, OfShape, Compare;
    if ts != [] && !Leq(ts[|ts| - 1], x) {
      var before, last := ts[..|ts| - 1], ts[|ts| - 1];
      assert ts == before + [last];
      InsertIsStable(before, x, shape);
      EqualIsSameShape(last, x);
      OfShapeLast(InsertLast(before, x), last, shape);
      OfShapeLast(before, x, shape);
      OfShapeLast(before, last, shape);
      OfShapeLast(ts, x, shape);
    }
  }

  /** Sorting siblings never swaps two of the same shape. */
  lemma {:induction false} SortIsStable<T>(ts: seq<Topology<T>>, shape: Topology<()>)
    ensures OfShape(Sort(ts), shape) == OfShape(ts, shape)
    decreases |ts|
  {
    hide Shape, OfShape, InsertLast;
    if ts != [] {
      var before, last := ts[..|ts| - 1], ts[|ts| - 1];
      assert ts == before + [last];
      SortIsStable(before, shape);
      InsertIsStable(Sort(before), last, shape);
      OfShapeLast(Sort(before), last, shape);
      OfShapeLast(before, last, shape);
    }
  }

  /** Applies `f` to the data at every node. */
  function MapData<T, U>(f: T -> U, t: Topology<T>): Topology<U>
    decreases t, 1
  {
    Topology(f(t.data), MapAll(f, t.children))
  }

  function MapAll<T, U>(f: T -> U, ts: seq<Topology<T>>): (r: seq<Topology<U>>)
    ensures |r| == |ts| && forall i :: 0 <= i < |ts| ==> r[i] == MapData(f, ts[i])
    decreases ts, 0
  {
    if ts == [] then [] else [MapData(f, ts[0])] + MapAll(f, ts[1..])
  }

  lemma {:induction false} MapKeepsShape<T, U>(f: T -> U, t: Topology<T>)
    ensures Shape(MapData(f, t)) == Shape(t)
    decreases t
  {
    forall i | 0 <= i < |t.children| ensures Shapes(MapAll(f, t.children))[i] == Shapes(t.children)[i] {
      MapKeepsShape(f, t.children[i]);
    }
    assert Shapes(MapAll(f, t.children)) == Shapes(t.children);
  }

  /** Being canonical only depends on the shape, so mapping data needs no new sorting. */
  lemma {:induction false} CanonicalShape<T>(t: Topology<T>)
    ensures Canonical(Shape(t)) <==> Canonical(t)
    decreases t
  {
    SortedShapes(t.children);
    forall i | 0 <= i < |t.children| ensures Canonical(Shapes(t.children)[i]) <==> Canonical(t.children[i]) {
      CanonicalShape(t.children[i]);
    }
  }

  lemma MapKeepsCanonical<T, U>(f: T -> U, t: Topology<T>)
    ensures Canonical(MapData(f, t)) <==> Canonical(t)
  {
    MapKeepsShape(f, t);
    CanonicalShape(MapData(f, t));
    CanonicalShape(t);
  }

  /** Pairs up the data of two trees; children that have no partner are dropped. */
  function Zip<T, U>(a: Topology<T>, b: Topology<U>): Topology<(T, U)>
    decreases a, 1
  {
    Topology((a.data, b.data), ZipAll(a.children, b.children))
  }

  function ZipAll<T, U>(xs: seq<Topology<T>>, ys: seq<Topology<U>>): (r: seq<Topology<(T, U)>>)
    ensures |r| == if |xs| <= |ys| then |xs| else |ys|
    ensures forall i :: 0 <= i < |r| ==> r[i] == Zip(xs[i], ys[i])
    decreases xs, 0
  {
    if xs == [] || ys == [] then [] else [Zip(xs[0], ys[0])] + ZipAll(xs[1..], ys[1..])
  }

  function First<T, U>(d: (T, U)): T {
    d.0
  }

  function Second<T, U>(d: (T, U)): U {
    d.1
  }

  /** Trees that compare as equal zip without loss: both can be read back off the result. */
  lemma {:induction false} ZipProjects<T, U>(a: Topology<T>, b: Topology<U>)
    requires Compare(a, b) == Equal
    ensures MapData(First, Zip(a, b)) == a
    ensures MapData(Second, Zip(a, b)) == b
    decreases a
  {
    hide Compare;
    EqualIsSameShape(a, b);
    assert |Shapes(a.children)| == |Shapes(b.children)|;
    forall i | 0 <= i < |a.children|
      ensures MapData(First, Zip(a.children[i], b.children[i])) == a.children[i]
      ensures MapData(Second, Zip(a.children[i], b.children[i])) == b.children[i]
    {
      assert Shapes(a.children)[i] == Shapes(b.children)[i];
      EqualIsSameShape(a.children[i], b.children[i]);
      ZipProjects(a.children[i], b.children[i]);
    }
    assert MapAll(First, ZipAll(a.children, b.children)) == a.children;
    assert MapAll(Second, ZipAll(a.children, b.children)) == b.children;
  }

  function Size<T>(t: Topology<T>): nat
    decreases t, 1
  {
    1 + Sizes(t.children)
  }

  function Sizes<T>(ts: seq<Topology<T>>): nat
    decreases ts, 0
  {
    if ts == [] then 0 else Sizes(ts[..|ts| - 1]) + Size(ts[|ts| - 1])
  }

  /** All the data in a list of trees. */
  function Elements<T>(ts: seq<Topology<T>>): (r: multiset<T>)
    decreases ts
  {
    if ts == [] then multiset{}
    else
      var last := ts[|ts| - 1];
      assert last in ts;
      Elements(ts[..|ts| - 1]) + multiset{last.data} + Elements(last.children)
  }

  lemma SizesLast<T>(ts: seq<Topology<T>>)
    requires ts != []
    ensures Sizes(ts) == Sizes(ts[..|ts| - 1]) + 1 + Sizes(ts[|ts| - 1].children)
  {
    assert Size(ts[|ts| - 1]) == 1 + Sizes(ts[|ts| - 1].children);
  }

  lemma ElementsLast<T>(ts: seq<Topology<T>>, t: Topology<T>)
    ensures Elements(ts + [t]) == Elements(ts) + multiset{t.data} + Elements(t.children)
  {
    assert (ts + [t])[..|ts|] == ts;
  }

  lemma NoElements<T>()
    ensures Elements<T>([]) == multiset{}
  {
  }

  lemma {:induction false} SizesSplit<T>(xs: seq<Topology<T>>, ys: seq<Topology<T>>)
    ensures Sizes(xs + ys) == Sizes(xs) + Sizes(ys)
    decreases |ys|
  {
    if ys == [] {
      assert xs + ys == xs;
    } else {
      SizesSplit(xs, ys[..|ys| - 1]);
      assert (xs + ys)[..|xs + ys| - 1] == xs + ys[..|ys| - 1];
    }
  }

  lemma {:induction false} ElementsSplit<T>(xs: seq<Topology<T>>, ys: seq<Topology<T>>)
    ensures Elements(xs + ys) == Elements(xs) + Elements(ys)
    decreases |ys|
  {
    hide Elements;
    NoElements<T>();
    if ys == [] {
      assert xs + ys == xs;
    } else {
      var before, last := ys[..|ys| - 1], ys[|ys| - 1];
      ElementsSplit(xs, before);
      assert ys == before + [last] && xs + ys == (xs + before) + [last];
      ElementsLast(before, last);
      ElementsLast(xs + before, last);
    }
  }

  /** The order in which a stack of trees is visited. */
  function Visits<T>(stack: seq<Topology<T>>): seq<T>
    decreases Sizes(stack)
  {
    if stack == [] then []
    else
      var n := |stack| - 1;
      SizesSplit(stack[..n], stack[n].children);
      SizesLast(stack);
      [stack[n].data] + Visits(stack[..n] + stack[n].children)
  }

  /** Every node is visited exactly once. */
  lemma {:induction false} VisitsAll<T>(stack: seq<Topology<T>>)
    ensures multiset(Visits(stack)) == Elements(stack) && |Visits(stack)| == Sizes(stack)
    decreases Sizes(stack)
  {
    if stack != [] {
      var n := |stack| - 1;
      SizesSplit(stack[..n], stack[n].children);
      SizesLast(stack);
      ElementsSplit(stack[..n], stack[n].children);
      VisitsAll(stack[..n] + stack[n].children);
    }
  }

  lemma NoVisits<T>()
    ensures Visits<T>([]) == []
  {
  }

  /** A node is visited before its descendants. */
  lemma VisitsLast<T>(stack: seq<Topology<T>>)
    requires stack != []
    ensures var last := stack[|stack| - 1];
      Visits(stack) == [last.data] + Visits(stack[..|stack| - 1] + last.children)
  {
  }

  /** What lies higher in the stack is visited first. */
  lemma {:induction false} VisitsAppend<T>(below: seq<Topology<T>>, above: seq<Topology<T>>)
    ensures Visits(below + above) == Visits(above) + Visits(below)
    decreases Sizes(above)
  {
    hide Sizes, Visits;
    NoVisits<T>();
    if above == [] {
      assert below + above == below;
    } else {
      VisitsLast(above);
      VisitsLast(below + above);
      var n := |above| - 1;
      var rest := above[..n] + above[n].children;
      SizesSplit(above[..n], above[n].children);
      SizesLast(above);
      VisitsAppend(below, rest);
      assert (below + above)[..|below| + n] + above[n].children == below + rest;
    }
  }

  /** Iterates over the data of a tree. */
  class TopologyIter<T> {
    var stack: seq<Topology<T>>

    constructor (t: Topology<T>)
      ensures stack == [t]
    {
      stack := [t];
    }

    method Next() returns (r: Option<T>)
      modifies this
      ensures old(Visits(stack)) == [] ==> r == None && stack == old(stack)
      ensures old(Visits(stack)) != [] ==> r == Some(old(Visits(stack))[0]) && Visits(stack) == old(Visits(stack))[1..]
    {
      if stack == [] { return None; }
      var topology := stack[|stack| - 1];
      ghost var before := stack;
      stack := stack[..|stack| - 1];
      ghost var rest := stack;
      for i := 0 to |topology.children|
        invariant stack == rest + topology.children[..i]
      {
        stack := stack + [topology.children[i]];
      }
      assert stack == before[..|before| - 1] + before[|before| - 1].children;
      r := Some(topology.data);
    }
  }
}
