/**
 * A directory tree as the rebuild of `bell/upgrade.py:203-227` sees it: paths below one storage root, where `rmdir`
 * needs an empty directory, `mkdir` needs its parent and a free name, and a copy needs its parent.
 */
module PathTree {
  import opened Sorting

  type Path = seq<string>

  /** `Link` stands for every symlink or special file. */
  datatype Node = Dir | File(content: string) | Link

  /** The root itself is the empty path. */
  type Tree = map<Path, Node>

  function Parent(p: Path): Path
    requires p != []
  {
    p[..|p| - 1]
  }

  predicate IsDir(t: Tree, p: Path) {
    p in t && t[p] == Dir
  }

  predicate WellFormed(t: Tree) {
    forall p {:trigger Parent(p)} :: p in t && p != [] ==> IsDir(t, Parent(p))
  }

  /** What `inventory` accepts: a directory with no link or special file anywhere. */
  predicate Readable(t: Tree) {
    IsDir(t, []) && forall p {:trigger t[p]} :: p in t ==> t[p] != Link
  }

  /** What `inventory` returns: the files, each with its checksum; the content stands for the checksum. */
  function Files(t: Tree): map<Path, string> {
    map p | p in t && t[p].File? :: t[p].content
  }

  /** `rglob("*")`: everything but the root. */
  function Items(t: Tree): set<Path> {
    t.Keys - {[]}
  }

  function Bare(): Tree {
    map[[] := Dir]
  }

  // ---------- What the operating system allows ----------

  predicate HasChild(t: Tree, p: Path) {
    exists q :: q in t && q != [] && Parent(q) == p
  }

  predicate MayUnlink(t: Tree, p: Path) {
    p in t && t[p] != Dir
  }

  predicate MayRmdir(t: Tree, p: Path) {
    p != [] && IsDir(t, p) && !HasChild(t, p)
  }

  predicate MayMkdir(t: Tree, p: Path) {
    p != [] && p !in t && IsDir(t, Parent(p))
  }

  predicate MayCopy(t: Tree, p: Path) {
    p != [] && IsDir(t, Parent(p)) && !IsDir(t, p)
  }

  // ---------- `sorted` on paths: by parts, and each part by characters ----------

  predicate LexLeq<T(==)>(a: seq<T>, b: seq<T>, leq: (T, T) -> bool) {
    if a == [] then true
    else if b == [] then false
    else if a[0] == b[0] then LexLeq(a[1..], b[1..], leq)
    else leq(a[0], b[0])
  }

  ghost predicate TotalOrder<T(!new)>(leq: (T, T) -> bool) {
    TotalPreorder(leq) && forall a, b :: leq(a, b) && leq(b, a) ==> a == b
  }

  predicate CharLeq(a: char, b: char) { a <= b }

  predicate NameLeq(a: string, b: string) { LexLeq(a, b, CharLeq) }

  predicate PathLeq(a: Path, b: Path) { LexLeq(a, b, NameLeq) }

  predicate DeeperFirst(a: Path, b: Path) { |a| >= |b| }

  lemma {:induction false} LexTotal<T(!new)>(a: seq<T>, b: seq<T>, leq: (T, T) -> bool)
    requires TotalOrder(leq)
    ensures LexLeq(a, b, leq) || LexLeq(b, a, leq)
    ensures LexLeq(a, b, leq) && LexLeq(b, a, leq) ==> a == b
  {
    if a != [] && b != [] && a[0] == b[0] {
      LexTotal(a[1..], b[1..], leq);
    }
  }

  lemma {:induction false} LexTransitive<T(!new)>(a: seq<T>, b: seq<T>, c: seq<T>, leq: (T, T) -> bool)
    requires TotalOrder(leq) && LexLeq(a, b, leq) && LexLeq(b, c, leq)
    ensures LexLeq(a, c, leq)
  {
    if a != [] && a[0] == b[0] && b[0] == c[0] {
      LexTransitive(a[1..], b[1..], c[1..], leq);
    }
  }

  lemma NamesInOrder()
    ensures TotalOrder(NameLeq)
  {
    assert TotalOrder(CharLeq);
    forall a: string, b: string
      ensures (NameLeq(a, b) || NameLeq(b, a)) && (NameLeq(a, b) && NameLeq(b, a) ==> a == b)
    {
      LexTotal(a, b, CharLeq);
    }
    forall a: string, b: string, c: string | NameLeq(a, b) && NameLeq(b, c) ensures NameLeq(a, c) {
      LexTransitive(a, b, c, CharLeq);
    }
  }

  lemma PathsInOrder()
    ensures TotalOrder(PathLeq)
  {
    NamesInOrder();
    forall a: Path, b: Path
      ensures (PathLeq(a, b) || PathLeq(b, a)) && (PathLeq(a, b) && PathLeq(b, a) ==> a == b)
    {
      LexTotal(a, b, NameLeq);
    }
    forall a: Path, b: Path, c: Path | PathLeq(a, b) && PathLeq(b, c) ensures PathLeq(a, c) {
      LexTransitive(a, b, c, NameLeq);
    }
  }

  lemma {:induction false} PrefixFirst(a: Path, b: Path)
    requires a <= b
    ensures PathLeq(a, b)
  {
    if a != [] {
      assert a[0] == b[0];
      PrefixFirst(a[1..], b[1..]);
    }
  }

  /** `sorted(root.rglob("*"))`: everything once, and every directory before what it holds. */
  ghost predicate ParentsFirst(items: seq<Path>, t: Tree) {
    && (forall p :: p in items <==> p in Items(t))
    && Distinct(items)
    && forall i :: 0 <= i < |items| ==> items[i] != [] && (Parent(items[i]) == [] || Parent(items[i]) in items[..i])
  }

  /** By depth, deepest first: everything once, and every directory after what it holds. */
  ghost predicate ChildrenFirst(items: seq<Path>, t: Tree) {
    && (forall p :: p in items <==> p in Items(t))
    && Distinct(items)
    && forall i, j :: 0 <= i < j < |items| ==> |items[i]| >= |items[j]|
  }

  method SortedItems(t: Tree) returns (items: seq<Path>)
    requires WellFormed(t)
    ensures ParentsFirst(items, t)
  {
    var listed := Listing(Items(t));
    items := StableSort(listed, PathLeq);
    PathsInOrder();
    SortSorts(listed, PathLeq);
    SortKeepsElements(listed, PathLeq);
    DistinctSort(listed, PathLeq);
    forall i | 0 <= i < |items| ensures items[i] != [] && (Parent(items[i]) == [] || Parent(items[i]) in items[..i]) {
      assert items[i] in items;
      if Parent(items[i]) != [] {
        assert Parent(items[i]) in items;
        ParentComesEarlier(items, i);
      }
    }
  }

  lemma ParentComesEarlier(items: seq<Path>, i: nat)
    requires i < |items| && items[i] != [] && Parent(items[i]) in items
    requires TotalOrder(PathLeq) && SortedBy(items, PathLeq)
    ensures Parent(items[i]) in items[..i]
  {
    var k :| 0 <= k < |items| && items[k] == Parent(items[i]);
    PrefixFirst(Parent(items[i]), items[i]);
    assert k < i;
    assert items[..i][k] == items[k];
  }

  method ItemsDeepestFirst(t: Tree) returns (items: seq<Path>)
    ensures ChildrenFirst(items, t)
  {
    var listed := Listing(Items(t));
    items := StableSort(listed, DeeperFirst);
    assert TotalPreorder(DeeperFirst);
    SortSorts(listed, DeeperFirst);
    SortKeepsElements(listed, DeeperFirst);
    DistinctSort(listed, DeeperFirst);
  }
}
