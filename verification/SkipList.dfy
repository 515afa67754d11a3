/** The skip list of idea/skiplist.h: towers of next pointers, searched from the top level down. */
module SkipLists {
  import opened Prelude

  const MAX_HEIGHT := 12

  class Node {
    const key: int
    const height: nat
    var next_: seq<Node?>

    constructor (key: int, height: nat)
      ensures this.key == key && this.height == height && |next_| == height
    {
      this.key, this.height := key, height;
      next_ := seq(height, _ => null);
    }

    function Next(n: nat): Node?
      requires n < |next_|
      reads this`next_
    {
      next_[n]
    }

    method SetNext(n: nat, x: Node?)
      requires n < |next_|
      modifies this`next_
      ensures next_ == old(next_)[n := x]
    {
      next_ := next_[n := x];
    }
  }

  // ---------------------------------------------------------------- the list as a sequence of nodes

  /** The search walks over a node: as written, if its key is not above the sought one; as the comment
      on the search asks for, if it is below. */
  predicate Passes(documented: bool, key: int, n: Node) {
    if documented then n.key < key else n.key <= key
  }

  predicate Sorted(nodes: seq<Node>) {
    forall i, j :: 0 <= i < j < |nodes| ==> nodes[i].key <= nodes[j].key
  }

  /** The nodes whose towers reach level i, in order. */
  function Level(nodes: seq<Node>, i: nat): seq<Node> {
    if nodes == [] then []
    else if nodes[0].height > i then [nodes[0]] + Level(nodes[1..], i)
    else Level(nodes[1..], i)
  }

  /** How many nodes a linear search walks over. */
  function Cut(documented: bool, key: int, nodes: seq<Node>): (c: nat)
    ensures c <= |nodes|
  {
    if nodes == [] || !Passes(documented, key, nodes[0]) then 0 else 1 + Cut(documented, key, nodes[1..])
  }

  /** What a linear search finds. */
  function Scan(documented: bool, key: int, nodes: seq<Node>): Node? {
    var c := Cut(documented, key, nodes);
    if c < |nodes| then nodes[c] else null
  }

  /** Insertion after the nodes of smaller or equal key. */
  function Inserted(nodes: seq<Node>, x: Node): seq<Node> {
    if nodes == [] || !Passes(false, x.key, nodes[0]) then [x] + nodes
    else [nodes[0]] + Inserted(nodes[1..], x)
  }

  function KeysOf(nodes: seq<Node>): multiset<int> {
    if nodes == [] then multiset{} else multiset{nodes[0].key} + KeysOf(nodes[1..])
  }

  predicate IsSubsequence(s: seq<Node>, t: seq<Node>) {
    s == [] || (t != [] && (if s[0] == t[0] then IsSubsequence(s[1..], t[1..]) else IsSubsequence(s, t[1..])))
  }

  lemma TailSorted(nodes: seq<Node>)
    requires Sorted(nodes) && nodes != []
    ensures Sorted(nodes[1..]) && forall n :: n in nodes[1..] ==> nodes[0].key <= n.key
  {}

  lemma {:induction false} CutSplits(documented: bool, key: int, nodes: seq<Node>)
    requires Sorted(nodes)
    ensures forall j :: 0 <= j < |nodes| ==> (j < Cut(documented, key, nodes) <==> Passes(documented, key, nodes[j]))
  {
    if nodes != [] {
      TailSorted(nodes);
      CutSplits(documented, key, nodes[1..]);
      forall j | 0 <= j < |nodes|
        ensures j < Cut(documented, key, nodes) <==> Passes(documented, key, nodes[j])
      {
        if j > 0 { assert nodes[1..][j - 1] == nodes[j]; }
      }
    }
  }

  lemma {:induction false} LevelFacts(nodes: seq<Node>, i: nat)
    ensures forall n :: n in Level(nodes, i) ==> n in nodes && n.height > i
    ensures forall n :: n in nodes && n.height > i ==> n in Level(nodes, i)
    ensures Distinct(nodes) ==> Distinct(Level(nodes, i))
  {
    if nodes != [] {
      var rest := nodes[1..];
      LevelFacts(rest, i);
      assert forall n :: n in nodes <==> n == nodes[0] || n in rest;
      if Distinct(nodes) { assert nodes[0] !in rest && Distinct(rest); }
    }
  }

  lemma {:induction false} LevelSorted(nodes: seq<Node>, i: nat)
    requires Sorted(nodes)
    ensures Sorted(Level(nodes, i))
  {
    if nodes != [] {
      TailSorted(nodes);
      LevelSorted(nodes[1..], i);
      LevelFacts(nodes[1..], i);
      if nodes[0].height > i {
        forall m | m in Level(nodes[1..], i) ensures nodes[0].key <= m.key { assert m in nodes[1..]; }
        ConsSorted(nodes[0], Level(nodes[1..], i));
      }
    }
  }

  lemma ConsSorted(n: Node, rest: seq<Node>)
    requires Sorted(rest) && forall m :: m in rest ==> n.key <= m.key
    ensures Sorted([n] + rest)
  {}

  /** Each level is a subsequence of the one below. */
  lemma {:induction false} LevelsNest(nodes: seq<Node>, i: nat)
    ensures IsSubsequence(Level(nodes, i + 1), Level(nodes, i))
  {
    if nodes != [] {
      LevelsNest(nodes[1..], i);
      if nodes[0].height == i + 1 { Skip(Level(nodes[1..], i + 1), nodes[0], Level(nodes[1..], i)); }
    }
  }

  lemma {:induction false} Skip(s: seq<Node>, n: Node, t: seq<Node>)
    requires IsSubsequence(s, t)
    ensures IsSubsequence(s, [n] + t)
    decreases |t|, 1
  {
    assert ([n] + t)[1..] == t;
    if s != [] && s[0] == n {
      DropFirst(s, t);
    }
  }

  lemma {:induction false} DropFirst(s: seq<Node>, t: seq<Node>)
    requires s != [] && IsSubsequence(s, t)
    ensures IsSubsequence(s[1..], t)
    decreases |t|, 0
  {
    if s[0] == t[0] {
      assert t == [t[0]] + t[1..];
      Skip(s[1..], t[0], t[1..]);
    } else {
      DropFirst(s, t[1..]);
      assert t == [t[0]] + t[1..];
      Skip(s[1..], t[0], t[1..]);
    }
  }

  lemma {:induction false} AllReachLevelZero(nodes: seq<Node>)
    requires forall n :: n in nodes ==> n.height > 0
    ensures Level(nodes, 0) == nodes
  {
    if nodes != [] {
      assert nodes[0] in nodes;
      assert forall n :: n in nodes[1..] ==> n in nodes;
      AllReachLevelZero(nodes[1..]);
    }
  }

  /** The new node is inserted where the search stops. */
  lemma {:induction false} InsertedAt(nodes: seq<Node>, x: Node)
    ensures var c := Cut(false, x.key, nodes);
            Inserted(nodes, x) == nodes[..c] + [x] + nodes[c..]
  {
    if nodes != [] && Passes(false, x.key, nodes[0]) {
      var c := Cut(false, x.key, nodes[1..]);
      InsertedAt(nodes[1..], x);
      assert [nodes[0]] + nodes[1..][..c] == nodes[..c + 1] && nodes[1..][c..] == nodes[c + 1..];
    }
  }

  lemma {:induction false} InsertedKeys(nodes: seq<Node>, x: Node)
    ensures KeysOf(Inserted(nodes, x)) == KeysOf(nodes) + multiset{x.key}
  {
    if nodes == [] || !Passes(false, x.key, nodes[0]) {
      assert ([x] + nodes)[1..] == nodes;
    } else {
      InsertedKeys(nodes[1..], x);
      assert Inserted(nodes, x)[1..] == Inserted(nodes[1..], x);
    }
  }

  lemma InsertedSorted(nodes: seq<Node>, x: Node)
    requires Sorted(nodes)
    ensures Sorted(Inserted(nodes, x))
  {
    CutSplits(false, x.key, nodes);
    InsertedAt(nodes, x);
  }

  /** The levels of the longer list are the levels of the shorter one with the node inserted as high as
      its tower reaches. */
  lemma {:induction false} InsertedLevels(nodes: seq<Node>, x: Node, i: nat)
    requires Sorted(nodes)
    ensures Level(Inserted(nodes, x), i) == if x.height > i then Inserted(Level(nodes, i), x) else Level(nodes, i)
  {
    if nodes == [] || !Passes(false, x.key, nodes[0]) {
      assert ([x] + nodes)[1..] == nodes;
      LevelFacts(nodes, i);
      if Level(nodes, i) != [] {
        assert Level(nodes, i)[0] in Level(nodes, i);
        TailSorted(nodes);
        assert !Passes(false, x.key, Level(nodes, i)[0]);
      }
    } else {
      TailSorted(nodes);
      InsertedLevels(nodes[1..], x, i);
      assert Inserted(nodes, x)[1..] == Inserted(nodes[1..], x);
      if nodes[0].height > i { assert Level(nodes, i)[1..] == Level(nodes[1..], i); }
    }
  }

  // ---------------------------------------------------------------- the list as linked towers

  /** The j-th node of level i's list, head first and null last. */
  function At(head: Node, list: seq<Node>, j: nat): Node? {
    if j == 0 then head else if j <= |list| then list[j - 1] else null
  }

  ghost predicate Link(head: Node, list: seq<Node>, i: nat, j: nat)
    requires j <= |list|
    reads head`next_, list`next_
  {
    var n: Node := At(head, list, j);
    i < |n.next_| && n.next_[i] == At(head, list, j + 1)
  }

  /** Following the i-th pointers from head visits list. */
  ghost predicate Chained(head: Node, list: seq<Node>, i: nat)
    reads head`next_, list`next_
  {
    forall j: nat :: j <= |list| ==> Link(head, list, i, j)
  }

  /** Each level's list is linked, and made of the given nodes. */
  ghost predicate Towers(head: Node, all: set<Node>, levels: seq<seq<Node>>)
    reads head`next_, all`next_
  {
    forall i :: 0 <= i < |levels| ==> (forall n :: n in levels[i] ==> n in all) && Chained(head, levels[i], i)
  }

  /** x is linked in after prev, the q-th node of level i. */
  method Splice(head: Node, x: Node, prev: Node, i: nat,
                  ghost all: set<Node>, ghost levels: seq<seq<Node>>, ghost q: nat)
    requires Towers(head, all, levels) && i < |levels| && i < |x.next_|
    requires head !in all && x in all && Distinct(levels[i]) && x !in levels[i]
    requires q <= |levels[i]| && prev == At(head, levels[i], q)
    modifies x`next_, prev`next_
    ensures Towers(head, all, levels[i := levels[i][..q] + [x] + levels[i][q..]])
    ensures |x.next_| == |old(x.next_)| && |prev.next_| == |old(prev.next_)|
  {
    ghost var list, longer := levels[i], levels[i][..q] + [x] + levels[i][q..];
    assert Chained(head, list, i) && Link(head, list, i, q);
    x.SetNext(i, prev.Next(i));
    prev.SetNext(i, x);
    forall j: nat | j <= |longer| ensures Link(head, longer, i, j) {
      assert j <= |list| ==> old(Link(head, list, i, j));
      assert j > 0 ==> old(Link(head, list, i, j - 1));
    }
    forall k | 0 <= k < |levels| && k != i ensures Chained(head, levels[k], k) {
      assert old(Chained(head, levels[k], k));
      forall j: nat | j <= |levels[k]| ensures Link(head, levels[k], k, j) {
        assert old(Link(head, levels[k], k, j));
      }
    }
  }

  function Levels(nodes: seq<Node>): seq<seq<Node>> {
    seq(MAX_HEIGHT, i requires i >= 0 => Level(nodes, i))
  }

  /** The levels while x is being inserted from the lowest one up, with i levels done. */
  function Partly(nodes: seq<Node>, x: Node, i: nat): seq<seq<Node>> {
    seq(MAX_HEIGHT, k requires k >= 0 => if k < i then Inserted(Level(nodes, k), x) else Level(nodes, k))
  }

  lemma InsertedFacts(nodes: seq<Node>, x: Node)
    requires Distinct(nodes) && x !in nodes
    ensures Distinct(Inserted(nodes, x))
    ensures forall n :: n in Inserted(nodes, x) ==> n in nodes || n == x
    ensures forall n :: n in nodes ==> n in Inserted(nodes, x)
    ensures x in Inserted(nodes, x)
  {
    InsertedAt(nodes, x);
  }

  lemma AllDone(nodes: seq<Node>, x: Node)
    requires Sorted(nodes)
    ensures Partly(nodes, x, x.height) == Levels(Inserted(nodes, x))
  {
    forall i | 0 <= i < MAX_HEIGHT ensures Partly(nodes, x, x.height)[i] == Levels(Inserted(nodes, x))[i] {
      InsertedLevels(nodes, x, i);
    }
  }

  class SkipList {
    const head_: Node
    var max_height_: nat
    // The nodes in order.
    ghost var nodes: seq<Node>

    ghost function All(): set<Node>
      reads this`nodes
    {
      set n | n in nodes
    }

    /** The towers link the given nodes: sorted by key, and on level i those whose towers reach it. */
    ghost predicate Represents(list: seq<Node>)
      reads this`max_height_, head_`next_, list`next_
    {
      && 1 <= max_height_ <= MAX_HEIGHT && head_ !in list
      && Distinct(list) && Sorted(list)
      && (forall n :: n in list ==> 1 <= n.height <= max_height_)
      && Towers(head_, (set n | n in list), Levels(list))
    }

    ghost predicate Valid()
      reads this, head_`next_, nodes`next_
    {
      Represents(nodes)
    }

    constructor ()
      ensures Valid() && nodes == [] && fresh(head_)
    {
      head_ := new Node(0, MAX_HEIGHT);
      max_height_ := 1;
      nodes := [];
      new;
      for i := 0 to MAX_HEIGHT
        invariant |head_.next_| == MAX_HEIGHT && fresh(head_)
        invariant forall k :: 0 <= k < i ==> head_.next_[k] == null
        invariant 1 == max_height_ && nodes == []
      {
        head_.SetNext(i, null);
      }
      forall i | 0 <= i < MAX_HEIGHT ensures Chained(head_, Levels(nodes)[i], i) {}
    }

    /** Where the search of a level stops. */
    ghost function Stop(documented: bool, key: int, i: nat): Node
      reads this`nodes
    {
      At(head_, Level(nodes, i), Cut(documented, key, Level(nodes, i)))
    }

    lemma LevelIs(i: nat)
      requires Valid() && i < MAX_HEIGHT
      ensures Chained(head_, Level(nodes, i), i) && Sorted(Level(nodes, i)) && Distinct(Level(nodes, i))
      ensures forall n :: n in Level(nodes, i) ==> n in nodes && n.height > i
      ensures forall n :: n in nodes && n.height > i ==> n in Level(nodes, i)
      ensures i >= max_height_ ==> Level(nodes, i) == []
    {
      assert Levels(nodes)[i] == Level(nodes, i);
      LevelFacts(nodes, i);
      LevelSorted(nodes, i);
      if Level(nodes, i) != [] { assert Level(nodes, i)[0] in Level(nodes, i); }
    }

    lemma WholeLevel()
      requires Valid()
      ensures Level(nodes, 0) == nodes
    {
      AllReachLevelZero(nodes);
    }

    /** The search has come to x, the j-th node of level i, the head being the 0-th. */
    ghost predicate Here(documented: bool, key: int, x: Node, i: nat, j: nat)
      reads this`nodes, this`max_height_
    {
      i < max_height_ && j <= Cut(documented, key, Level(nodes, i)) && x == At(head_, Level(nodes, i), j)
    }

    ghost function Left(documented: bool, key: int, i: nat, j: nat): nat
      reads this`nodes
    {
      var c := Cut(documented, key, Level(nodes, i));
      if j <= c then c - j else 0
    }

    lemma Start(documented: bool, key: int, prev: array?<Node?>)
      requires Valid() && (prev != null ==> prev.Length == MAX_HEIGHT)
      ensures 1 <= max_height_ <= MAX_HEIGHT && Here(documented, key, head_, max_height_ - 1, 0)
      ensures Filled(documented, key, prev, max_height_)
    {}

    /** One look ahead: the search goes on on its level, or stops there, on the lowest level with the
        result of a linear search. */
    lemma Ahead(documented: bool, key: int, x: Node, i: nat, j: nat)
      requires Valid() && Here(documented, key, x, i, j)
      ensures i < |x.next_|
      ensures if x.Next(i) != null && Passes(documented, key, x.Next(i)) then
                Here(documented, key, x.Next(i), i, j + 1)
                && Left(documented, key, i, j + 1) < Left(documented, key, i, j)
              else
                x == Stop(documented, key, i) && (i == 0 ==> x.Next(i) == Scan(documented, key, nodes))
    {
      WholeLevel();
      LevelIs(i);
      CutSplits(documented, key, Level(nodes, i));
      assert Link(head_, Level(nodes, i), i, j);
    }

    /** The search goes on one level lower from the same node. */
    lemma Below(documented: bool, key: int, x: Node, i: nat, j: nat) returns (p: nat)
      requires Valid() && i > 0 && Here(documented, key, x, i, j)
      ensures Here(documented, key, x, i - 1, p)
    {
      LevelIs(i);
      LevelIs(i - 1);
      var list, lower := Level(nodes, i), Level(nodes, i - 1);
      CutSplits(documented, key, list);
      CutSplits(documented, key, lower);
      if j == 0 {
        p := 0;
      } else {
        assert list[j - 1] in list;
        assert list[j - 1] in nodes;
        var q :| 0 <= q < |lower| && lower[q] == list[j - 1];
        p := q + 1;
      }
    }

    /** prev holds where the search stopped on the levels from the given one up. */
    ghost predicate Filled(documented: bool, key: int, prev: array?<Node?>, from: nat)
      reads this`nodes, this`max_height_, prev
    {
      prev != null ==>
        && prev.Length == MAX_HEIGHT
        && forall i :: from <= i < max_height_ && i < MAX_HEIGHT ==> prev[i] == Stop(documented, key, i)
    }

    method Record(documented: bool, key: int, prev: array?<Node?>, level: nat, x: Node)
      requires Valid() && Filled(documented, key, prev, level + 1) && level < MAX_HEIGHT
      requires x == Stop(documented, key, level)
      modifies prev
      ensures Valid() && Filled(documented, key, prev, level)
    {
      if prev != null { prev[level] := x; }
    }

    /** The multi-level search finds what a linear search of the lowest level finds, and fills prev with
        the node before it on every level. */
    method FindGreaterOrEqual(documented: bool, key: int, prev: array?<Node?>) returns (r: Node?)
      requires Valid() && (prev != null ==> prev.Length == MAX_HEIGHT)
      modifies prev
      ensures r == Scan(documented, key, nodes)
      ensures Filled(documented, key, prev, 0)
    {
      hide *;
      Start(documented, key, prev);
      var x: Node, level: nat := head_, max_height_ - 1;
      ghost var j: nat := 0;
      while true
        invariant level < MAX_HEIGHT && Valid() && Here(documented, key, x, level, j)
        invariant Filled(documented, key, prev, level + 1)
        decreases level, Left(documented, key, level, j)
      {
        Ahead(documented, key, x, level, j);
        var next := x.Next(level);
        if next != null && Passes(documented, key, next) {
          x := next;
          j := j + 1;
        } else {
          Record(documented, key, prev, level, x);
          if level == 0 {
            return next;
          } else {
            j := Below(documented, key, x, level, j);
            level := level - 1;
          }
        }
      }
    }

    lemma StopIsANode(documented: bool, key: int, i: nat)
      requires Valid() && i < MAX_HEIGHT
      ensures Stop(documented, key, i) == head_ || Stop(documented, key, i) in nodes
      ensures i >= max_height_ ==> Stop(documented, key, i) == head_
    {
      LevelIs(i);
      var c := Cut(documented, key, Level(nodes, i));
      if c > 0 { assert Level(nodes, i)[c - 1] in Level(nodes, i); }
    }

    /** The list gets as high as the new tower; on the new levels the head is the node before it. */
    method Raise(key: int, height: nat, prev: array<Node?>)
      requires Valid() && Filled(false, key, prev, 0) && height <= MAX_HEIGHT
      modifies prev, this`max_height_
      ensures Valid() && Filled(false, key, prev, 0)
      ensures max_height_ == if height > old(max_height_) then height else old(max_height_)
    {
      if height > max_height_ {
        for i := max_height_ to height
          invariant Valid() && max_height_ == old(max_height_)
          invariant forall k :: 0 <= k < i ==> prev[k] == Stop(false, key, k)
        {
          StopIsANode(false, key, i);
          prev[i] := head_;
        }
        max_height_ := height;
      }
    }

    /** Everything that holds while x is being linked in, with i levels done. */
    ghost predicate Linking(x: Node, prev: array<Node?>, i: nat)
      reads this, prev, head_`next_, All()`next_, x`next_
    {
      && prev.Length == MAX_HEIGHT && |x.next_| == x.height <= max_height_ <= MAX_HEIGHT && i <= x.height
      && x !in nodes && x != head_ && head_ !in nodes && Distinct(nodes) && Sorted(nodes)
      && (forall n :: n in nodes ==> 1 <= n.height <= max_height_) && x.height >= 1
      && (forall k :: 0 <= k < x.height ==> prev[k] == Stop(false, x.key, k) && prev[k] in All() + {head_})
      && Towers(head_, All() + {x}, Partly(nodes, x, i))
    }

    lemma BeforeLinking(x: Node, prev: array<Node?>)
      requires Valid() && Filled(false, x.key, prev, 0) && 1 <= x.height <= max_height_
      requires |x.next_| == x.height && x !in nodes && x != head_
      ensures Linking(x, prev, 0)
    {
      forall k | 0 <= k < x.height ensures prev[k] == Stop(false, x.key, k) && prev[k] in All() + {head_} {
        StopIsANode(false, x.key, k);
      }
      assert Partly(nodes, x, 0) == Levels(nodes);
    }

    /** One round of the linking loop turns level i into the level with x inserted. */
    lemma OneLevel(x: Node, i: nat) returns (q: nat)
      requires Distinct(nodes) && Sorted(nodes) && x !in nodes && i < MAX_HEIGHT
      ensures var list := Level(nodes, i);
              && Partly(nodes, x, i)[i] == list && Distinct(list) && x !in list
              && q == Cut(false, x.key, list) <= |list|
              && Partly(nodes, x, i + 1) == Partly(nodes, x, i)[i := list[..q] + [x] + list[q..]]
    {
      LevelFacts(nodes, i);
      var list := Level(nodes, i);
      q := Cut(false, x.key, list);
      InsertedAt(list, x);
    }

    method LinkLevel(x: Node, prev: array<Node?>, i: nat)
      requires Linking(x, prev, i) && i < x.height
      modifies head_`next_, All()`next_, x`next_
      ensures Linking(x, prev, i + 1)
    {
      ghost var q := OneLevel(x, i);
      assert prev[i] == Stop(false, x.key, i);
      hide Distinct, Sorted, Partly, Level, Inserted, Cut;
      Splice(head_, x, prev[i], i, All() + {x}, Partly(nodes, x, i), q);
    }

    method LinkAll(x: Node, prev: array<Node?>)
      requires Linking(x, prev, 0)
      modifies head_`next_, All()`next_, x`next_
      ensures Linking(x, prev, x.height)
    {
      for i := 0 to x.height
        invariant Linking(x, prev, i)
      {
        LinkLevel(x, prev, i);
      }
    }

    lemma AfterLinking(x: Node, prev: array<Node?>)
      requires Linking(x, prev, x.height)
      ensures Represents(Inserted(nodes, x))
    {
      InsertedFacts(nodes, x);
      InsertedSorted(nodes, x);
      AllDone(nodes, x);
      hide Inserted, Levels, Partly, Distinct, Sorted;
      assert (set n | n in Inserted(nodes, x)) == All() + {x};
    }

    /** Insertion of a node with a tower of the given height, whose choice is random in the source. */
    method Insert(key: int, height: nat) returns (ghost x: Node)
      requires Valid() && 1 <= height <= MAX_HEIGHT
      modifies this, head_`next_, All()`next_
      ensures Valid() && fresh(x) && x.key == key && x.height == height
      ensures nodes == Inserted(old(nodes), x)
    {
      var prev := new Node?[MAX_HEIGHT](_ => null);
      hide Represents, Filled, Linking, Inserted, Scan;
      var _ := FindGreaterOrEqual(false, key, prev);
      Raise(key, height, prev);
      var node := new Node(key, height);
      x := node;
      BeforeLinking(node, prev);
      LinkAll(node, prev);
      AfterLinking(node, prev);
      nodes := Inserted(nodes, node);
    }

    /** As written, the search has walked over the key it should find. */
    method Contains(key: int) returns (r: bool)
      requires Valid()
      ensures !r
      ensures (r <==> key in KeysOf(nodes)) <==> key !in KeysOf(nodes)
    {
      var x := FindGreaterOrEqual(false, key, null);
      CutSplits(false, key, nodes);
      r := x != null && key == x.key;
    }

    /** With the comparison of the comment on the search, it is membership. */
    method ContainsDocumented(key: int) returns (r: bool)
      requires Valid()
      ensures r <==> key in KeysOf(nodes)
    {
      var x := FindGreaterOrEqual(true, key, null);
      Membership(nodes, key);
      r := x != null && key == x.key;
    }

    /** Following the i-th pointers from the head visits the nodes whose towers reach level i, sorted,
        and each level is a subsequence of the one below. */
    lemma LevelsAreSortedSubsequences(i: nat)
      requires Valid() && i < MAX_HEIGHT
      ensures Chained(head_, Level(nodes, i), i) && Sorted(Level(nodes, i))
      ensures i == 0 ==> Level(nodes, i) == nodes
      ensures i > 0 ==> IsSubsequence(Level(nodes, i), Level(nodes, i - 1))
    {
      LevelIs(i);
      WholeLevel();
      if i > 0 { LevelsNest(nodes, i - 1); }
    }
  }

  lemma {:induction false} KeysOfFacts(nodes: seq<Node>, key: int)
    ensures key in KeysOf(nodes) <==> exists n :: n in nodes && n.key == key
  {
    if nodes != [] {
      KeysOfFacts(nodes[1..], key);
      if nodes[0].key == key { assert nodes[0] in nodes; }
      assert forall n :: n in nodes[1..] ==> n in nodes;
      assert forall n :: n in nodes ==> n == nodes[0] || n in nodes[1..];
    }
  }

  /** In a sorted list, the first node not below the key has the key exactly when some node has it. */
  lemma Membership(nodes: seq<Node>, key: int)
    requires Sorted(nodes)
    ensures key in KeysOf(nodes) <==> Scan(true, key, nodes) != null && Scan(true, key, nodes).key == key
  {
    KeysOfFacts(nodes, key);
    CutSplits(true, key, nodes);
    var c := Cut(true, key, nodes);
    if key in KeysOf(nodes) {
      var n :| n in nodes && n.key == key;
      var j :| 0 <= j < |nodes| && nodes[j] == n;
      assert c <= j;
    }
  }

  /** Insertion adds exactly one key and keeps the list sorted. */
  lemma InsertAddsOneKey(nodes: seq<Node>, x: Node)
    requires Sorted(nodes)
    ensures KeysOf(Inserted(nodes, x)) == KeysOf(nodes) + multiset{x.key}
    ensures Sorted(Inserted(nodes, x)) && IsSubsequence(nodes, Inserted(nodes, x))
  {
    InsertedKeys(nodes, x);
    InsertedSorted(nodes, x);
    InsertedSubsequence(nodes, x);
  }

  lemma {:induction false} InsertedSubsequence(nodes: seq<Node>, x: Node)
    ensures IsSubsequence(nodes, Inserted(nodes, x))
  {
    if nodes == [] {
    } else if !Passes(false, x.key, nodes[0]) {
      SameSubsequence(nodes);
      Skip(nodes, x, nodes);
    } else {
      InsertedSubsequence(nodes[1..], x);
      assert Inserted(nodes, x)[1..] == Inserted(nodes[1..], x);
    }
  }

  lemma {:induction false} SameSubsequence(nodes: seq<Node>)
    ensures IsSubsequence(nodes, nodes)
  {
    if nodes != [] { SameSubsequence(nodes[1..]); }
  }
}
