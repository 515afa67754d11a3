/** In-place quicksort and quickselect with Hoare's partition (algo/quicksort.c, algo/quickselect.c). */
module QuickSorts {

  // ---------------------------------------------------------------- rearrangements

  /** Outside l..h nothing changes, and inside the elements stay the same up to order. */
  ghost predicate Rearranged(s: seq<int>, t: seq<int>, l: nat, h: nat)
    requires l <= h <= |s|
  {
    |t| == |s| && t[..l] == s[..l] && t[h..] == s[h..] && multiset(t[l..h]) == multiset(s[l..h])
  }

  lemma Widen(s: seq<int>, t: seq<int>, l: nat, h: nat, l': nat, h': nat)
    requires l' <= l <= h <= h' <= |s| && Rearranged(s, t, l, h)
    ensures Rearranged(s, t, l', h')
  {
    assert s[l'..h'] == s[l'..l] + s[l..h] + s[h..h'];
    assert t[l'..h'] == t[l'..l] + t[l..h] + t[h..h'];
    assert t[..l'] == t[..l][..l'] && s[..l'] == s[..l][..l'];
    assert t[l'..l] == t[..l][l'..] && s[l'..l] == s[..l][l'..];
    assert t[h'..] == t[h..][h' - h..] && s[h'..] == s[h..][h' - h..];
    assert t[h..h'] == t[h..][..h' - h] && s[h..h'] == s[h..][..h' - h];
  }

  function Swapped(s: seq<int>, i: nat, j: nat): seq<int>
    requires i < |s| && j < |s|
  {
    s[i := s[j]][j := s[i]]
  }

  lemma SwapRearranges(s: seq<int>, i: nat, j: nat, l: nat, h: nat)
    requires l <= i < h <= |s| && l <= j < h
    ensures Rearranged(s, Swapped(s, i, j), l, h)
  {
    var t := Swapped(s, i, j);
    assert t[l..h] == s[l..h][i - l := s[j]][j - l := s[i]];
    assert s[l..h][i - l] == s[i] && s[l..h][j - l] == s[j];
  }

  /** A property of all elements of a range survives a rearrangement of the range. */
  lemma AllStay(s: seq<int>, t: seq<int>, l: nat, h: nat, low: int, high: int)
    requires l <= h <= |s| && Rearranged(s, t, l, h)
    ensures (forall k :: l <= k < h ==> s[k] <= high) ==> forall k :: l <= k < h ==> t[k] <= high
    ensures (forall k :: l <= k < h ==> low <= s[k]) ==> forall k :: l <= k < h ==> low <= t[k]
  {
    forall k | l <= k < h ensures exists m :: l <= m < h && s[m] == t[k] {
      assert t[l..h][k - l] in multiset(s[l..h]);
      var m :| 0 <= m < |s[l..h]| && s[l..h][m] == t[k];
      assert s[l + m] == t[k];
    }
  }

  // ---------------------------------------------------------------- the partition

  /** Everything before j is at most a[j], everything after at least. */
  ghost predicate Parted(s: seq<int>, l: nat, j: nat, h: nat)
    requires l <= j < h <= |s|
  {
    (forall k :: l <= k < j ==> s[k] <= s[j]) && forall k :: j < k < h ==> s[j] <= s[k]
  }

  method Swap(a: array<int>, i: nat, j: nat)
    requires i < a.Length && j < a.Length
    modifies a
    ensures a[..] == Swapped(old(a[..]), i, j)
  {
    var tmp := a[i];
    a[i] := a[j];
    a[j] := tmp;
  }

  /** The scan from the left, which j stops. */
  method ScanUp(a: array<int>, l: nat, i0: nat, j: nat) returns (i: nat)
    requires l <= i0 <= j <= a.Length && l < a.Length
    ensures i0 < i && (i <= j || i == i0 + 1)
    ensures forall k :: i0 < k < i && k < j ==> a[k] < a[l]
    ensures i < j ==> a[i] >= a[l]
  {
    i := i0 + 1;
    while i < j && a[i] < a[l]
      invariant i0 < i && (i <= j || i == i0 + 1)
      invariant forall k :: i0 < k < i && k < j ==> a[k] < a[l]
    {
      i := i + 1;
    }
  }

  /** The scan from the right, which the first element stops. */
  method ScanDown(a: array<int>, l: nat, j0: nat) returns (j: nat)
    requires l < j0 <= a.Length
    ensures l <= j < j0 && a[j] <= a[l]
    ensures forall k :: j < k < j0 ==> a[k] > a[l]
  {
    j := j0 - 1;
    while a[j] > a[l]
      invariant l <= j < j0
      invariant forall k :: j < k < j0 ==> a[k] > a[l]
      decreases j
    {
      j := j - 1;
    }
  }

  lemma Chain(s: seq<int>, t: seq<int>, r: seq<int>, l: nat, h: nat)
    requires l <= h <= |s| && Rearranged(s, t, l, h) && Rearranged(t, r, l, h)
    ensures Rearranged(s, r, l, h)
  {}

  /** The loop's progress: up to i nothing is above the pivot, and from j on nothing below. */
  ghost predicate Progress(s: seq<int>, l: nat, i: nat, j: nat, u: nat)
    requires l <= i <= j <= u + 1 <= |s| && l < |s|
  {
    (forall k :: l < k <= i && k <= u ==> s[k] <= s[l]) && forall k :: j <= k <= u ==> s[l] <= s[k]
  }

  /** Where both scans have stopped. */
  ghost predicate Scanned(s: seq<int>, l: nat, i: nat, j: nat, u: nat)
    requires l <= j <= u < |s|
  {
    && l < i && s[j] <= s[l] && (i <= j ==> s[l] <= s[i])
    && (forall k :: l < k < i && k <= j ==> s[k] <= s[l])
    && (forall k :: j < k <= u ==> s[l] <= s[k])
  }

  lemma ExchangeProgress(s: seq<int>, l: nat, i: nat, j: nat, u: nat)
    requires l <= j <= u < |s| && Scanned(s, l, i, j, u) && i <= j
    ensures Progress(Swapped(s, i, j), l, i, j, u)
  {}

  lemma LastExchange(s: seq<int>, l: nat, i: nat, j: nat, u: nat)
    requires l <= j <= u < |s| && Scanned(s, l, i, j, u) && i > j
    ensures Parted(Swapped(s, j, l), l, j, u + 1)
  {}

  method Scan(a: array<int>, l: nat, i0: nat, j0: nat, u: nat) returns (i: nat, j: nat)
    requires l <= i0 <= j0 <= u + 1 <= a.Length && l < j0 && Progress(a[..], l, i0, j0, u)
    ensures i0 < i && l <= j < j0 && Scanned(a[..], l, i, j, u)
  {
    i := ScanUp(a, l, i0, j0);
    j := ScanDown(a, l, j0);
  }

  /** The loop that both algorithms run. */
  method Partition(a: array<int>, l: nat, u: nat) returns (j: nat)
    requires l <= u < a.Length
    modifies a
    ensures l <= j <= u && Rearranged(old(a[..]), a[..], l, u + 1) && Parted(a[..], l, j, u + 1)
  {
    hide Rearranged, Progress, Scanned, Parted, Swapped;
    var i := l;
    j := u + 1;
    Start(a[..], l, u);
    while true
      invariant l <= i <= j <= u + 1 && l < j && Progress(a[..], l, i, j, u)
      invariant Rearranged(old(a[..]), a[..], l, u + 1)
      decreases j
    {
      i, j := Scan(a, l, i, j, u);
      if i > j {
        break;
      }
      ghost var s := a[..];
      ExchangeProgress(s, l, i, j, u);
      Exchange(a, i, j, l, u + 1);
      Chain(old(a[..]), s, a[..], l, u + 1);
    }
    ghost var s := a[..];
    LastExchange(s, l, i, j, u);
    Exchange(a, j, l, l, u + 1);
    Chain(old(a[..]), s, a[..], l, u + 1);
  }

  lemma Start(s: seq<int>, l: nat, u: nat)
    requires l <= u < |s|
    ensures Rearranged(s, s, l, u + 1) && Progress(s, l, l, u + 1, u)
  {}

  method Exchange(a: array<int>, i: nat, j: nat, l: nat, h: nat)
    requires l <= i < h <= a.Length && l <= j < h
    modifies a
    ensures a[..] == Swapped(old(a[..]), i, j) && Rearranged(old(a[..]), a[..], l, h)
  {
    SwapRearranges(a[..], i, j, l, h);
    Swap(a, i, j);
  }

  // ---------------------------------------------------------------- quicksort

  ghost predicate SortedIn(s: seq<int>, l: nat, h: nat)
    requires l <= h <= |s|
  {
    forall i, j :: l <= i < j < h ==> s[i] <= s[j]
  }

  /** What sorting the range l..u does; a range without two elements is left alone. */
  ghost predicate SortedFrom(s: seq<int>, t: seq<int>, l: int, u: int) {
    if 0 <= l <= u + 1 <= |s| then Rearranged(s, t, l, u + 1) && SortedIn(t, l, u + 1) else t == s
  }

  lemma SmallIsSorted(s: seq<int>, l: int, u: int)
    requires l >= u
    ensures SortedFrom(s, s, l, u)
  {}

  /** Sorting the left side leaves the pivot and what follows, and keeps the left side below it. */
  lemma LeftSorted(s: seq<int>, t: seq<int>, l: nat, j: nat, u: nat)
    requires l <= j <= u < |s| && Parted(s, l, j, u + 1) && SortedFrom(s, t, l, j - 1)
    ensures Rearranged(s, t, l, u + 1) && Parted(t, l, j, u + 1) && SortedIn(t, l, j)
  {
    Widen(s, t, l, j, l, u + 1);
    AllStay(s, t, l, j, s[j], s[j]);
    forall k | j <= k <= u ensures t[k] == s[k] { assert t[j..][k - j] == s[j..][k - j]; }
  }

  lemma RightSorted(s: seq<int>, t: seq<int>, l: nat, j: nat, u: nat)
    requires l <= j <= u < |s| && Parted(s, l, j, u + 1) && SortedIn(s, l, j) && SortedFrom(s, t, j + 1, u)
    ensures Rearranged(s, t, l, u + 1) && Parted(t, l, j, u + 1) && SortedIn(t, l, j) && SortedIn(t, j + 1, u + 1)
  {
    Widen(s, t, j + 1, u + 1, l, u + 1);
    AllStay(s, t, j + 1, u + 1, s[j], s[j]);
    forall k | l <= k <= j ensures t[k] == s[k] { assert t[..j + 1][k] == s[..j + 1][k]; }
  }

  /** Two sorted sides of a partition are a sorted whole. */
  lemma JoinSorted(t: seq<int>, l: nat, j: nat, u: nat)
    requires l <= j <= u < |t| && Parted(t, l, j, u + 1) && SortedIn(t, l, j) && SortedIn(t, j + 1, u + 1)
    ensures SortedIn(t, l, u + 1)
  {}

  /** Sorting both sides of a partition sorts the whole. */
  lemma BothSorted(s0: seq<int>, s: seq<int>, t: seq<int>, r: seq<int>, l: nat, j: nat, u: nat)
    requires l <= j <= u < |s0| && Rearranged(s0, s, l, u + 1) && Parted(s, l, j, u + 1)
    requires SortedFrom(s, t, l, j - 1)
    requires |t| == |s| ==> SortedFrom(t, r, j + 1, u)
    ensures SortedFrom(s0, r, l, u)
  {
    LeftSorted(s, t, l, j, u);
    RightSorted(t, r, l, j, u);
    JoinSorted(r, l, j, u);
    hide SortedIn, Parted, Rearranged;
    Chain(s0, s, t, l, u + 1);
    Chain(s0, t, r, l, u + 1);
  }

  method Qsort(a: array<int>, l: int, u: int)
    requires l < u ==> 0 <= l && u < a.Length
    modifies a
    ensures SortedFrom(old(a[..]), a[..], l, u)
    decreases u - l
  {
    if l >= u {
      SmallIsSorted(a[..], l, u);
      return;
    }
    hide *;
    var j: int := Partition(a, l, u);
    ghost var s := a[..];
    Qsort(a, l, j - 1);
    ghost var t := a[..];
    Qsort(a, j + 1, u);
    BothSorted(old(a[..]), s, t, a[..], l, j, u);
  }

  // ---------------------------------------------------------------- quickselect

  /** What selecting in the range l..u does: if k is in the range, it is found and in its sorted place. */
  ghost predicate SelectedFrom(s: seq<int>, t: seq<int>, l: int, u: int, k: int, slot: int) {
    && slot == (if l <= k <= u then k else -1)
    && (if 0 <= l <= u + 1 <= |s| then
          Rearranged(s, t, l, u + 1) && (l <= k <= u ==> Parted(t, l, k, u + 1))
        else t == s)
  }

  lemma JoinLeft(s: seq<int>, t: seq<int>, l: nat, j: nat, u: nat, k: int, slot: int)
    requires l <= j <= u < |s| && Parted(s, l, j, u + 1) && k < j && SelectedFrom(s, t, l, j - 1, k, slot)
    ensures SelectedFrom(s, t, l, u, k, slot)
  {
    Widen(s, t, l, j, l, u + 1);
    AllStay(s, t, l, j, s[j], s[j]);
    forall m | j <= m <= u ensures t[m] == s[m] { assert t[j..][m - j] == s[j..][m - j]; }
  }

  lemma JoinRight(s: seq<int>, t: seq<int>, l: nat, j: nat, u: nat, k: int, slot: int)
    requires l <= j <= u < |s| && Parted(s, l, j, u + 1) && k > j && SelectedFrom(s, t, j + 1, u, k, slot)
    ensures SelectedFrom(s, t, l, u, k, slot)
  {
    Widen(s, t, j + 1, u + 1, l, u + 1);
    AllStay(s, t, j + 1, u + 1, s[j], s[j]);
    forall m | l <= m <= j ensures t[m] == s[m] { assert t[..j + 1][m] == s[..j + 1][m]; }
  }

  lemma ChainSelected(s: seq<int>, t: seq<int>, r: seq<int>, l: nat, u: nat, k: int, slot: int)
    requires l <= u < |s| && Rearranged(s, t, l, u + 1) && SelectedFrom(t, r, l, u, k, slot)
    ensures SelectedFrom(s, r, l, u, k, slot)
  {
    Chain(s, t, r, l, u + 1);
  }

  method Select(a: array<int>, l: int, u: int, k: int) returns (slot: int)
    requires l <= u ==> 0 <= l && u < a.Length
    modifies a
    ensures SelectedFrom(old(a[..]), a[..], l, u, k, slot)
    decreases u - l
  {
    if l > u {
      return -1;
    }
    hide *;
    var j: int := Partition(a, l, u);
    ghost var s := a[..];
    if j == k {
      slot := j;
      FoundHere(s, l, u, k);
    } else if j > k {
      slot := Select(a, l, j - 1, k);
      JoinLeft(s, a[..], l, j, u, k, slot);
    } else {
      slot := Select(a, j + 1, u, k);
      JoinRight(s, a[..], l, j, u, k, slot);
    }
    ChainSelected(old(a[..]), s, a[..], l, u, k, slot);
  }

  lemma FoundHere(s: seq<int>, l: nat, u: nat, k: nat)
    requires l <= k <= u < |s| && Parted(s, l, k, u + 1)
    ensures SelectedFrom(s, s, l, u, k, k)
  {}

  /** The k-th smallest of the first len elements, from 0, or -1 if there is none. */
  method Qselect(a: array<int>, len: int, k: int) returns (slot: int)
    requires len <= a.Length
    modifies a
    ensures slot == if 0 <= k < len then k else -1
    ensures 0 < len && k < len ==> Rearranged(old(a[..]), a[..], 0, len)
    ensures 0 <= k < len ==> Parted(a[..], 0, k, len)
    ensures k >= len ==> a[..] == old(a[..])
  {
    if k + 1 > len {
      return -1;
    }
    slot := Select(a, 0, len - 1, k);
  }

  // ---------------------------------------------------------------- the k-th smallest

  function Below(s: seq<int>, x: int): (n: nat)
    ensures n <= |s|
  {
    if s == [] then 0 else (if s[0] < x then 1 else 0) + Below(s[1..], x)
  }

  lemma {:induction false} BelowAppend(s: seq<int>, t: seq<int>, x: int)
    ensures Below(s + t, x) == Below(s, x) + Below(t, x)
  {
    if s == [] {
      assert s + t == t;
    } else {
      BelowAppend(s[1..], t, x);
      assert (s + t)[1..] == s[1..] + t;
    }
  }

  lemma WithoutOne(s: seq<int>, t: seq<int>, j: nat)
    requires s != [] && multiset(s) == multiset(t) && j < |t| && t[j] == s[0]
    ensures multiset(s[1..]) == multiset(t[..j] + t[j + 1..])
  {
    assert s == [s[0]] + s[1..] && t == t[..j] + [t[j]] + t[j + 1..];
    assert multiset(s[1..]) == multiset(s) - multiset{s[0]};
  }

  /** How many elements are below x does not depend on their order. */
  lemma {:induction false} BelowIsOrderless(s: seq<int>, t: seq<int>, x: int)
    requires multiset(s) == multiset(t)
    ensures Below(s, x) == Below(t, x)
    decreases |s|
  {
    if s == [] {
      assert |multiset(t)| == 0;
    } else {
      assert s[0] in multiset(t);
      var j :| 0 <= j < |t| && t[j] == s[0];
      WithoutOne(s, t, j);
      assert t == t[..j] + ([t[j]] + t[j + 1..]);
      BelowIsOrderless(s[1..], t[..j] + t[j + 1..], x);
      BelowAppend(t[..j], [t[j]] + t[j + 1..], x);
      BelowAppend(t[..j], t[j + 1..], x);
      assert ([t[j]] + t[j + 1..])[1..] == t[j + 1..];
    }
  }

  lemma {:induction false} BelowBounds(s: seq<int>, x: int)
    ensures (forall i :: 0 <= i < |s| ==> s[i] < x) ==> Below(s, x) == |s|
    ensures (forall i :: 0 <= i < |s| ==> x <= s[i]) ==> Below(s, x) == 0
  {
    if s != [] { BelowBounds(s[1..], x); }
  }

  /** The element that quickselect leaves at k is the one that a sorted copy has there. */
  lemma SelectedIsKthSmallest(s: seq<int>, t: seq<int>, k: nat)
    requires multiset(s) == multiset(t) && |s| == |t| && k < |s|
    requires Parted(s, 0, k, |s|) && SortedIn(t, 0, |t|)
    ensures s[k] == t[k]
  {
    AtMost(s, t, k);
    AtMost(t, s, k);
  }

  lemma AtMost(s: seq<int>, t: seq<int>, k: nat)
    requires multiset(s) == multiset(t) && |s| == |t| && k < |s|
    requires Parted(s, 0, k, |s|) && Parted(t, 0, k, |t|)
    ensures s[k] <= t[k]
  {
    if t[k] < s[k] {
      var x := s[k];
      BelowIsOrderless(s, t, x);
      assert s == s[..k] + s[k..] && t == t[..k + 1] + t[k + 1..];
      BelowAppend(s[..k], s[k..], x);
      BelowAppend(t[..k + 1], t[k + 1..], x);
      BelowBounds(s[k..], x);
      BelowBounds(t[..k + 1], x);
      assert false;
    }
  }
}
