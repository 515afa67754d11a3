/** The vocabulary shared by the models. */
module Prelude {

  datatype Option<+T> = None | Some(value: T)

  /** No element occurs twice. */
  ghost predicate Distinct<T>(s: seq<T>) {
    forall i, j :: 0 <= i < j < |s| ==> s[i] != s[j]
  }

  function First<T>(s: seq<T>): Option<T> {
    if s == [] then None else Some(s[0])
  }

  function Last<T>(s: seq<T>): T
    requires s != []
  {
    s[|s| - 1]
  }

  function ButLast<T>(s: seq<T>): (r: seq<T>)
    requires s != []
  {
    s[..|s| - 1]
  }

  /** Following "next" from "head" passes exactly the nodes of "list" and then stops at null. */
  ghost predicate Chain(next: map<nat, Option<nat>>, head: Option<nat>, list: seq<nat>)
    decreases |list|
  {
    if list == [] then head == None
    else head == Some(list[0]) && list[0] in next && Chain(next, next[list[0]], list[1..])
  }

  /** A chain only depends on the links of its own nodes. */
  lemma {:induction false} ChainFrame(
      next: map<nat, Option<nat>>, next': map<nat, Option<nat>>, head: Option<nat>, list: seq<nat>)
    requires Chain(next, head, list)
    requires forall x :: x in list && x in next ==> x in next' && next'[x] == next[x]
    ensures Chain(next', head, list)
    decreases |list|
  {
    if list != [] {
      assert list[0] in list;
      forall x | x in list[1..] ensures x in list {}
      ChainFrame(next, next', next[list[0]], list[1..]);
    }
  }

  /** A memory and a head pointer have at most one chain. */
  lemma {:induction false} ChainUnique(next: map<nat, Option<nat>>, head: Option<nat>, l: seq<nat>, l': seq<nat>)
    requires Chain(next, head, l) && Chain(next, head, l')
    ensures l == l'
    decreases |l|
  {
    if l != [] && l' != [] { ChainUnique(next, next[l[0]], l[1..], l'[1..]); }
  }
}
