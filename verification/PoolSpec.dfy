/** What the users of the resource pool may rely on: which ids can come out of it, and where a
    returned id goes.  ResourcePool proves that the pool of the repository behaves like this. */
module PoolSpec {

  type Id = nat
  type Tid = nat

  /** Every id ever issued is with a user, free in one thread's local chunk, free in the
      global chunks, or lost because a push to the global list failed. */
  datatype Pool = Pool(used: set<Id>, local: map<Tid, set<Id>>, global: set<Id>, lost: set<Id>) {

    function LocalOf(t: Tid): set<Id> {
      if t in local then local[t] else {}
    }

    predicate IsFree(id: Id) {
      id in global || exists t :: t in local && id in local[t]
    }

    predicate Issued(id: Id) {
      id in used || id in lost || IsFree(id)
    }

    /** No id is in two places. */
    ghost predicate Valid() {
      && used !! global
      && used !! lost
      && global !! lost
      && (forall t :: t in local ==> local[t] !! used && local[t] !! global && local[t] !! lost)
      && (forall t, u :: t in local && u in local && t != u ==> local[t] !! local[u])
    }
  }

  /** Where an id handed out by "get" comes from. */
  datatype Source = FromLocal | FromChunk(ids: set<Id>) | Fresh

  /** Where an id passed to "return_resource" goes: into the local chunk, into the local chunk after
      the old one was pushed to the global list, or nowhere because that push failed. */
  datatype Sink = Kept | Spilled | Dropped

  predicate CanGet(p: Pool, t: Tid, id: Id, src: Source) {
    match src
    case FromLocal => id in p.LocalOf(t)
    case FromChunk(ids) => p.LocalOf(t) == {} && ids <= p.global && id in ids
    case Fresh => p.LocalOf(t) == {} && !p.Issued(id)
  }

  function Get(p: Pool, t: Tid, id: Id, src: Source): Pool
    requires CanGet(p, t, id, src)
  {
    var q := p.(used := p.used + {id});
    match src
    case FromLocal => q.(local := p.local[t := p.LocalOf(t) - {id}])
    case FromChunk(ids) => q.(local := p.local[t := ids - {id}], global := p.global - ids)
    case Fresh => q
  }

  function Return(p: Pool, t: Tid, id: Id, sink: Sink): Pool {
    var q := p.(used := p.used - {id});
    match sink
    case Kept => q.(local := p.local[t := p.LocalOf(t) + {id}])
    case Spilled => q.(local := p.local[t := {id}], global := p.global + p.LocalOf(t))
    case Dropped => q.(lost := p.lost + {id})
  }

  /** A thread exits: its free ids go to the global list or, if the push fails, are lost. */
  function Leave(p: Pool, t: Tid, ok: bool): Pool {
    var q := p.(local := p.local[t := {}]);
    if ok then q.(global := p.global + p.LocalOf(t)) else q.(lost := p.lost + p.LocalOf(t))
  }

  lemma GetKeepsValid(p: Pool, t: Tid, id: Id, src: Source)
    requires p.Valid() && CanGet(p, t, id, src)
    ensures Get(p, t, id, src).Valid()
    ensures id !in p.used
    ensures forall x :: Get(p, t, id, src).Issued(x) <==> p.Issued(x) || x == id
    ensures forall u :: u != t ==> Get(p, t, id, src).LocalOf(u) == p.LocalOf(u)
  {
    var q := Get(p, t, id, src);
    forall x ensures q.Issued(x) <==> p.Issued(x) || x == id {
      if src.FromLocal? && x in p.local[t] && x != id { assert x in q.local[t]; }
      if src.FromChunk? && x in src.ids && x != id { assert x in q.local[t]; }
      if u :| u in p.local && x in p.local[u] && u != t { assert x in q.local[u]; }
    }
  }

  lemma ReturnKeepsValid(p: Pool, t: Tid, id: Id, sink: Sink)
    requires p.Valid() && id in p.used
    ensures Return(p, t, id, sink).Valid()
    ensures forall x :: Return(p, t, id, sink).Issued(x) <==> p.Issued(x)
    ensures forall u :: u != t ==> Return(p, t, id, sink).LocalOf(u) == p.LocalOf(u)
    ensures id in Return(p, t, id, sink).LocalOf(t) || id in Return(p, t, id, sink).lost
  {
    var q := Return(p, t, id, sink);
    forall x ensures q.Issued(x) <==> p.Issued(x) {
      if u :| u in p.local && x in p.local[u] {
        assert u in q.local && (u != t ==> x in q.local[u]);
        assert sink != Spilled ==> x in q.local[u];
      }
      if x == id && sink != Dropped { assert x in q.local[t]; }
    }
  }

  lemma LeaveKeepsValid(p: Pool, t: Tid, ok: bool)
    requires p.Valid()
    ensures Leave(p, t, ok).Valid()
    ensures forall x :: Leave(p, t, ok).Issued(x) <==> p.Issued(x)
    ensures forall u :: u != t ==> Leave(p, t, ok).LocalOf(u) == p.LocalOf(u)
    ensures p.lost <= Leave(p, t, ok).lost && Leave(p, t, ok).used == p.used
  {
    var q := Leave(p, t, ok);
    forall x ensures q.Issued(x) <==> p.Issued(x) {
      if u :| u in p.local && x in p.local[u] { assert u in q.local && (u != t ==> x in q.local[u]); }
    }
  }
}
