/** Which slots a group has, and which of them nobody was handed: `_SlotGroup`'s two lists. */
module SlotLists {
  import opened Collections

  datatype Lists<T> = Lists(slots: seq<T>, free: seq<T>)

  /** Both lists hold a slot at most once, and only slots of the group are free. */
  ghost predicate WellFormed<T>(g: Lists<T>) {
    && Distinct(g.slots) && Distinct(g.free)
    && (forall t :: t in g.free ==> t in g.slots)
  }

  /** Drop the first occurrence, as `list.remove` does. */
  function Remove<T(==)>(q: seq<T>, t: T): (r: seq<T>)
    ensures |r| <= |q|
  {
    if q == [] then [] else if q[0] == t then q[1..] else [q[0]] + Remove(q[1..], t)
  }

  function Filter<T(==)>(q: seq<T>, keep: set<T>): (r: seq<T>)
    ensures |r| <= |q|
  {
    if q == [] then [] else
      var rest := Filter(q[1..], keep);
      if q[0] in keep then [q[0]] + rest else rest
  }

  /** `_take`: a free slot, the last one put back; else the shared first slot of a full group;
      else a new one. */
  function Take<T>(g: Lists<T>, limit: nat, spare: T): (r: (Lists<T>, T))
    requires limit >= 1
  {
    if g.free != [] then
      (g.(free := g.free[..|g.free| - 1]), g.free[|g.free| - 1])
    else if |g.slots| >= limit then (g, g.slots[0])
    else (g.(slots := g.slots + [spare]), spare)
  }

  function PutBack<T(==)>(g: Lists<T>, t: T): (r: Lists<T>) {
    if t in g.free then g else g.(free := g.free + [t])
  }

  function Forget<T(==)>(g: Lists<T>, t: T): (r: Lists<T>) {
    Lists(Remove(g.slots, t), if t in g.free then Remove(g.free, t) else g.free)
  }

  /** `drop_cold`, given the slots that are warm or busy. */
  function Thin<T(==)>(g: Lists<T>, live: set<T>): (r: Lists<T>) {
    var handedOut := set t | t in g.slots && t !in g.free;
    Lists(Filter(g.slots, live + handedOut), Filter(g.free, live))
  }

  lemma {:induction false} RemoveMember<T>(q: seq<T>, t: T, x: T)
    requires Distinct(q)
    ensures x in Remove(q, t) <==> x in q && x != t
  {
    if q != [] {
      RemoveMember(q[1..], t, x);
      assert q == [q[0]] + q[1..] && q[0] !in q[1..];
    }
  }

  lemma {:induction false} RemoveDistinct<T>(q: seq<T>, t: T)
    requires Distinct(q)
    ensures Distinct(Remove(q, t))
  {
    if q != [] && q[0] != t {
      RemoveDistinct(q[1..], t);
      RemoveMember(q[1..], t, q[0]);
      assert q[0] !in q[1..];
      HeadJoins(q[0], Remove(q[1..], t));
    }
  }

  lemma {:induction false} FilterMember<T>(q: seq<T>, keep: set<T>, x: T)
    ensures x in Filter(q, keep) <==> x in q && x in keep
  {
    if q != [] {
      FilterMember(q[1..], keep, x);
      assert q == [q[0]] + q[1..];
    }
  }

  lemma {:induction false} FilterDistinct<T>(q: seq<T>, keep: set<T>)
    requires Distinct(q)
    ensures Distinct(Filter(q, keep))
  {
    if q != [] {
      FilterDistinct(q[1..], keep);
      FilterMember(q[1..], keep, q[0]);
      assert q[0] !in q[1..];
      HeadJoins(q[0], Filter(q[1..], keep));
    }
  }

  lemma {:induction false} FilterAppend<T>(q: seq<T>, x: T, keep: set<T>)
    ensures Filter(q + [x], keep) == Filter(q, keep) + if x in keep then [x] else []
  {
    if q != [] {
      FilterAppend(q[1..], x, keep);
      assert (q + [x])[1..] == q[1..] + [x];
    }
  }

  /** What a hand-out promises: the lists stay sound, and the slot is the one put back last if any is
      free; with nothing free it is the first of a full group, and a new one only below the limit. */
  lemma TakeKeeps<T(!new)>(g: Lists<T>, limit: nat, spare: T)
    requires WellFormed(g) && limit >= 1 && spare !in g.slots
    ensures var (r, t) := Take(g, limit, spare);
      && WellFormed(r) && t in r.slots && t !in r.free
      && (forall u :: u in r.free ==> u in g.free)
      && (forall u :: u in g.free ==> u in r.free || u == t)
      && (forall u :: u in r.slots <==> u in g.slots || u == t)
      && (t == spare ==> g.free == [] && |g.slots| < limit)
      && (g.free != [] ==> r.slots == g.slots && t == g.free[|g.free| - 1] && r.free + [t] == g.free)
      && (g.free == [] && |g.slots| < limit ==> t == spare)
      && (g.free == [] && |g.slots| >= limit ==> r == g && t == g.slots[0])
  {
    var (r, t) := Take(g, limit, spare);
    if g.free != [] {
      assert g.free == r.free + [t];
    } else if |g.slots| < limit {
      assert forall u :: u in r.slots <==> u in g.slots || u == t;
    }
  }

  /** A slot put back is the next one taken. */
  lemma LastBackFirstOut<T>(g: Lists<T>, t: T, limit: nat, spare: T)
    requires limit >= 1 && t !in g.free
    ensures Take(PutBack(g, t), limit, spare) == (g, t)
  {
    var p := PutBack(g, t);
    assert p.free[..|p.free| - 1] == g.free && g.(free := g.free) == g;
  }

  lemma PutBackKeeps<T(!new)>(g: Lists<T>, t: T)
    requires WellFormed(g) && t in g.slots
    ensures WellFormed(PutBack(g, t)) && PutBack(g, t).slots == g.slots
    ensures forall u :: u in PutBack(g, t).free <==> u in g.free || u == t
  {
  }

  lemma ForgetKeeps<T(!new)>(g: Lists<T>, t: T)
    requires WellFormed(g)
    ensures var r := Forget(g, t);
      && WellFormed(r)
      && (forall u :: u in r.slots <==> u in g.slots && u != t)
      && (forall u :: u in r.free <==> u in g.free && u != t)
  {
    var slots, free := Remove(g.slots, t), if t in g.free then Remove(g.free, t) else g.free;
    RemoveDistinct(g.slots, t);
    RemoveDistinct(g.free, t);
    forall u
      ensures u in slots <==> u in g.slots && u != t
      ensures u in free <==> u in g.free && u != t {
      RemoveMember(g.slots, t, u);
      RemoveMember(g.free, t, u);
    }
    assert Forget(g, t) == Lists(slots, free);
  }

  /** `drop_cold` forgets exactly the free slots that are neither warm nor busy. */
  lemma ThinKeeps<T(!new)>(g: Lists<T>, live: set<T>)
    requires WellFormed(g)
    ensures var r := Thin(g, live);
      && WellFormed(r)
      && (forall u :: u in r.slots <==> u in g.slots && (u in live || u !in g.free))
      && (forall u :: u in r.free <==> u in g.free && u in live)
  {
    var handedOut := set t | t in g.slots && t !in g.free;
    FilterDistinct(g.slots, live + handedOut);
    FilterDistinct(g.free, live);
    forall u
      ensures u in Filter(g.slots, live + handedOut) <==> u in g.slots && u in live + handedOut
      ensures u in Filter(g.free, live) <==> u in g.free && u in live {
      FilterMember(g.slots, live + handedOut, u);
      FilterMember(g.free, live, u);
    }
  }
}
