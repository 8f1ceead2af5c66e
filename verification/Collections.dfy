/** Sequences without repetition, and numbers not in use. */
module Collections {
  ghost predicate Distinct<T>(q: seq<T>) {
    forall i, j :: 0 <= i < j < |q| ==> q[i] != q[j]
  }

  lemma HeadLeaves<T>(q: seq<T>)
    requires Distinct(q) && q != []
    ensures Distinct(q[1..]) && q[0] !in q[1..] && forall t :: t in q <==> t == q[0] || t in q[1..]
  {
    assert q == [q[0]] + q[1..];
  }

  lemma HeadJoins<T>(t: T, q: seq<T>)
    requires Distinct(q) && t !in q
    ensures Distinct([t] + q)
  {
    forall i, j | 0 <= i < j < |[t] + q| ensures ([t] + q)[i] != ([t] + q)[j] {
      assert ([t] + q)[j] == q[j - 1];
    }
  }

  /** A number above all of `s`. */
  ghost function Unused(s: set<nat>): (n: nat)
    ensures forall m <- s :: m < n
    decreases s
  {
    if s == {} then 0 else
      var x :| x in s;
      var n := Unused(s - {x});
      assert forall m <- s :: m == x || m in s - {x};
      if x < n then n else x + 1
  }
}
