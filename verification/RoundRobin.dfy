/** Fairness of the rotation a roundRobin node keeps in its counter row. */
module RoundRobin {
  import opened Prelude
  import opened FlowGraph
  import opened FlowEngine

  /** The candidates m consecutive live assignments at node n hand over to, in order. */
  function Rotation(n: Node, ids: seq<Field>, counters: map<Option<string>, nat>, m: nat): seq<Field>
    requires n.Node? && ids != []
    decreases m
  {
    if m == 0 then []
    else
      var (picked, after) := Pick(false, n, ids, counters);
      picked + Rotation(n, ids, after, m - 1)
  }

  /** The list positions the rotation goes through from counter value c on. */
  function Positions(len: nat, c: nat, m: nat): seq<nat>
    requires 0 < len
    decreases m
  {
    if m == 0 then [] else [c % len] + Positions(len, c + 1, m - 1)
  }

  function CountIn(ps: seq<nat>, p: nat): nat {
    if ps == [] then 0 else CountIn(ps[1..], p) + if ps[0] == p then 1 else 0
  }

  function CounterOf(n: Node, counters: map<Option<string>, nat>): nat
    requires n.Node?
  {
    if n.id in counters then counters[n.id] else 0
  }

  /** The assignments are the list read at the rotation's positions. */
  lemma {:induction false} RotationReadsPositions(n: Node, ids: seq<Field>, counters: map<Option<string>, nat>, m: nat)
    requires n.Node? && |ids| >= 2
    ensures var ps := Positions(|ids|, CounterOf(n, counters), m);
      |ps| == m == |Rotation(n, ids, counters, m)|
      && forall k | 0 <= k < m :: ps[k] < |ids| && Rotation(n, ids, counters, m)[k] == ids[ps[k]]
    decreases m
  {
    if m > 0 {
      RotationReadsPositions(n, ids, Pick(false, n, ids, counters).1, m - 1);
    }
  }

  lemma Decompose(x: nat, len: nat) returns (q: nat, r: nat)
    requires 0 < len
    ensures x == q * len + r && r < len && r == x % len && q == x / len
  {
    q, r := x / len, x % len;
  }

  /** A multiple above another is above it by at least one factor. */
  lemma MultiplesApart(a: nat, b: nat, len: nat)
    requires a < b
    ensures a * len + len <= b * len
  {
    assert (b - a - 1) * len >= 0;
    assert b * len == a * len + len + (b - a - 1) * len;
  }

  /** Quotient and remainder are unique. */
  lemma DivAt(x: nat, len: nat, q: nat, r: nat)
    requires r < len && x == q * len + r
    ensures x / len == q && x % len == r
  {
    var q', r' := Decompose(x, len);
    if q' < q { MultiplesApart(q', q, len); }
    if q < q' { MultiplesApart(q, q', len); }
  }

  lemma Succ(q: nat, len: nat)
    ensures (q + 1) * len == q * len + len
  {
  }

  /** One more counter value below c + 1 is congruent to p exactly when c is. */
  lemma BelowStep(len: nat, p: nat, c: nat)
    requires p < len
    ensures (c + len - p) / len == (c + len - 1 - p) / len + if c % len == p then 1 else 0
  {
    var q, r := Decompose(c, len);
    Succ(q, len);
    if r < p {
      DivAt(c + len - 1 - p, len, q, r + len - 1 - p);
      DivAt(c + len - p, len, q, r + len - p);
    } else if r == p {
      DivAt(c + len - 1 - p, len, q, len - 1);
      DivAt(c + len - p, len, q + 1, 0);
    } else {
      DivAt(c + len - 1 - p, len, q + 1, r - 1 - p);
      DivAt(c + len - p, len, q + 1, r - p);
    }
  }

  lemma {:induction false} CountAsDivision(len: nat, c: nat, m: nat, p: nat)
    requires p < len
    ensures CountIn(Positions(len, c, m), p) == (c + m + len - 1 - p) / len - (c + len - 1 - p) / len
    decreases m
  {
    if m > 0 {
      CountAsDivision(len, c + 1, m - 1, p);
      BelowStep(len, p, c);
      assert Positions(len, c, m)[1..] == Positions(len, c + 1, m - 1);
    }
  }

  lemma DivisionIsBalanced(len: nat, a: nat, m: nat)
    requires 0 < len
    ensures (a + m) / len - a / len == m / len || (m % len != 0 && (a + m) / len - a / len == m / len + 1)
  {
    var qa, ra := Decompose(a, len);
    var qm, rm := Decompose(m, len);
    assert (qa + qm) * len == qa * len + qm * len;
    Succ(qa + qm, len);
    if ra + rm < len {
      DivAt(a + m, len, qa + qm, ra + rm);
    } else {
      DivAt(a + m, len, qa + qm + 1, ra + rm - len);
    }
  }

  /**
   * Over any m consecutive assignments with a fixed list, from any counter
   * value, every list position is chosen floor(m/n) or ceil(m/n) times.
   */
  lemma RotationIsFair(n: Node, ids: seq<Field>, counters: map<Option<string>, nat>, m: nat, p: nat)
    requires n.Node? && |ids| >= 2 && p < |ids|
    ensures var ps := Positions(|ids|, CounterOf(n, counters), m);
      && (forall k | 0 <= k < m :: |ps| == m == |Rotation(n, ids, counters, m)| && ps[k] < |ids|
                                   && Rotation(n, ids, counters, m)[k] == ids[ps[k]])
      && m / |ids| <= CountIn(ps, p) <= m / |ids| + if m % |ids| == 0 then 0 else 1
  {
    var c := CounterOf(n, counters);
    RotationReadsPositions(n, ids, counters, m);
    CountAsDivision(|ids|, c, m, p);
    DivisionIsBalanced(|ids|, c + |ids| - 1 - p, m);
  }
}
