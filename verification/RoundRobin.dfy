/** The weighted round-robin choice of a proposer: every step raises each node's priority by its
    power, the node of highest priority (lowest id on ties) leads, and its priority drops by the
    total power. */
module RoundRobin {
  import opened Quorums

  /** The first index whose value is maximal. */
  function ArgMax(pri: seq<int>): (k: nat)
    requires pri != []
    ensures k < |pri|
  {
    if |pri| == 1 then 0
    else
      var last := |pri| - 1;
      var k := ArgMax(pri[..last]);
      if pri[last] > pri[k] then last else k
  }

  lemma {:induction false} ArgMaxIsFirstMaximum(pri: seq<int>, k: nat)
    requires pri != []
    ensures k == ArgMax(pri) <==> k < |pri| && (forall i :: 0 <= i < |pri| ==> pri[i] <= pri[k])
                                  && (forall i :: 0 <= i < k ==> pri[i] < pri[k])
  {
    if |pri| > 1 {
      var last := |pri| - 1;
      ArgMaxIsFirstMaximum(pri[..last], ArgMax(pri[..last]));
    }
  }

  function Raise(pri: seq<int>, powers: seq<nat>): seq<int>
    requires |pri| == |powers|
  {
    seq(|pri|, i requires 0 <= i < |pri| => pri[i] + powers[i])
  }

  /** One step: raise, choose the leader, lower it. */
  function Next(pri: seq<int>, powers: seq<nat>, total: nat): (r: seq<int>)
    requires |pri| == |powers| > 0
    ensures |r| == |pri|
  {
    var raised := Raise(pri, powers);
    var leader := ArgMax(raised);
    raised[leader := raised[leader] - total]
  }

  /** The priorities after `k` steps. */
  function Priorities(powers: seq<nat>, k: nat): (pri: seq<int>)
    requires powers != []
    ensures |pri| == |powers|
  {
    if k == 0 then seq(|powers|, i => 0) else Next(Priorities(powers, k - 1), powers, Total(powers))
  }

  /** The node that leads step `k`, counted from 0. */
  function LeaderOf(powers: seq<nat>, k: nat): nat
    requires powers != []
  {
    ArgMax(Raise(Priorities(powers, k), powers))
  }

  /** proposer(h, r): the leader of step h + r; an empty range of steps leaves node 0. */
  function ProposerOf(powers: seq<nat>, height: int, rnd: int): (p: nat)
    requires powers != []
    ensures p < |powers|
  {
    if height + rnd < 0 then 0 else LeaderOf(powers, height + rnd)
  }

  method Proposer(powers: seq<nat>, height: int, rnd: int) returns (leader: nat)
    requires powers != []
    ensures leader == ProposerOf(powers, height, rnd)
  {
    var pri := new int[|powers|](i => 0);
    leader := 0;
    var step := 0;
    assert pri[..] == Priorities(powers, 0);
    while step < height + rnd + 1
      invariant pri.Length == |powers|
      invariant 0 <= step && (step <= height + rnd + 1 || step == 0)
      invariant pri[..] == Priorities(powers, step)
      invariant leader == if step == 0 then 0 else LeaderOf(powers, step - 1)
    {
      leader := Advance(pri, powers);
      step := step + 1;
    }
  }

  /** One round of the schedule, in place. */
  method Advance(pri: array<int>, powers: seq<nat>) returns (leader: nat)
    requires pri.Length == |powers| > 0
    modifies pri
    ensures leader == ArgMax(Raise(old(pri[..]), powers))
    ensures pri[..] == Next(old(pri[..]), powers, Total(powers))
  {
    for i := 0 to pri.Length
      invariant forall j :: 0 <= j < i ==> pri[j] == old(pri[j]) + powers[j]
      invariant forall j :: i <= j < pri.Length ==> pri[j] == old(pri[j])
    {
      pri[i] := pri[i] + powers[i];
    }
    assert pri[..] == Raise(old(pri[..]), powers);
    leader := MaxIndex(pri);
    pri[leader] := pri[leader] - Total(powers);
  }

  /** max(range(n), key = (pri[i], -i)). */
  method MaxIndex(pri: array<int>) returns (leader: nat)
    requires pri.Length > 0
    ensures leader < pri.Length && leader == ArgMax(pri[..])
  {
    leader := 0;
    for i := 1 to pri.Length
      invariant leader < i
      invariant forall j :: 0 <= j < i ==> pri[j] <= pri[leader]
      invariant forall j :: 0 <= j < leader ==> pri[j] < pri[leader]
    {
      if pri[i] > pri[leader] {
        leader := i;
      }
    }
    ArgMaxIsFirstMaximum(pri[..], leader);
  }

  // ---------- fairness ----------

  /** How often node `i` leads in the first `k` steps. */
  ghost function Count(powers: seq<nat>, k: nat, i: int): nat
    requires powers != []
  {
    if k == 0 then 0 else Count(powers, k - 1, i) + if LeaderOf(powers, k - 1) == i then 1 else 0
  }

  ghost function Sum(s: seq<int>): int {
    if s == [] then 0 else Sum(s[..|s| - 1]) + s[|s| - 1]
  }

  lemma {:induction false} SumUpdate(s: seq<int>, k: nat, x: int)
    requires k < |s|
    ensures Sum(s[k := x]) == Sum(s) - s[k] + x
  {
    var last := |s| - 1;
    if k == last {
      assert s[k := x][..last] == s[..last];
    } else {
      assert s[k := x][..last] == s[..last][k := x];
      SumUpdate(s[..last], k, x);
    }
  }

  lemma {:induction false} SumRaise(pri: seq<int>, powers: seq<nat>)
    requires |pri| == |powers|
    ensures Sum(Raise(pri, powers)) == Sum(pri) + Total(powers)
  {
    if pri != [] {
      var last := |pri| - 1;
      assert Raise(pri, powers)[..last] == Raise(pri[..last], powers[..last]);
      SumRaise(pri[..last], powers[..last]);
    }
  }

  lemma {:induction false} SumNonPositive(s: seq<int>)
    requires forall i :: 0 <= i < |s| ==> s[i] <= 0
    ensures Sum(s) <= 0
  {
    if s != [] {
      SumNonPositive(s[..|s| - 1]);
    }
  }

  ghost predicate Balanced(pri: seq<int>, total: nat) {
    Sum(pri) == 0 && forall i :: 0 <= i < |pri| ==> pri[i] + total > 0
  }

  /** The leader's raised priority is positive, so paying the total leaves it above minus the total. */
  lemma NextBalanced(pri: seq<int>, powers: seq<nat>, total: nat)
    requires |pri| == |powers| > 0 && total == Total(powers) > 0 && Balanced(pri, total)
    ensures Balanced(Next(pri, powers, total), total)
  {
    var raised := Raise(pri, powers);
    var leader := ArgMax(raised);
    SumRaise(pri, powers);
    SumUpdate(raised, leader, raised[leader] - total);
    ArgMaxIsFirstMaximum(raised, leader);
    if raised[leader] <= 0 {
      SumNonPositive(raised);
    }
  }

  lemma {:induction false} PrioritiesBalanced(powers: seq<nat>, total: nat, k: nat)
    requires powers != [] && total == Total(powers) > 0
    ensures Balanced(Priorities(powers, k), total)
  {
    if k == 0 {
      SumOfZeros(|powers|);
    } else {
      PrioritiesBalanced(powers, total, k - 1);
      NextBalanced(Priorities(powers, k - 1), powers, total);
    }
  }

  /** A priority is the power received so far minus the total power paid for each lead. */
  lemma {:induction false} PriorityIsEarnedMinusPaid(powers: seq<nat>, total: nat, k: nat, i: nat)
    requires powers != [] && total == Total(powers) && i < |powers|
    ensures Priorities(powers, k)[i] == k * powers[i] - Count(powers, k, i) * total
  {
    if k > 0 {
      PriorityIsEarnedMinusPaid(powers, total, k - 1, i);
      AddOne(k - 1, powers[i]);
      AddOne(Count(powers, k - 1, i), total);
    }
  }

  lemma AddOne(k: int, x: int)
    ensures (k + 1) * x == k * x + x
  {
  }

  lemma {:induction false} SumOfZeros(n: nat)
    ensures Sum(seq(n, i => 0)) == 0
  {
    if n > 0 {
      assert seq(n, i => 0)[..n - 1] == seq(n - 1, i => 0);
      SumOfZeros(n - 1);
    }
  }

  ghost function LeadCounts(powers: seq<nat>, k: nat): seq<int>
    requires powers != []
  {
    seq(|powers|, i => Count(powers, k, i))
  }

  /** Every step has exactly one leader. */
  lemma {:induction false} LeadCountsSum(powers: seq<nat>, k: nat)
    requires powers != []
    ensures Sum(LeadCounts(powers, k)) == k
  {
    if k == 0 {
      assert LeadCounts(powers, 0) == seq(|powers|, i => 0);
      SumOfZeros(|powers|);
    } else {
      LeadCountsSum(powers, k - 1);
      var leader := LeaderOf(powers, k - 1);
      assert LeadCounts(powers, k) == LeadCounts(powers, k - 1)[leader := LeadCounts(powers, k - 1)[leader] + 1];
      SumUpdate(LeadCounts(powers, k - 1), leader, LeadCounts(powers, k - 1)[leader] + 1);
    }
  }

  lemma {:induction false} EqualSumsEqualTerms(a: seq<int>, b: seq<nat>)
    requires |a| == |b| && forall i :: 0 <= i < |a| ==> a[i] <= b[i]
    ensures Sum(a) <= Total(b)
    ensures Sum(a) == Total(b) ==> forall i :: 0 <= i < |a| ==> a[i] == b[i]
  {
    if a != [] {
      EqualSumsEqualTerms(a[..|a| - 1], b[..|b| - 1]);
    }
  }

  lemma CountAtMostPower(powers: seq<nat>, total: nat, i: nat)
    requires powers != [] && total == Total(powers) > 0 && i < |powers|
    ensures Count(powers, total, i) <= powers[i]
  {
    PrioritiesBalanced(powers, total, total);
    PriorityIsEarnedMinusPaid(powers, total, total, i);
    Cancel(total, powers[i], Count(powers, total, i));
  }

  lemma Cancel(total: int, a: int, b: int)
    requires total > 0
    ensures b <= a || total * a - b * total + total <= 0
  {
    if b >= a + 1 {
      MulMonotone(a + 1, b, total);
      AddOne(a, total);
    }
  }

  lemma MulMonotone(a: int, b: int, x: int)
    requires a <= b && x >= 0
    ensures a * x <= b * x
  {
  }

  lemma PaidUp(powers: seq<nat>, total: nat, i: nat)
    requires powers != [] && total == Total(powers) && i < |powers| && Count(powers, total, i) == powers[i]
    ensures Priorities(powers, total)[i] == 0
  {
    PriorityIsEarnedMinusPaid(powers, total, total, i);
    assert total * powers[i] == powers[i] * total;
  }

  /** Fairness: in the first Total(powers) steps every node leads exactly as often as its power says,
      and all priorities are back to zero. */
  lemma Fairness(powers: seq<nat>, total: nat)
    requires total == Total(powers) > 0
    ensures powers != []
    ensures forall i :: 0 <= i < |powers| ==> Count(powers, total, i) == powers[i]
    ensures Priorities(powers, total) == Priorities(powers, 0)
  {
    assert powers != [];
    var counts := LeadCounts(powers, total);
    forall i | 0 <= i < |powers| ensures counts[i] <= powers[i] {
      CountAtMostPower(powers, total, i);
    }
    LeadCountsSum(powers, total);
    EqualSumsEqualTerms(counts, powers);
    var final := Priorities(powers, total);
    forall i | 0 <= i < |powers| ensures Count(powers, total, i) == powers[i] && final[i] == 0 {
      assert counts[i] == Count(powers, total, i);
      PaidUp(powers, total, i);
    }
    assert final == seq(|powers|, i => 0);
  }

  lemma StepOf(powers: seq<nat>, k: nat)
    requires powers != []
    ensures Priorities(powers, k + 1) == Next(Priorities(powers, k), powers, Total(powers))
  {
  }

  /** Once the priorities are back to zero the schedule repeats. */
  lemma {:induction false} Restart(powers: seq<nat>, period: nat, k: nat, zero: seq<int>)
    requires powers != [] && Priorities(powers, period) == zero == Priorities(powers, 0)
    ensures Priorities(powers, period + k) == Priorities(powers, k)
  {
    if k > 0 {
      Restart(powers, period, k - 1, zero);
      SameNext(powers, period + (k - 1), k - 1);
    }
  }

  lemma SameNext(powers: seq<nat>, a: nat, b: nat)
    requires powers != [] && Priorities(powers, a) == Priorities(powers, b)
    ensures Priorities(powers, a + 1) == Priorities(powers, b + 1)
  {
    StepOf(powers, a);
    StepOf(powers, b);
  }

  /** The schedule is periodic in the total power. */
  lemma Periodic(powers: seq<nat>, k: nat)
    requires Total(powers) > 0
    ensures powers != [] && LeaderOf(powers, Total(powers) + k) == LeaderOf(powers, k)
  {
    Fairness(powers, Total(powers));
    Restart(powers, Total(powers), k, Priorities(powers, 0));
  }

  // ---------- equal powers ----------

  lemma {:induction false} TotalOfEqual(powers: seq<nat>, w: nat)
    requires forall i :: 0 <= i < |powers| ==> powers[i] == w
    ensures Total(powers) == |powers| * w
  {
    if powers != [] {
      TotalOfEqual(powers[..|powers| - 1], w);
    }
  }

  lemma ModUnique(n: nat, q: int, r: int, q': int, r': int)
    requires 0 <= r < n && 0 <= r' < n && q * n + r == q' * n + r'
    ensures r == r'
  {
    if q < q' {
      MulMonotone(q + 1, q', n);
      AddOne(q, n);
    } else if q' < q {
      MulMonotone(q' + 1, q, n);
      AddOne(q', n);
    }
  }

  lemma ModShift(k: nat, n: nat)
    requires 0 < n <= k
    ensures k % n == (k - n) % n
  {
    var q, r := (k - n) / n, (k - n) % n;
    AddOne(q, n);
    assert k / n * n + k % n == k && q * n + r == k - n;
    ModUnique(n, k / n, k % n, q + 1, r);
  }

  /** The priorities after `k` of `n` steps when all have power `w`. */
  ghost function Staircase(n: nat, w: nat, k: nat): seq<int> {
    seq(n, i => if i < k then k * w - n * w else k * w)
  }

  lemma StaircaseStep(powers: seq<nat>, w: nat, k: nat)
    requires w > 0 && k < |powers|
    requires forall i :: 0 <= i < |powers| ==> powers[i] == w
    ensures var n := |powers|;
            && ArgMax(Raise(Staircase(n, w, k), powers)) == k
            && Next(Staircase(n, w, k), powers, n * w) == Staircase(n, w, k + 1)
  {
    var n := |powers|;
    AddOne(k, w);
    var raised := Raise(Staircase(n, w, k), powers);
    assert n * w > 0;
    assert forall i :: 0 <= i < n ==> raised[i] == if i < k then (k + 1) * w - n * w else (k + 1) * w;
    ArgMaxIsFirstMaximum(raised, k);
  }

  lemma {:induction false} FirstCycle(powers: seq<nat>, w: nat, k: nat)
    requires powers != [] && w > 0 && k <= |powers|
    requires forall i :: 0 <= i < |powers| ==> powers[i] == w
    ensures Priorities(powers, k) == Staircase(|powers|, w, k)
    ensures k < |powers| ==> LeaderOf(powers, k) == k
  {
    if k > 0 {
      FirstCycle(powers, w, k - 1);
      TotalOfEqual(powers, w);
      StaircaseStep(powers, w, k - 1);
    } else {
      assert Priorities(powers, 0) == Staircase(|powers|, w, 0);
    }
    if k < |powers| {
      StaircaseStep(powers, w, k);
    }
  }

  lemma CycleCloses(powers: seq<nat>, w: nat)
    requires powers != [] && w > 0
    requires forall i :: 0 <= i < |powers| ==> powers[i] == w
    ensures Priorities(powers, |powers|) == Priorities(powers, 0)
  {
    FirstCycle(powers, w, |powers|);
    FirstCycle(powers, w, 0);
    assert Staircase(|powers|, w, |powers|) == Staircase(|powers|, w, 0);
  }

  lemma ModSmall(k: nat, n: nat)
    requires k < n
    ensures k % n == k
  {
  }

  /** Equal powers: the proposer of (height, round) is node (height + round) mod n. */
  lemma {:induction false} EqualPowersRotate(powers: seq<nat>, w: nat, k: nat)
    requires powers != [] && w > 0
    requires forall i :: 0 <= i < |powers| ==> powers[i] == w
    ensures LeaderOf(powers, k) == k % |powers|
  {
    var n := |powers|;
    if k < n {
      FirstCycle(powers, w, k);
      ModSmall(k, n);
    } else {
      EqualPowersRotate(powers, w, k - n);
      ModShift(k, n);
      CycleCloses(powers, w);
      Restart(powers, n, k - n, Priorities(powers, 0));
    }
  }
}
