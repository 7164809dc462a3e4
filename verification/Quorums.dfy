/** Counting arguments shared by the protocol models: sets of voters counted by
    cardinality, and sets of voters counted by voting power. */
module Quorums {

  /** The members 0..n-1 of an n-member system. */
  ghost function Members(n: nat): (s: set<int>)
    ensures forall i :: i in s <==> 0 <= i < n
    ensures |s| == n
  {
    if n == 0 then {} else Members(n - 1) + {n - 1}
  }

  lemma NonEmpty(s: set<int>)
    requires s != {}
    ensures exists k :: k in s
  {
    assert (forall k :: k !in s) ==> s == {};
  }

  lemma SubsetSize<T>(a: set<T>, b: set<T>)
    requires a <= b
    ensures |a| <= |b|
  {
    assert b == a + (b - a);
  }

  lemma {:induction false} SubsetOfSize<T>(s: set<T>, k: nat) returns (t: set<T>)
    requires k <= |s|
    ensures t <= s && |t| == k
  {
    if k == 0 {
      t := {};
    } else {
      assert s != {};
      var x :| x in s;
      t := SubsetOfSize(s - {x}, k - 1);
      t := t + {x};
    }
  }

  /** Two sets of members that together exceed the membership by more than the
      number of faulty members share a correct one. */
  lemma CommonCorrectMember(a: set<int>, b: set<int>, faulty: set<int>, n: nat) returns (p: int)
    requires forall i :: i in a || i in b ==> 0 <= i < n
    requires |a| + |b| > n + |faulty|
    ensures p in a && p in b && p !in faulty && 0 <= p < n
  {
    SubsetSize(a + b, Members(n));
    assert |a| + |b| == |a + b| + |a * b|;
    if a * b <= faulty {
      SubsetSize(a * b, faulty);
    }
    p :| p in a * b && p !in faulty;
  }

  /** A set with more members than there are faulty ones has a correct member. */
  lemma CorrectMember(a: set<int>, faulty: set<int>) returns (p: int)
    requires |a| > |faulty|
    ensures p in a && p !in faulty
  {
    if forall i :: i in a ==> i in faulty {
      SubsetSize(a, faulty);
    }
    p :| p in a && p !in faulty;
  }

  /** The voting power of the members of `s`; `power[i]` is the power of member i. */
  function Power(s: set<int>, power: seq<nat>): nat
  {
    if power == [] then 0
    else
      var last := |power| - 1;
      Power(s, power[..last]) + if last in s then power[last] else 0
  }

  /** The voting power of all members. */
  function Total(power: seq<nat>): nat
  {
    if power == [] then 0 else Total(power[..|power| - 1]) + power[|power| - 1]
  }

  lemma {:induction false} PowerInclusionExclusion(a: set<int>, b: set<int>, power: seq<nat>)
    ensures Power(a, power) + Power(b, power) == Power(a + b, power) + Power(a * b, power)
  {
    if power != [] {
      PowerInclusionExclusion(a, b, power[..|power| - 1]);
    }
  }

  lemma {:induction false} PowerMonotone(a: set<int>, b: set<int>, power: seq<nat>)
    requires forall i :: i in a && 0 <= i < |power| ==> i in b
    ensures Power(a, power) <= Power(b, power) <= Total(power)
  {
    if power != [] {
      PowerMonotone(a, b, power[..|power| - 1]);
    }
  }

  /** The weighted form of CommonCorrectMember. */
  lemma CommonCorrectVoter(a: set<int>, b: set<int>, faulty: set<int>, power: seq<nat>) returns (p: int)
    requires Power(a, power) + Power(b, power) > Total(power) + Power(faulty, power)
    ensures p in a && p in b && p !in faulty && 0 <= p < |power|
  {
    PowerInclusionExclusion(a, b, power);
    PowerMonotone(a + b, a + b, power);
    p := CorrectVoter(a * b, faulty, power);
  }

  /** The weighted form of CorrectMember. */
  lemma CorrectVoter(a: set<int>, faulty: set<int>, power: seq<nat>) returns (p: int)
    requires Power(a, power) > Power(faulty, power)
    ensures p in a && p !in faulty && 0 <= p < |power|
  {
    if forall i :: i in a && 0 <= i < |power| ==> i in faulty {
      PowerMonotone(a, faulty, power);
    }
    p :| p in a && 0 <= p < |power| && p !in faulty;
  }

  // ---------- one vote per member ----------

  /** One vote per node. */
  function Ones(n: nat): (powers: seq<nat>)
    ensures |powers| == n
  {
    if n == 0 then [] else Ones(n - 1) + [1]
  }

  lemma {:induction false} PowerOfOnes(s: set<int>, n: nat)
    ensures Power(s, Ones(n)) == |s * Members(n)|
  {
    if n == 0 {
      assert s * Members(0) == {};
    } else {
      PowerOfOnes(s, n - 1);
      assert Ones(n)[..n - 1] == Ones(n - 1);
      MemberCount(s, n);
    }
  }

  lemma MemberCount(s: set<int>, n: nat)
    requires n > 0
    ensures |s * Members(n)| == |s * Members(n - 1)| + if n - 1 in s then 1 else 0
  {
    if n - 1 in s {
      assert s * Members(n) == s * Members(n - 1) + {n - 1};
    } else {
      assert s * Members(n) == s * Members(n - 1);
    }
  }

  lemma {:induction false} TotalOfOnes(n: nat)
    ensures Total(Ones(n)) == n
  {
    if n > 0 {
      TotalOfOnes(n - 1);
      assert Ones(n)[..n - 1] == Ones(n - 1);
    }
  }

  /** The members of a set, each once, in some order. */
  lemma {:induction false} Listing(ids: set<int>) returns (order: seq<int>)
    ensures (forall id :: id in order <==> id in ids) && forall i, j :: 0 <= i < j < |order| ==> order[i] != order[j]
    decreases |ids|
  {
    order := [];
    if ids != {} {
      NonEmpty(ids);
      var id :| id in ids;
      var rest := Listing(ids - {id});
      order := [id] + rest;
    }
  }
}
