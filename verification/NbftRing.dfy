/** The parameters of NBFT, its readable signatures, and the grouping of the nodes on the hash ring. */
module NbftRing {

  datatype Params = Params(n: int, m: int)
  {
    function R(): int requires m > 0 {
      (n - 1) / m
    }

    function E(): int requires m > 0 {
      (m - 1) / 3
    }

    function W(): int requires m > 0 {
      (R() - 1) / 3
    }

    /** The settings that the constructor lets through: m = 3E + 1 and at least four groups. */
    predicate Valid() {
      m >= 4 && (m - 1) % 3 == 0 && R() >= 4
    }

    function FullVoteQuorum(): int requires m > 0 {
      m - E()
    }

    function VoteThreshold(): int requires m > 0 {
      (R() - W()) * m
    }

    function ProofQuorum(): int requires m > 0 {
      (R() - W()) * FullVoteQuorum()
    }
  }

  // ---------- signatures ----------

  function Sign(node: string, digest: string): string {
    node + "~" + digest
  }

  /** The text before the first separator, or all of it. */
  function SigSigner(sig: string): string {
    if sig == [] || sig[0] == '~' then [] else [sig[0]] + SigSigner(sig[1..])
  }

  /** The text after the first separator is the digest. */
  predicate SigValid(sig: string, digest: string) {
    var signer := SigSigner(sig);
    |signer| < |sig| && sig[|signer| + 1..] == digest
  }

  lemma {:induction false} SignerIsPrefix(sig: string)
    ensures |SigSigner(sig)| <= |sig| && sig[..|SigSigner(sig)|] == SigSigner(sig) && '~' !in SigSigner(sig)
    ensures |SigSigner(sig)| < |sig| ==> sig[|SigSigner(sig)|] == '~'
  {
    if sig != [] && sig[0] != '~' {
      SignerIsPrefix(sig[1..]);
    }
  }

  lemma {:induction false} SignerOfPlain(node: string, digest: string)
    requires '~' !in node
    ensures SigSigner(Sign(node, digest)) == node && Sign(node, digest)[|node| + 1..] == digest
  {
    if node == [] {
      assert Sign(node, digest)[0] == '~';
    } else {
      SignerOfPlain(node[1..], digest);
      assert Sign(node, digest)[1..] == Sign(node[1..], digest);
    }
  }

  lemma {:induction false} SignerIsShort(node: string, digest: string)
    requires '~' in node
    ensures |SigSigner(Sign(node, digest))| < |node|
  {
    if node[0] != '~' {
      SignerIsShort(node[1..], digest);
      assert Sign(node, digest)[1..] == Sign(node[1..], digest);
    }
  }

  /** A signature names its signer, and is valid for the signed digest, exactly when the name has no separator; it is
      then valid for no other digest. */
  lemma SignRoundTrip(node: string, digest: string)
    ensures SigSigner(Sign(node, digest)) == node <==> '~' !in node
    ensures SigValid(Sign(node, digest), digest) <==> '~' !in node
    ensures forall other :: '~' !in node && SigValid(Sign(node, digest), other) ==> other == digest
  {
    SignerIsPrefix(Sign(node, digest));
    if '~' !in node {
      SignerOfPlain(node, digest);
    } else {
      SignerIsShort(node, digest);
    }
  }

  /** A valid signature is what its signer would have written. */
  lemma ValidIsSigned(sig: string, digest: string)
    requires SigValid(sig, digest)
    ensures sig == Sign(SigSigner(sig), digest) && '~' !in SigSigner(sig)
  {
    SignerIsPrefix(sig);
    var k := |SigSigner(sig)|;
    assert sig == sig[..k] + [sig[k]] + sig[k + 1..];
  }

  // ---------- grouping ----------

  datatype Membership = Membership(primary: string, groups: seq<seq<string>>, representatives: seq<string>, ungrouped: seq<string>)

  ghost predicate Distinct(s: seq<string>) {
    forall i, j :: 0 <= i < j < |s| ==> s[i] != s[j]
  }

  /** The other nodes, clockwise from the one after the primary. */
  function Others(ordered: seq<string>, start: nat): seq<string>
    requires start < |ordered|
  {
    seq(|ordered| - 1, i requires 0 <= i => ordered[(start + 1 + i) % |ordered|])
  }

  function Rotated(s: seq<string>, offset: nat): seq<string>
    requires offset <= |s|
  {
    s[offset..] + s[..offset]
  }

  function Group(others: seq<string>, m: nat, g: nat): seq<string>
    requires (g + 1) * m <= |others| && g * m <= (g + 1) * m
  {
    others[g * m..(g + 1) * m]
  }

  lemma {:induction false} MoreGroupsMoreNodes(a: nat, b: nat, m: nat)
    requires a <= b
    ensures a * m <= b * m
  {
    if a < b {
      MoreGroupsMoreNodes(a, b - 1, m);
      assert b * m == (b - 1) * m + m;
    }
  }

  lemma GroupFits(m: nat, r: nat, g: nat)
    requires g < r
    ensures 0 <= g * m <= (g + 1) * m <= r * m
  {
    MoreGroupsMoreNodes(0, g, m);
    MoreGroupsMoreNodes(g, g + 1, m);
    MoreGroupsMoreNodes(g + 1, r, m);
  }

  function Grouped(primary: string, representatives: seq<string>, others: seq<string>, m: nat, r: nat): Membership
    requires r * m <= |others|
  {
    Membership(primary, seq(r, g requires 0 <= g < r => GroupFits(m, r, g); Group(others, m, g)), representatives, others[r * m..])
  }

  /** The grouping of one round; the view shifts the start of the walk. The representatives are elected by hash. */
  function MembershipOf(ordered: seq<string>, start: nat, representatives: seq<string>, view: nat, m: nat, r: nat): Membership
    requires start < |ordered| && |ordered| > 1 && r * m <= |ordered| - 1
  {
    var others := Others(ordered, start);
    var offset := (view / |ordered|) % |others|;
    Grouped(ordered[start], representatives, Rotated(others, offset), m, r)
  }

  lemma WrapsDistinctly(n: nat, start: nat, i: nat, j: nat)
    requires start < n && i < j < n
    ensures (start + 1 + i) % n != (start + 1 + j) % n
    ensures j < n - 1 ==> (start + 1 + j) % n != start
  {
    var a, b := start + 1 + i, start + 1 + j;
    assert a % n == (if a < n then a else a - n) by { Wraps(a, n); }
    assert b % n == (if b < n then b else b - n) by { Wraps(b, n); }
  }

  lemma Wraps(a: nat, n: nat)
    requires n > 0 && a < 2 * n
    ensures a % n == if a < n then a else a - n
  {
  }

  lemma OthersDistinct(ordered: seq<string>, start: nat)
    requires start < |ordered| && Distinct(ordered)
    ensures Distinct(Others(ordered, start)) && ordered[start] !in Others(ordered, start)
  {
    var n, others := |ordered|, Others(ordered, start);
    forall i, j | 0 <= i < j < |others| ensures others[i] != others[j] {
      WrapsDistinctly(n, start, i, j);
    }
    forall j | 0 <= j < |others| ensures others[j] != ordered[start] {
      Wraps(start + 1 + j, n);
    }
  }

  lemma RotatedDistinct(s: seq<string>, offset: nat)
    requires offset <= |s| && Distinct(s)
    ensures Distinct(Rotated(s, offset)) && |Rotated(s, offset)| == |s|
    ensures forall x :: x in Rotated(s, offset) <==> x in s
  {
    assert s == s[..offset] + s[offset..];
    forall i, j | 0 <= i < j < |s| ensures Rotated(s, offset)[i] != Rotated(s, offset)[j] {
      var a := if i < |s| - offset then i + offset else i - (|s| - offset);
      var b := if j < |s| - offset then j + offset else j - (|s| - offset);
      assert Rotated(s, offset)[i] == s[a] && Rotated(s, offset)[j] == s[b] && a != b;
    }
  }

  // ---------- what the grouping promises ----------

  /** R groups of m nodes; no node is in two groups, in a group and ungrouped, or the primary as well. */
  ghost predicate Partitioned(ms: Membership, m: nat, r: nat) {
    && |ms.groups| == r
    && (forall g :: 0 <= g < r ==> |ms.groups[g]| == m && Distinct(ms.groups[g]))
    && (forall g, h, x :: 0 <= g < h < r && x in ms.groups[g] ==> x !in ms.groups[h])
    && (forall g, x :: 0 <= g < r && x in ms.groups[g] ==> x !in ms.ungrouped && x != ms.primary)
    && Distinct(ms.ungrouped) && ms.primary !in ms.ungrouped
  }

  lemma GroupsPartition(primary: string, representatives: seq<string>, others: seq<string>, m: nat, r: nat)
    requires r * m <= |others| && Distinct(others) && primary !in others
    ensures Partitioned(Grouped(primary, representatives, others, m, r), m, r)
  {
    var ms := Grouped(primary, representatives, others, m, r);
    forall g | 0 <= g < r
      ensures |ms.groups[g]| == m && Distinct(ms.groups[g])
      ensures forall x :: x in ms.groups[g] ==> x !in ms.ungrouped && x != primary
    {
      GroupFits(m, r, g);
    }
    forall g, h, x | 0 <= g < h < r && x in ms.groups[g] ensures x !in ms.groups[h] {
      GroupFits(m, r, g);
      GroupFits(m, r, h);
      GroupFits(m, h, g);
    }
  }

  /** Grouping on the ring: every node has exactly one role. */
  lemma MembershipPartitions(ordered: seq<string>, start: nat, representatives: seq<string>, view: nat, m: nat, r: nat)
    requires start < |ordered| && |ordered| > 1 && r * m <= |ordered| - 1 && Distinct(ordered)
    ensures Partitioned(MembershipOf(ordered, start, representatives, view, m, r), m, r)
  {
    var others := Others(ordered, start);
    var offset := (view / |ordered|) % |others|;
    OthersDistinct(ordered, start);
    RotatedDistinct(others, offset);
    GroupsPartition(ordered[start], representatives, Rotated(others, offset), m, r);
  }

  /** Nobody is left out: every node is the primary, in a group, or ungrouped. */
  lemma EveryNodePlaced(ordered: seq<string>, start: nat, representatives: seq<string>, view: nat, m: nat, r: nat, x: string)
    requires m > 0 && start < |ordered| && |ordered| > 1 && r * m <= |ordered| - 1 && Distinct(ordered) && x in ordered
    ensures var ms := MembershipOf(ordered, start, representatives, view, m, r);
            x == ms.primary || x in ms.ungrouped || exists g :: 0 <= g < r && x in ms.groups[g]
  {
    var n := |ordered|;
    var others := Others(ordered, start);
    var offset := (view / n) % |others|;
    var ms := MembershipOf(ordered, start, representatives, view, m, r);
    OthersDistinct(ordered, start);
    RotatedDistinct(others, offset);
    if x != ordered[start] {
      var k :| 0 <= k < n && ordered[k] == x;
      var i := if k > start then k - start - 1 else k + n - start - 1;
      Wraps(start + 1 + i, n);
      assert others[i] == x;
      var rotated := Rotated(others, offset);
      assert x in rotated;
      var j :| 0 <= j < |rotated| && rotated[j] == x;
      PlacedAt(ordered[start], representatives, rotated, m, r, j);
    }
  }

  lemma PlacedAt(primary: string, representatives: seq<string>, others: seq<string>, m: nat, r: nat, j: nat)
    requires m > 0 && r * m <= |others| && j < |others|
    ensures var ms := Grouped(primary, representatives, others, m, r);
            others[j] in ms.ungrouped || exists g :: 0 <= g < r && others[j] in ms.groups[g]
  {
    var ms := Grouped(primary, representatives, others, m, r);
    if j >= r * m {
      assert others[j] == ms.ungrouped[j - r * m];
    } else {
      var g := j / m;
      DivBounds(j, m, r);
      GroupFits(m, r, g);
      assert others[j] == ms.groups[g][j - g * m];
    }
  }

  lemma DivBounds(j: nat, m: nat, r: nat)
    requires m > 0 && j < r * m
    ensures j / m < r && (j / m) * m <= j < (j / m + 1) * m
  {
    var q := j / m;
    assert j == q * m + j % m;
    assert (q + 1) * m == q * m + m;
    if q >= r {
      MoreGroupsMoreNodes(r, q, m);
    }
  }

  // ---------- walking the ring ----------

  const RING: int := 0x1_0000_0000

  /** How far clockwise `position` lies from `point`. */
  function Clockwise(point: int, position: int): int {
    (position - point) % RING
  }

  /** The candidates in the order of their positions. */
  method SortByPosition(positions: map<string, int>, candidates: seq<string>) returns (pool: seq<string>)
    requires forall x :: x in candidates ==> x in positions
    ensures multiset(pool) == multiset(candidates) && (forall x :: x in pool <==> x in candidates) && ByPosition(positions, pool)
  {
    pool := [];
    var k := 0;
    while k < |candidates|
      invariant 0 <= k <= |candidates|
      invariant multiset(pool) == multiset(candidates[..k])
      invariant ByPosition(positions, pool)
    {
      assert candidates[..k + 1] == candidates[..k] + [candidates[k]];
      pool := Insert(positions, pool, candidates[k]);
      k := k + 1;
    }
    assert candidates[..k] == candidates;
    assert forall x :: x in pool <==> x in multiset(pool);
    assert forall x :: x in candidates <==> x in multiset(candidates);
  }

  ghost predicate ByPosition(positions: map<string, int>, pool: seq<string>) {
    && (forall x :: x in pool ==> x in positions)
    && forall i, j :: 0 <= i < j < |pool| ==> positions[pool[i]] <= positions[pool[j]]
  }

  method Insert(positions: map<string, int>, pool: seq<string>, x: string) returns (longer: seq<string>)
    requires x in positions && ByPosition(positions, pool)
    ensures multiset(longer) == multiset(pool) + multiset{x} && ByPosition(positions, longer)
  {
    var i := 0;
    while i < |pool| && positions[pool[i]] <= positions[x]
      invariant 0 <= i <= |pool|
      invariant forall k :: 0 <= k < i ==> positions[pool[k]] <= positions[x]
    {
      i := i + 1;
    }
    InsertedInOrder(positions, pool, x, i);
    longer := Inserted(pool, x, i);
  }

  function Inserted(pool: seq<string>, x: string, i: nat): seq<string>
    requires i <= |pool|
  {
    pool[..i] + [x] + pool[i..]
  }

  lemma InsertedPermutes(pool: seq<string>, x: string, i: nat)
    requires i <= |pool|
    ensures multiset(Inserted(pool, x, i)) == multiset(pool) + multiset{x}
    ensures forall y :: y in Inserted(pool, x, i) ==> y in pool || y == x
  {
    assert pool == pool[..i] + pool[i..];
  }

  lemma InsertedAt(pool: seq<string>, x: string, i: nat, k: nat)
    requires i <= |pool| && k <= |pool|
    ensures Inserted(pool, x, i)[k] == if k < i then pool[k] else if k == i then x else pool[k - 1]
  {
  }

  lemma InsertedInOrder(positions: map<string, int>, pool: seq<string>, x: string, i: nat)
    requires x in positions && ByPosition(positions, pool) && i <= |pool|
    requires (forall k :: 0 <= k < i ==> positions[pool[k]] <= positions[x]) && (i < |pool| ==> positions[x] < positions[pool[i]])
    ensures multiset(Inserted(pool, x, i)) == multiset(pool) + multiset{x} && ByPosition(positions, Inserted(pool, x, i))
  {
    var longer := Inserted(pool, x, i);
    InsertedPermutes(pool, x, i);
    assert forall y :: y in longer ==> y in positions;
    forall a, b | 0 <= a < b < |longer| ensures positions[longer[a]] <= positions[longer[b]] {
      InsertedAt(pool, x, i, a);
      InsertedAt(pool, x, i, b);
      if i < b {
        assert positions[x] < positions[pool[i]] <= positions[pool[b - 1]];
      }
    }
  }

  /** The first candidate at or after the point, wrapping around: the nearest one clockwise. */
  method ClockwiseFrom(positions: map<string, int>, point: int, candidates: seq<string>) returns (found: string)
    requires candidates != [] && 0 <= point < RING
    requires forall x :: x in candidates ==> x in positions && 0 <= positions[x] < RING
    ensures found in candidates
    ensures forall x :: x in candidates ==> Clockwise(point, positions[found]) <= Clockwise(point, positions[x])
  {
    var pool := SortByPosition(positions, candidates);
    assert candidates[0] in pool;
    var i := 0;
    while i < |pool|
      invariant 0 <= i <= |pool|
      invariant forall k :: 0 <= k < i ==> positions[pool[k]] < point
    {
      if positions[pool[i]] >= point {
        NearestFrom(positions, point, pool, i);
        return pool[i];
      }
      i := i + 1;
    }
    NearestFrom(positions, point, pool, 0);
    return pool[0];
  }

  /** In a sorted pool, the first candidate at or after the point, or the very first if there is none, is the nearest. */
  lemma NearestFrom(positions: map<string, int>, point: int, pool: seq<string>, i: nat)
    requires i < |pool| && 0 <= point < RING && forall x :: x in pool ==> x in positions && 0 <= positions[x] < RING
    requires forall a, b :: 0 <= a < b < |pool| ==> positions[pool[a]] <= positions[pool[b]]
    requires if positions[pool[i]] >= point then forall k :: 0 <= k < i ==> positions[pool[k]] < point
             else i == 0 && forall k :: 0 <= k < |pool| ==> positions[pool[k]] < point
    ensures forall x :: x in pool ==> Clockwise(point, positions[pool[i]]) <= Clockwise(point, positions[x])
  {
    forall k | 0 <= k < |pool| ensures Clockwise(point, positions[pool[i]]) <= Clockwise(point, positions[pool[k]]) {
      if k < i {
        WrapsBehind(point, positions[pool[k]], positions[pool[i]]);
      }
    }
  }

  lemma WrapsBehind(point: int, before: int, after: int)
    requires 0 <= before < point <= after < RING
    ensures Clockwise(point, after) < Clockwise(point, before)
  {
  }

  /** The first group, from number i on, that the node belongs to; -1 if there is none. */
  function GroupFrom(ms: Membership, node: string, i: nat): int
    decreases |ms.groups| - i
  {
    if i >= |ms.groups| then -1 else if node in ms.groups[i] then i else GroupFrom(ms, node, i + 1)
  }

  method GroupOf(ms: Membership, node: string) returns (g: int)
    ensures g == GroupFrom(ms, node, 0)
    ensures -1 <= g < |ms.groups| && (g >= 0 ==> node in ms.groups[g])
    ensures g == -1 ==> forall h :: 0 <= h < |ms.groups| ==> node !in ms.groups[h]
  {
    var i := 0;
    while i < |ms.groups|
      invariant 0 <= i <= |ms.groups|
      invariant forall h :: 0 <= h < i ==> node !in ms.groups[h]
      invariant GroupFrom(ms, node, 0) == GroupFrom(ms, node, i)
    {
      if node in ms.groups[i] {
        return i;
      }
      i := i + 1;
    }
    return -1;
  }

  lemma {:induction false} GroupFromFinds(ms: Membership, node: string, i: nat)
    ensures -1 <= GroupFrom(ms, node, i) < |ms.groups|
    ensures GroupFrom(ms, node, i) >= 0 ==> node in ms.groups[GroupFrom(ms, node, i)]
    decreases |ms.groups| - i
  {
    if i < |ms.groups| && node !in ms.groups[i] {
      GroupFromFinds(ms, node, i + 1);
    }
  }
}
