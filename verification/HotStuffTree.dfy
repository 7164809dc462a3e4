/** The block tree of Basic HotStuff. A hash is a term: the digest of a parent hash and a command, the
    genesis hash, or any other text. Digests are injective and never meet a cycle by construction. */
module HotStuffTree {

  type int64 = x: int | -0x8000_0000_0000_0000 <= x < 0x8000_0000_0000_0000

  datatype CommandType = Transfer | BlockAccount | ApproveLoan | Unknown(text: string)

  datatype Command = Command(id: string, kind: CommandType, from: string, to: string, amount: int64, metadata: string)

  datatype Hash = Genesis | Digest(parent: Hash, cmd: Command) | Text(text: string)

  datatype TreeNode = TreeNode(parent: Hash, cmd: Command, hash: Hash, proposedView: int)

  type Tree = map<Hash, TreeNode>

  function HashOf(node: TreeNode): Hash {
    Digest(node.parent, node.cmd)
  }

  // ---------- ancestry ----------

  /** `ancestor` is `h` or lies on the way from `h` to its root. */
  predicate Extends(h: Hash, ancestor: Hash) {
    h == ancestor || (h.Digest? && Extends(h.parent, ancestor))
  }

  lemma {:induction false} ExtendsTransitive(a: Hash, b: Hash, c: Hash)
    requires Extends(a, b) && Extends(b, c)
    ensures Extends(a, c)
  {
    if a != b {
      ExtendsTransitive(a.parent, b, c);
    }
  }

  function Depth(h: Hash): nat {
    if h.Digest? then 1 + Depth(h.parent) else 0
  }

  lemma {:induction false} DepthShrinks(h: Hash, ancestor: Hash)
    requires Extends(h, ancestor)
    ensures Depth(ancestor) <= Depth(h) && (Depth(ancestor) == Depth(h) ==> ancestor == h)
  {
    if h != ancestor {
      DepthShrinks(h.parent, ancestor);
    }
  }

  /** The commands on the way from the root to `h`. */
  function Path(h: Hash): seq<Command> {
    if h.Digest? then Path(h.parent) + [h.cmd] else []
  }

  lemma {:induction false} AncestorPathIsPrefix(h: Hash, ancestor: Hash)
    requires Extends(h, ancestor)
    ensures |Path(ancestor)| <= |Path(h)| && Path(h)[..|Path(ancestor)|] == Path(ancestor)
  {
    if h != ancestor {
      AncestorPathIsPrefix(h.parent, ancestor);
    }
  }

  // ---------- a replica's tree ----------

  /** Every node is filed under its own hash, and its parent is the genesis node or in the tree too. */
  ghost predicate Closed(tree: Tree) {
    forall h :: h in tree ==>
      && tree[h].hash == h == HashOf(tree[h])
      && (h.parent == Genesis || h.parent in tree)
  }

  ghost predicate Known(tree: Tree, h: Hash) {
    h == Genesis || h in tree
  }

  /** A closed tree holds the whole way from each of its nodes to the genesis node. */
  lemma {:induction false} ClosedHoldsAncestors(tree: Tree, h: Hash)
    requires Closed(tree) && Known(tree, h)
    ensures Extends(h, Genesis)
    ensures forall a :: Extends(h, a) ==> Known(tree, a)
  {
    if h != Genesis {
      ClosedHoldsAncestors(tree, h.parent);
    }
  }

  /** No node of a closed tree is its own proper ancestor. */
  lemma ClosedIsAcyclic(tree: Tree, h: Hash)
    requires Closed(tree) && h in tree
    ensures !Extends(tree[h].parent, h)
  {
    if Extends(h.parent, h) {
      DepthShrinks(h.parent, h);
      assert false;
    }
  }

  // ---------- the shared node store ----------

  ghost predicate StoreOk(store: Tree) {
    forall h :: h in store ==> store[h].hash == h && h != Text("")
  }

  /** The store keeps the first node it is given for a hash. */
  function Stored(store: Tree, node: TreeNode): Tree {
    if node.hash == Text("") || node.hash in store then store else store[node.hash := node]
  }

  lemma StoredOk(store: Tree, node: TreeNode)
    requires StoreOk(store)
    ensures StoreOk(Stored(store, node))
  {
  }

  /** Every node missing between `h` and the tree can be fetched and carries its own hash. */
  predicate Obtainable(tree: Tree, store: Tree, h: Hash) {
    || h == Genesis || h in tree
    || (h.Digest? && h in store && store[h].hash == HashOf(store[h]) == h && Obtainable(tree, store, h.parent))
  }

  /** The tree with the missing branch that ends in `h`. */
  function Grown(tree: Tree, store: Tree, h: Hash): Tree
    requires Obtainable(tree, store, h)
  {
    if h == Genesis || h in tree then tree else Grown(tree, store, h.parent)[h := store[h]]
  }

  /** The branch is added as a whole: the keys of the new tree are the old ones and the ancestors of `h`. */
  lemma {:induction false} GrownAddsBranch(tree: Tree, store: Tree, h: Hash)
    requires Closed(tree) && Obtainable(tree, store, h)
    ensures Closed(Grown(tree, store, h)) && Known(Grown(tree, store, h), h)
    ensures forall k :: k in tree ==> k in Grown(tree, store, h) && Grown(tree, store, h)[k] == tree[k]
    ensures forall k :: k in Grown(tree, store, h) <==> k in tree || (k != Genesis && Extends(h, k))
  {
    if h == Genesis || h in tree {
      ClosedHoldsAncestors(tree, h);
    } else {
      GrownAddsBranch(tree, store, h.parent);
    }
  }
}
