/** The walks over the block tree as the replicas perform them, hash by hash with a record of visited hashes,
    and what they find in a closed tree. */
module HotStuffWalk {
  import opened HotStuffTree
  import opened HotStuffCrypto

  // ---------- fetching a missing branch ----------

  function Prepend<T>(x: T, rest: Option<seq<T>>): Option<seq<T>> {
    if rest.Some? then Some([x] + rest.value) else None
  }

  function Joined<T>(front: seq<T>, rest: Option<seq<T>>): Option<seq<T>> {
    if rest.Some? then Some(front + rest.value) else None
  }

  lemma JoinedLater<T>(front: seq<T>, x: T, rest: Option<seq<T>>)
    ensures Joined(front, Prepend(x, rest)) == Joined(front + [x], rest)
  {
    assert rest.Some? ==> front + ([x] + rest.value) == front + [x] + rest.value;
  }

  lemma JoinedEnds<T>(front: seq<T>, rest: Option<seq<T>>)
    ensures Joined([], rest) == rest && Joined(front, Some([])) == Some(front)
  {
    assert rest.Some? ==> [] + rest.value == rest.value;
    assert front + [] == front;
  }

  lemma Visiting(keys: set<Hash>, visited: set<Hash>, h: Hash)
    requires h in keys && h !in visited
    ensures |keys - (visited + {h})| < |keys - visited|
  {
    assert keys - visited == (keys - (visited + {h})) + {h};
  }

  /** The nodes to fetch on the way from `current` to the tree, nearest first; none if one is missing,
      carries a wrong hash or was visited before. */
  function Missing(tree: Tree, store: Tree, current: Hash, visited: set<Hash>): Option<seq<TreeNode>>
    decreases |store.Keys - visited|
  {
    if current == Genesis then Some([])
    else if current in visited then None
    else if current in tree then Some([])
    else if current !in store || HashOf(store[current]) != store[current].hash then None
    else
      Visiting(store.Keys, visited, current);
      Prepend(store[current], Missing(tree, store, store[current].parent, visited + {current}))
  }

  /** The tree with the fetched nodes, added from the far end. */
  function Planted(tree: Tree, nodes: seq<TreeNode>): Tree {
    if nodes == [] then tree else Planted(tree, nodes[1..])[nodes[0].hash := nodes[0]]
  }

  ghost predicate Above(visited: set<Hash>, h: Hash) {
    forall x :: x in visited ==> Depth(x) > Depth(h)
  }

  /** The walk succeeds exactly when the branch is obtainable, and then adds that branch. */
  lemma {:induction false} MissingIsBranch(tree: Tree, store: Tree, current: Hash, visited: set<Hash>)
    requires StoreOk(store) && Above(visited, current)
    ensures Missing(tree, store, current, visited).Some? <==> Obtainable(tree, store, current)
    ensures Obtainable(tree, store, current) ==>
              Planted(tree, Missing(tree, store, current, visited).value) == Grown(tree, store, current)
    decreases current
  {
    if current == Genesis || current in tree || current !in store || HashOf(store[current]) != store[current].hash {
    } else {
      MissingIsBranch(tree, store, current.parent, visited + {current});
      var rest := Missing(tree, store, current.parent, visited + {current});
      if rest.Some? {
        assert ([store[current]] + rest.value)[1..] == rest.value;
      }
    }
  }

  // ---------- walking up a branch ----------

  /** The nodes from `current` up to, but not including, `goal`; none if the walk ends elsewhere. */
  function Trace(tree: Tree, current: Hash, goal: Hash, visited: set<Hash>): Option<seq<TreeNode>>
    decreases |tree.Keys - visited|
  {
    if current == goal then Some([])
    else if current == Genesis || current in visited || current !in tree then None
    else
      Visiting(tree.Keys, visited, current);
      Prepend(tree[current], Trace(tree, tree[current].parent, goal, visited + {current}))
  }

  function Commands(nodes: seq<TreeNode>): seq<Command> {
    if nodes == [] then [] else Commands(nodes[1..]) + [nodes[0].cmd]
  }

  /** In a closed tree the walk decides ancestry, and passes the commands between the two nodes. */
  lemma {:induction false} TraceIsAncestry(tree: Tree, current: Hash, goal: Hash, visited: set<Hash>)
    requires Closed(tree) && Known(tree, current) && Above(visited, current)
    ensures Trace(tree, current, goal, visited).Some? <==> Extends(current, goal)
    ensures Extends(current, goal) ==>
              Path(current) == Path(goal) + Commands(Trace(tree, current, goal, visited).value)
    ensures Extends(current, goal) && current != goal ==>
              var nodes := Trace(tree, current, goal, visited).value; nodes != [] && nodes[0].hash == current
    decreases current
  {
    if current != goal && current != Genesis {
      TraceIsAncestry(tree, current.parent, goal, visited + {current});
      var rest := Trace(tree, current.parent, goal, visited + {current});
      if rest.Some? {
        assert ([tree[current]] + rest.value)[1..] == rest.value;
      }
    }
  }

  /** The effect of executing the walked nodes from the far end. */
  lemma {:induction false} CommandsFromFarEnd(nodes: seq<TreeNode>, i: nat)
    requires i < |nodes|
    ensures Commands(nodes[i..]) == Commands(nodes[i + 1..]) + [nodes[i].cmd]
  {
    assert nodes[i..][1..] == nodes[i + 1..];
  }

  lemma PlantedFromFarEnd(tree: Tree, nodes: seq<TreeNode>, i: nat)
    requires i < |nodes|
    ensures Planted(tree, nodes[i..]) == Planted(tree, nodes[i + 1..])[nodes[i].hash := nodes[i]]
  {
    assert nodes[i..][1..] == nodes[i + 1..];
  }
}
