/**
 * The object graph the two chain walks follow. Every node has one outgoing
 * link, `superview` for views and `next` for responders (`None` is nil),
 * and a type name, which stands for `type(of:)`. Nothing here keeps the
 * links acyclic: a walk has to stop on its own.
 */
module Graphs {
  import opened Wrappers

  type Id = nat

  datatype Graph = Graph(link: map<Id, Option<Id>>, name: map<Id, string>) {
    /** Closed: every node has a name and links only to nodes of the graph. */
    ghost predicate Valid() {
      forall v :: v in link ==> v in name && (link[v].Some? ==> link[v].value in link)
    }
  }

  /** The node reached from `v` by following `k` links, None once nil is reached. */
  function Ancestor(g: Graph, v: Id, k: nat): (r: Option<Id>)
    requires g.Valid() && v in g.link
    ensures r.Some? ==> r.value in g.link && r.value in g.name
  {
    if k == 0 then Some(v)
    else match Ancestor(g, v, k - 1)
      case None => None
      case Some(u) => g.link[u]
  }

  /** Once the chain has ended it stays ended. */
  lemma {:induction false} AncestorNoneStays(g: Graph, v: Id, i: nat, j: nat)
    requires g.Valid() && v in g.link
    requires i <= j && Ancestor(g, v, i).None?
    ensures Ancestor(g, v, j).None?
  {
    if i < j {
      AncestorNoneStays(g, v, i, j - 1);
    }
  }

  /** A chain that reaches depth `j` passes through every depth below it. */
  lemma AncestorsBelow(g: Graph, v: Id, j: nat)
    requires g.Valid() && v in g.link
    requires Ancestor(g, v, j).Some?
    ensures forall k :: 0 <= k <= j ==> Ancestor(g, v, k).Some?
  {
    forall k | 0 <= k <= j ensures Ancestor(g, v, k).Some? {
      if Ancestor(g, v, k).None? {
        AncestorNoneStays(g, v, k, j);
      }
    }
  }

  /** The number of nodes on the chain from `v`, counted up to `bound`. */
  function Reach(g: Graph, v: Id, bound: nat): (n: nat)
    requires g.Valid() && v in g.link
    ensures n <= bound
    ensures forall k :: 0 <= k < n ==> Ancestor(g, v, k).Some?
    ensures n < bound ==> Ancestor(g, v, n).None?
  {
    if bound == 0 then 0
    else if Ancestor(g, v, bound - 1).Some? then AncestorsBelow(g, v, bound - 1); bound
    else Reach(g, v, bound - 1)
  }

  lemma ReachIs(g: Graph, v: Id, bound: nat, n: nat)
    requires g.Valid() && v in g.link
    requires n <= bound
    requires forall k :: 0 <= k < n ==> Ancestor(g, v, k).Some?
    requires n < bound ==> Ancestor(g, v, n).None?
    ensures Reach(g, v, bound) == n
  {
  }

  /** The chain from `v` holds exactly `n` nodes: v itself and n - 1 links, then nil. */
  ghost predicate ChainLength(g: Graph, v: Id, n: nat)
    requires g.Valid() && v in g.link
  {
    1 <= n && (forall k :: 0 <= k < n ==> Ancestor(g, v, k).Some?) && Ancestor(g, v, n).None?
  }

  /** A node that is its own parent has an endless chain. */
  lemma {:induction false} SelfLinkEndless(g: Graph, v: Id, k: nat)
    requires g.Valid() && v in g.link && g.link[v] == Some(v)
    ensures Ancestor(g, v, k) == Some(v)
  {
    if k > 0 {
      SelfLinkEndless(g, v, k - 1);
    }
  }
}
