/** Following parent links from a head to a root, over any finite set of nodes. */
module ParentWalk {
  import opened Wrappers

  /** A link per node: None marks a root. */
  type Links<K> = map<K, Option<K>>

  /** The walked path, head first, and how it ended: at a root, or at a node missing or met before. */
  datatype Walked<K> = Rooted(path: seq<K>) | Broken(path: seq<K>, at: K)

  function Elems<K>(path: seq<K>): set<K> {
    set k | k in path
  }

  function Walk<K>(links: Links<K>, path: seq<K>, cur: K): Walked<K>
    decreases links.Keys - Elems(path)
  {
    if cur !in links || cur in path then Broken(path, cur)
    else if links[cur] == None then Rooted(path + [cur])
    else
      assert cur in links.Keys - Elems(path) && cur !in links.Keys - Elems(path + [cur]);
      Walk(links, path + [cur], links[cur].value)
  }

  /** A duplicate-free path from head in which every node links to the next. */
  ghost predicate Chain<K>(links: Links<K>, head: K, path: seq<K>) {
    && (path != [] ==> path[0] == head)
    && (forall i :: 0 <= i < |path| ==> path[i] in links)
    && (forall i {:trigger path[i]} :: 0 <= i < |path| - 1 ==> links[path[i]] == Some(path[i + 1]))
    && (forall i, j :: 0 <= i < j < |path| ==> path[i] != path[j])
  }

  /** A chain that ends at a root. */
  ghost predicate ToRoot<K>(links: Links<K>, head: K, path: seq<K>) {
    path != [] && Chain(links, head, path) && links[path[|path| - 1]] == None
  }

  /** A chain whose next node is missing or already on it. */
  ghost predicate ToBreak<K>(links: Links<K>, head: K, path: seq<K>, at: K) {
    && Chain(links, head, path)
    && (at !in links || at in path)
    && (if path == [] then at == head else links[path[|path| - 1]] == Some(at))
  }

  lemma {:induction false} WalkFrom<K>(links: Links<K>, head: K, path: seq<K>, cur: K)
    requires Chain(links, head, path)
    requires if path == [] then cur == head else links[path[|path| - 1]] == Some(cur)
    ensures Walk(links, path, cur).Rooted? ==> ToRoot(links, head, Walk(links, path, cur).path)
    ensures Walk(links, path, cur).Broken? ==>
              ToBreak(links, head, Walk(links, path, cur).path, Walk(links, path, cur).at)
    decreases links.Keys - Elems(path)
  {
    if cur in links && cur !in path && links[cur].Some? {
      assert cur in links.Keys - Elems(path) && cur !in links.Keys - Elems(path + [cur]);
      WalkFrom(links, head, path + [cur], links[cur].value);
    }
  }

  /** Two chains from one head agree as far as both reach. */
  lemma {:induction false} ChainsAgree<K>(links: Links<K>, head: K, p: seq<K>, q: seq<K>, i: nat)
    requires Chain(links, head, p) && Chain(links, head, q)
    requires i < |p| && i < |q|
    ensures p[i] == q[i]
  {
    if i > 0 {
      ChainsAgree(links, head, p, q, i - 1);
    }
  }

  /** No chain from the head runs past one that ends at a root. */
  lemma RootEndsAll<K>(links: Links<K>, head: K, q: seq<K>, p: seq<K>)
    requires ToRoot(links, head, q) && Chain(links, head, p)
    ensures p <= q
  {
    forall i | 0 <= i < |q| && i < |p| ensures p[i] == q[i] {
      ChainsAgree(links, head, p, q, i);
    }
  }

  /**
   The walk ends at a root exactly when some chain from the head does, and then it is that chain, the only one;
   otherwise it stops at the one node where the chain is missing or comes back on itself.
   */
  lemma WalkIsTheChain<K(!new)>(links: Links<K>, head: K)
    ensures forall q :: ToRoot(links, head, q) <==> Walk(links, [], head) == Rooted(q)
    ensures Walk(links, [], head).Broken? ==>
              ToBreak(links, head, Walk(links, [], head).path, Walk(links, [], head).at)
  {
    WalkFrom(links, head, [], head);
    var w := Walk(links, [], head);
    forall q | ToRoot(links, head, q)
      ensures w == Rooted(q)
    {
      RootEndsAll(links, head, q, w.path);
      if w.Rooted? {
        RootEndsAll(links, head, w.path, q);
      }
    }
  }
}
