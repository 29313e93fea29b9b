/** Mutable sequences (src/core/lwt_sequence.ml): doubly linked rings through a sentinel, whose nodes
    can be removed at any time, also while the ring is being traversed.

    Cells are named by references; the mutable fields of all cells are maps from references, so that
    a write through one ring is seen by every other holder of the cell. */
module SequenceRing {

  import opened Common

  type Ref = nat

  datatype Links = Links(prev: map<Ref, Ref>, next: map<Ref, Ref>, active: set<Ref>)

  /** The ring of `head` laid open: the sentinel, the nodes, and the sentinel again. */
  function Open(head: Ref, nodes: seq<Ref>): (s: seq<Ref>)
    ensures |s| == |nodes| + 2 && s[0] == s[|s| - 1] == head
    ensures forall i :: 0 < i < |s| - 1 ==> s[i] == nodes[i - 1]
  {
    [head] + nodes + [head]
  }

  ghost predicate Distinct(s: seq<Ref>) {
    forall i, k :: 0 <= i < k < |s| ==> s[i] != s[k]
  }

  ghost predicate LinkedRight(next: map<Ref, Ref>, open: seq<Ref>) {
    forall i :: 0 <= i < |open| - 1 ==> open[i] in next && next[open[i]] == open[i + 1]
  }

  ghost predicate LinkedLeft(prev: map<Ref, Ref>, open: seq<Ref>) {
    forall i :: 0 < i < |open| ==> open[i] in prev && prev[open[i]] == open[i - 1]
  }

  /** `head` is the sentinel of a ring whose nodes are `nodes`, from left to right. */
  ghost predicate Ring(l: Links, head: Ref, nodes: seq<Ref>) {
    && head !in nodes && Distinct(nodes) && head !in l.active
    && (forall i :: 0 <= i < |nodes| ==> nodes[i] in l.active)
    && LinkedRight(l.next, Open(head, nodes)) && LinkedLeft(l.prev, Open(head, nodes))
  }

  /** Cells outside `changed` are as before. */
  ghost predicate Unchanged(l: Links, l': Links, changed: set<Ref>) {
    && l.next.Keys <= l'.next.Keys && l.prev.Keys <= l'.prev.Keys
    && (forall x :: x in l.next && x !in changed ==> l'.next[x] == l.next[x])
    && (forall x :: x in l.prev && x !in changed ==> l'.prev[x] == l.prev[x])
    && (forall x :: x !in changed ==> (x in l'.active <==> x in l.active))
  }

  lemma UnchangedSelf(l: Links, changed: set<Ref>)
    ensures Unchanged(l, l, changed)
  {
  }

  /** The cells of a ring. */
  ghost function Cells(head: Ref, nodes: seq<Ref>): set<Ref> {
    {head} + set n | n in nodes
  }

  /** A ring that shares no cell with what changed is still the same ring. */
  lemma RingFrame(l: Links, l': Links, changed: set<Ref>, head: Ref, nodes: seq<Ref>)
    requires Ring(l, head, nodes) && Unchanged(l, l', changed)
    requires head !in changed && forall i :: 0 <= i < |nodes| ==> nodes[i] !in changed
    ensures Ring(l', head, nodes)
  {
  }

  /** A ring determines its nodes. */
  lemma {:induction false} RingUnique(l: Links, head: Ref, a: seq<Ref>, b: seq<Ref>, n: nat)
    requires Ring(l, head, a) && Ring(l, head, b) && n <= |a| && n <= |b|
    ensures a[..n] == b[..n]
  {
    if n > 0 {
      RingUnique(l, head, a, b, n - 1);
      assert Open(head, a)[n - 1] == Open(head, b)[n - 1] by {
        if n > 1 {
          assert a[..n - 1][n - 2] == b[..n - 1][n - 2];
        }
      }
      assert Open(head, a)[n] == Open(head, b)[n];
      assert a[..n] == a[..n - 1] + [a[n - 1]] && b[..n] == b[..n - 1] + [b[n - 1]];
    }
  }

  lemma RingEnds(l: Links, head: Ref, nodes: seq<Ref>)
    requires Ring(l, head, nodes)
    ensures head in l.next && head in l.prev && head !in nodes
    ensures nodes == [] ==> l.next[head] == head && l.prev[head] == head
    ensures nodes != [] ==> l.next[head] == nodes[0] && l.prev[head] == nodes[|nodes| - 1] && nodes[0] in l.active &&
                            nodes[|nodes| - 1] in l.active
    ensures l.next[head] in l.prev && l.prev[l.next[head]] == head
    ensures l.prev[head] in l.next && l.next[l.prev[head]] == head
  {
    var o := Open(head, nodes);
    assert l.next[o[0]] == o[0 + 1] && l.prev[o[|o| - 1]] == o[|o| - 1 - 1];
    assert l.prev[o[1]] == o[1 - 1] && l.next[o[|o| - 2]] == o[|o| - 2 + 1];
  }

  lemma OpenInsert(head: Ref, nodes: seq<Ref>, i: nat, node: Ref)
    requires i <= |nodes| && head !in nodes && Distinct(nodes) && node !in nodes && node != head
    ensures
      var o := Open(head, nodes);
      var nodes' := nodes[..i] + [node] + nodes[i..];
      var p := Open(head, nodes');
      && head !in nodes' && Distinct(nodes')
      && forall k {:trigger p[k]} :: 0 <= k < |p| ==>
           p[k] == if k <= i then o[k] else if k == i + 1 then node else o[k - 1]
  {
  }

  /** No cell comes twice in a ring laid open, but for the sentinel at both ends. */
  ghost predicate Simple(o: seq<Ref>) {
    forall i, k :: 0 <= i < k < |o| && o[i] == o[k] ==> i == 0 && k == |o| - 1
  }

  lemma InsertRight(next: map<Ref, Ref>, o: seq<Ref>, p: seq<Ref>, i: nat, node: Ref)
    requires LinkedRight(next, o) && Simple(o) && i < |o| - 1 && node !in next && |p| == |o| + 1
    requires forall k {:trigger p[k]} :: 0 <= k < |p| ==>
               p[k] == if k <= i then o[k] else if k == i + 1 then node else o[k - 1]
    ensures LinkedRight(next[node := o[i + 1]][o[i] := node], p)
  {
    var next' := next[node := o[i + 1]][o[i] := node];
    forall k | 0 <= k < |p| - 1 ensures p[k] in next' && next'[p[k]] == p[k + 1] {
      assert o[i] in next && p[k + 1] == if k + 1 <= i then o[k + 1] else if k == i then node else o[k];
      if k != i + 1 {
        var m := if k <= i then k else k - 1;
        assert p[k] == o[m] && o[m] in next && next[o[m]] == o[m + 1] && (m != i ==> o[m] != o[i]);
      }
    }
  }

  lemma InsertLeft(prev: map<Ref, Ref>, o: seq<Ref>, p: seq<Ref>, i: nat, node: Ref)
    requires LinkedLeft(prev, o) && Simple(o) && i < |o| - 1 && node !in prev && |p| == |o| + 1
    requires forall k {:trigger p[k]} :: 0 <= k < |p| ==>
               p[k] == if k <= i then o[k] else if k == i + 1 then node else o[k - 1]
    ensures LinkedLeft(prev[node := o[i]][o[i + 1] := node], p)
  {
    var prev' := prev[node := o[i]][o[i + 1] := node];
    forall k | 0 < k < |p| ensures p[k] in prev' && prev'[p[k]] == p[k - 1] {
      assert o[i + 1] in prev && p[k - 1] == if k - 1 <= i then o[k - 1] else if k - 1 == i + 1 then node else o[k - 2];
      if k != i + 1 {
        var m := if k <= i then k else k - 1;
        assert p[k] == o[m] && o[m] in prev && prev[o[m]] == o[m - 1] && (m != i + 1 ==> o[m] != o[i + 1]);
      }
    }
  }

  lemma NotInRing(l: Links, head: Ref, nodes: seq<Ref>, node: Ref)
    requires Ring(l, head, nodes) && node !in l.next
    ensures node !in nodes && node != head
  {
    forall k | 0 <= k < |nodes| ensures nodes[k] in l.next {
      assert Open(head, nodes)[k + 1] in l.next;
    }
    assert Open(head, nodes)[0] in l.next;
  }

  lemma InsertLinked(l: Links, l': Links, head: Ref, nodes: seq<Ref>, i: nat, node: Ref)
    requires Ring(l, head, nodes) && i <= |nodes| && node !in l.next && node !in l.prev && node !in l.active
    requires
      var o := Open(head, nodes);
      && l'.next == l.next[node := o[i + 1]][o[i] := node]
      && l'.prev == l.prev[node := o[i]][o[i + 1] := node]
      && l'.active == l.active + {node}
    ensures Ring(l', head, nodes[..i] + [node] + nodes[i..])
  {
    var o := Open(head, nodes);
    var p := Open(head, nodes[..i] + [node] + nodes[i..]);
    NotInRing(l, head, nodes, node);
    OpenInsert(head, nodes, i, node);
    OpenDistinct(head, nodes);
    InsertRight(l.next, o, p, i, node);
    InsertLeft(l.prev, o, p, i, node);
    hide LinkedRight, LinkedLeft, Open, Distinct, Simple;
  }

  lemma OpenDistinct(head: Ref, nodes: seq<Ref>)
    requires head !in nodes && Distinct(nodes)
    ensures Simple(Open(head, nodes))
  {
  }

  lemma DeleteRight(next: map<Ref, Ref>, o: seq<Ref>, p: seq<Ref>, i: nat)
    requires LinkedRight(next, o) && Simple(o) && i < |o| - 2 && |p| == |o| - 1
    requires forall k {:trigger p[k]} :: 0 <= k < |p| ==> p[k] == if k <= i then o[k] else o[k + 1]
    ensures LinkedRight(next[o[i] := o[i + 2]], p)
  {
    var next' := next[o[i] := o[i + 2]];
    forall k | 0 <= k < |p| - 1 ensures p[k] in next' && next'[p[k]] == p[k + 1] {
      var m := if k <= i then k else k + 1;
      assert p[k] == o[m] && p[k + 1] == if k + 1 <= i then o[k + 1] else o[k + 2];
      assert o[m] in next && next[o[m]] == o[m + 1] && (m != i ==> o[m] != o[i]);
    }
  }

  lemma DeleteLeft(prev: map<Ref, Ref>, o: seq<Ref>, p: seq<Ref>, i: nat)
    requires LinkedLeft(prev, o) && Simple(o) && i < |o| - 2 && |p| == |o| - 1
    requires forall k {:trigger p[k]} :: 0 <= k < |p| ==> p[k] == if k <= i then o[k] else o[k + 1]
    ensures LinkedLeft(prev[o[i + 2] := o[i]], p)
  {
    var prev' := prev[o[i + 2] := o[i]];
    forall k | 0 < k < |p| ensures p[k] in prev' && prev'[p[k]] == p[k - 1] {
      var m := if k <= i then k else k + 1;
      assert p[k] == o[m] && p[k - 1] == if k - 1 <= i then o[k - 1] else o[k];
      assert o[m] in prev && prev[o[m]] == o[m - 1] && (m != i + 2 ==> o[m] != o[i + 2]);
    }
  }

  lemma OpenDelete(head: Ref, nodes: seq<Ref>, i: nat)
    requires i < |nodes| && head !in nodes && Distinct(nodes)
    ensures
      var o := Open(head, nodes);
      var nodes' := nodes[..i] + nodes[i + 1..];
      var p := Open(head, nodes');
      && head !in nodes' && Distinct(nodes') && nodes[i] !in nodes'
      && (forall k :: 0 <= k < |nodes'| ==> nodes'[k] in nodes)
      && forall k {:trigger p[k]} :: 0 <= k < |p| ==> p[k] == if k <= i then o[k] else o[k + 1]
  {
  }

  lemma DeleteLinked(l: Links, l': Links, head: Ref, nodes: seq<Ref>, i: nat)
    requires Ring(l, head, nodes) && i < |nodes|
    requires
      var o := Open(head, nodes);
      && l'.next == l.next[o[i] := o[i + 2]] && l'.prev == l.prev[o[i + 2] := o[i]]
      && l'.active == l.active - {nodes[i]}
    ensures Ring(l', head, nodes[..i] + nodes[i + 1..])
  {
    var o := Open(head, nodes);
    var p := Open(head, nodes[..i] + nodes[i + 1..]);
    OpenDelete(head, nodes, i);
    OpenDistinct(head, nodes);
    DeleteRight(l.next, o, p, i);
    DeleteLeft(l.prev, o, p, i);
    hide LinkedRight, LinkedLeft, Open, Distinct, Simple;
  }

  class Store<T> {
    var links: Links
    var data: map<Ref, T>

    constructor ()
      ensures links == Links(map[], map[], {}) && data == map[]
    {
      links, data := Links(map[], map[], {}), map[];
    }

    /** `create`; `head` stands for the newly allocated cell. */
    method Create(head: Ref)
      requires head !in links.next && head !in links.prev && head !in links.active
      modifies this`links
      ensures Ring(links, head, []) && Unchanged(old(links), links, {head})
    {
      links := links.(prev := links.prev[head := head], next := links.next[head := head]);
    }

    method IsEmpty(head: Ref, ghost nodes: seq<Ref>) returns (b: bool)
      requires Ring(links, head, nodes)
      ensures b <==> nodes == []
    {
      RingEnds(links, head, nodes);
      b := links.next[head] == head;
    }

    /** `add_l`; `node` stands for the newly allocated cell. */
    method AddL(x: T, head: Ref, node: Ref, ghost nodes: seq<Ref>)
      requires Ring(links, head, nodes)
      requires node !in links.next && node !in links.prev && node !in links.active
      modifies this
      ensures Ring(links, head, [node] + nodes) && data == old(data)[node := x]
      ensures Unchanged(old(links), links, {node} + Cells(head, nodes))
    {
      ghost var o, l := Open(head, nodes), links;
      assert l.next[head] == o[0 + 1];
      links := links.(prev := links.prev[node := head], next := links.next[node := links.next[head]],
                      active := links.active + {node});
      data := data[node := x];
      links := links.(prev := links.prev[links.next[head] := node]);
      links := links.(next := links.next[head := node]);
      InsertLinked(l, links, head, nodes, 0, node);
      assert nodes[..0] + [node] + nodes[0..] == [node] + nodes;
    }

    method AddR(x: T, head: Ref, node: Ref, ghost nodes: seq<Ref>)
      requires Ring(links, head, nodes)
      requires node !in links.next && node !in links.prev && node !in links.active
      modifies this
      ensures Ring(links, head, nodes + [node]) && data == old(data)[node := x]
      ensures Unchanged(old(links), links, {node} + Cells(head, nodes))
    {
      ghost var o, l := Open(head, nodes), links;
      assert l.prev[head] == o[|nodes|];
      links := links.(prev := links.prev[node := links.prev[head]], next := links.next[node := head],
                      active := links.active + {node});
      data := data[node := x];
      links := links.(next := links.next[links.prev[head] := node]);
      links := links.(prev := links.prev[head := node]);
      InsertLinked(l, links, head, nodes, |nodes|, node);
      assert nodes[..|nodes|] + [node] + nodes[|nodes|..] == nodes + [node];
    }

    /** `remove`: takes a node out of its ring, and does nothing if that was done before.  The node
        keeps its own links. */
    method Remove(node: Ref, ghost head: Ref, ghost nodes: seq<Ref>, ghost i: nat)
      requires Ring(links, head, nodes)
      requires node in links.active ==> i < |nodes| && nodes[i] == node
      modifies this`links
      ensures node !in old(links).active ==> links == old(links)
      ensures node in old(links).active ==>
                && Ring(links, head, nodes[..i] + nodes[i + 1..])
                && links.active == old(links).active - {node}
                && links.next == old(links).next[Open(head, nodes)[i] := Open(head, nodes)[i + 2]]
                && links.prev == old(links).prev[Open(head, nodes)[i + 2] := Open(head, nodes)[i]]
      ensures Unchanged(old(links), links, Cells(head, nodes))
    {
      if node in links.active {
        ghost var o, l := Open(head, nodes), links;
        assert node == o[i + 1] && l.prev[o[i + 1]] == o[i] && l.next[o[i + 1]] == o[i + 2];
        OpenDistinct(head, nodes);
        links := links.(active := links.active - {node});
        links := links.(next := links.next[links.prev[node] := links.next[node]]);
        links := links.(prev := links.prev[links.next[node] := links.prev[node]]);
        DeleteLinked(l, links, head, nodes, i);
      }
    }

    method TakeOptL(head: Ref, ghost nodes: seq<Ref>) returns (x: Option<T>)
      requires Ring(links, head, nodes) && links.active <= data.Keys
      modifies this`links
      ensures if nodes == [] then x == None && links == old(links)
              else x == Some(data[nodes[0]]) && Ring(links, head, nodes[1..]) &&
                   links.active == old(links).active - {nodes[0]}
      ensures Unchanged(old(links), links, Cells(head, nodes))
      ensures links.active <= data.Keys
    {
      hide Ring, Unchanged, Cells, Open;
      RingEnds(links, head, nodes);
      UnchangedSelf(links, Cells(head, nodes));
      var empty := IsEmpty(head, nodes);
      if empty {
        x := None;
      } else {
        var node := links.next[head];
        Remove(node, head, nodes, 0);
        assert nodes[..0] + nodes[1..] == nodes[1..];
        x := Some(data[node]);
      }
    }

    method TakeOptR(head: Ref, ghost nodes: seq<Ref>) returns (x: Option<T>)
      requires Ring(links, head, nodes) && links.active <= data.Keys
      modifies this`links
      ensures if nodes == [] then x == None && links == old(links)
              else x == Some(data[nodes[|nodes| - 1]]) && Ring(links, head, nodes[..|nodes| - 1]) &&
                   links.active == old(links).active - {nodes[|nodes| - 1]}
      ensures Unchanged(old(links), links, Cells(head, nodes))
      ensures links.active <= data.Keys
    {
      hide Ring, Unchanged, Cells, Open;
      RingEnds(links, head, nodes);
      UnchangedSelf(links, Cells(head, nodes));
      var empty := IsEmpty(head, nodes);
      if empty {
        x := None;
      } else {
        var node := links.prev[head];
        Remove(node, head, nodes, |nodes| - 1);
        assert nodes[..|nodes| - 1] + nodes[|nodes|..] == nodes[..|nodes| - 1];
        x := Some(data[node]);
      }
    }

    /** `transfer_l`: the nodes of the first ring go to the left of those of the second. */
    method TransferL(s1: Ref, s2: Ref, ghost a: seq<Ref>, ghost b: seq<Ref>)
      requires Ring(links, s1, a) && Ring(links, s2, b) && Apart(s1, a, s2, b)
      modifies this`links
      ensures Ring(links, s1, []) && Ring(links, s2, a + b) && links.active == old(links).active
      ensures Unchanged(old(links), links, Cells(s1, a) + Cells(s2, b))
    {
      hide Ring, Unchanged, Cells, Open;
      RingEnds(links, s1, a);
      RingEnds(links, s2, b);
      OpenEnds(s2, b);
      ghost var l := links;
      links := links.(prev := links.prev[links.next[s2] := links.prev[s1]]);
      links := links.(next := links.next[links.prev[s1] := links.next[s2]]);
      links := links.(next := links.next[s2 := links.next[s1]]);
      links := links.(prev := links.prev[links.next[s1] := s2]);
      links := links.(prev := links.prev[s1 := s1]);
      links := links.(next := links.next[s1 := s1]);
      if a == [] {
        TransferredNone(l, links, s1, s2, b);
        assert a + b == b;
      } else {
        Spliced(l, links, s1, s2, a, b, 0);
        assert b[..0] + a + b[0..] == a + b;
      }
    }

    /** `transfer_r`: the nodes of the first ring go to the right of those of the second. */
    method TransferR(s1: Ref, s2: Ref, ghost a: seq<Ref>, ghost b: seq<Ref>)
      requires Ring(links, s1, a) && Ring(links, s2, b) && Apart(s1, a, s2, b)
      modifies this`links
      ensures Ring(links, s1, []) && Ring(links, s2, b + a) && links.active == old(links).active
      ensures Unchanged(old(links), links, Cells(s1, a) + Cells(s2, b))
    {
      hide Ring, Unchanged, Cells, Open;
      RingEnds(links, s1, a);
      RingEnds(links, s2, b);
      OpenEnds(s2, b);
      ghost var l := links;
      links := links.(next := links.next[links.prev[s2] := links.next[s1]]);
      links := links.(prev := links.prev[links.next[s1] := links.prev[s2]]);
      links := links.(prev := links.prev[s2 := links.prev[s1]]);
      links := links.(next := links.next[links.prev[s1] := s2]);
      links := links.(prev := links.prev[s1 := s1]);
      links := links.(next := links.next[s1 := s1]);
      if a == [] {
        TransferredNone(l, links, s1, s2, b);
        assert b + a == b;
      } else {
        Spliced(l, links, s1, s2, a, b, |b|);
        assert b[..|b|] + a + b[|b|..] == b + a;
      }
    }

    /** Removes the nodes `rs` one after the other in the middle of a traversal. */
    method RemoveAll(rs: seq<Ref>, ghost head: Ref, ghost nodes: seq<Ref>, ghost idx: seq<nat>, ghost succ: seq<nat>)
      returns (ghost idx': seq<nat>, ghost succ': seq<nat>)
      requires Trail(links, head, nodes, idx, succ) && forall i :: 0 <= i < |rs| ==> rs[i] in nodes
      modifies this`links
      ensures Trail(links, head, nodes, idx', succ')
      ensures forall p :: 0 <= p < |nodes| ==> (p in idx' <==> p in idx && nodes[p] !in rs)
    {
      hide Trail, Ring, WithoutIndex, Relinked;
      idx', succ' := idx, succ;
      for i := 0 to |rs|
        invariant Trail(links, head, nodes, idx', succ')
        invariant forall p :: 0 <= p < |nodes| ==> (p in idx' <==> p in idx && nodes[p] !in rs[..i])
      {
        ghost var l, n: nat := links, 0;
        ghost var p :| 0 <= p < |nodes| && nodes[p] == rs[i];
        if p in idx' {
          n :| 0 <= n < |idx'| && idx'[n] == p;
        }
        TrailActive(l, head, nodes, idx', succ', p);
        Remove(rs[i], head, Left(nodes, idx'), n);
        if p in idx' {
          TrailRemove(l, links, head, nodes, idx', succ', n);
          idx', succ' := WithoutIndex(idx', n), Relinked(idx', succ', n);
        }
        forall q | 0 <= q < |nodes| ensures nodes[q] in rs[..i + 1] <==> nodes[q] in rs[..i] || q == p {
          assert rs[..i + 1] == rs[..i] + [rs[i]];
        }
      }
      assert rs[..|rs|] == rs;
    }

    /** `iter_l` and `fold_l`, for a visitor that after visiting `v1, ..., vn` removes the nodes
        `plan([v1, ..., vn])`: whatever it removes, the traversal ends, it has visited in order
        exactly the nodes that were still in the ring when their turn came, and what it did not
        remove is still in the ring, in order. */
    method IterL(head: Ref, plan: seq<Ref> -> seq<Ref>, ghost nodes: seq<Ref>)
      returns (visited: seq<Ref>, ghost idx: seq<nat>, ghost succ: seq<nat>)
      requires Ring(links, head, nodes)
      requires forall t, i :: 0 <= i < |plan(t)| ==> plan(t)[i] in nodes
      modifies this`links
      ensures visited == Visits(nodes, [], plan)
      ensures Trail(links, head, nodes, idx, succ)
      ensures forall p :: 0 <= p < |nodes| ==> (p in idx <==> nodes[p] !in Removals(visited, plan))
    {
      hide Trail, Ring, Distinct, Visits, Removals, From, Target;
      idx, succ := From(0, |nodes|), From(1, |nodes|);
      ghost var k := 0;
      TrailStart(links, head, nodes);
      RingEnds(links, head, nodes);
      VisitStart(plan);
      assert nodes[0..] == nodes;
      var curr := links.next[head];
      visited := [];
      while curr != head
        invariant 0 <= k <= |nodes| && curr == if k == |nodes| then head else nodes[k]
        invariant Trail(links, head, nodes, idx, succ)
        invariant forall p :: 0 <= p < |nodes| ==> (p in idx <==> nodes[p] !in Removals(visited, plan))
        invariant Visits(nodes[k..], visited, plan) == Visits(nodes, [], plan)
        decreases |nodes| - k
      {
        TrailActive(links, head, nodes, idx, succ, k);
        VisitNext(nodes, k, visited, plan);
        if curr in links.active {
          visited := visited + [curr];
          var rs := plan(visited);
          idx, succ := RemoveAll(rs, head, nodes, idx, succ);
        }
        TrailNext(links, head, nodes, idx, succ, k);
        SkipRemoved(nodes, k + 1, succ[k], visited, plan);
        curr := links.next[curr];
        k := succ[k];
      }
      TrailHead(links, head, nodes, idx, succ);
      VisitEnd(nodes[k..], visited, plan);
    }
  }

  // ------------------------------------------------------------------------------------------
  // Traversal
  // ------------------------------------------------------------------------------------------

  /** The nodes a visitor has removed when it has seen `visited`. */
  ghost function Removals(visited: seq<Ref>, plan: seq<Ref> -> seq<Ref>): set<Ref> {
    if visited == [] then {}
    else Removals(visited[..|visited| - 1], plan) + set r | r in plan(visited)
  }

  /** The nodes that the visitor has seen when it has gone through `ns` after `visited`. */
  ghost function Visits(ns: seq<Ref>, visited: seq<Ref>, plan: seq<Ref> -> seq<Ref>): seq<Ref> {
    if ns == [] then visited
    else if ns[0] in Removals(visited, plan) then Visits(ns[1..], visited, plan)
    else Visits(ns[1..], visited + [ns[0]], plan)
  }

  lemma VisitStart(plan: seq<Ref> -> seq<Ref>)
    ensures Removals([], plan) == {}
  {
  }

  lemma VisitNext(ns: seq<Ref>, i: nat, visited: seq<Ref>, plan: seq<Ref> -> seq<Ref>)
    requires i < |ns|
    ensures Visits(ns[i..], visited, plan) ==
            if ns[i] in Removals(visited, plan) then Visits(ns[i + 1..], visited, plan)
            else Visits(ns[i + 1..], visited + [ns[i]], plan)
    ensures forall x :: x in Removals(visited + [ns[i]], plan) <==>
                        x in Removals(visited, plan) || x in plan(visited + [ns[i]])
  {
    assert ns[i..][0] == ns[i] && ns[i..][1..] == ns[i + 1..];
    assert (visited + [ns[i]])[..|visited|] == visited;
  }

  lemma VisitEnd(ns: seq<Ref>, visited: seq<Ref>, plan: seq<Ref> -> seq<Ref>)
    requires ns == []
    ensures Visits(ns, visited, plan) == visited
  {
  }

  lemma {:induction false} SkipRemoved(ns: seq<Ref>, i: nat, k: nat, visited: seq<Ref>, plan: seq<Ref> -> seq<Ref>)
    requires i <= k <= |ns| && forall m :: i <= m < k ==> ns[m] in Removals(visited, plan)
    ensures Visits(ns[i..], visited, plan) == Visits(ns[k..], visited, plan)
    decreases k - i
  {
    if i < k {
      VisitNext(ns, i, visited, plan);
      SkipRemoved(ns, i + 1, k, visited, plan);
    }
  }

  /** The nodes of the ring at the positions `idx` of the original list. */
  ghost function Left(nodes: seq<Ref>, idx: seq<nat>): (r: seq<Ref>)
    requires forall i :: 0 <= i < |idx| ==> idx[i] < |nodes|
    ensures |r| == |idx| && forall i :: 0 <= i < |r| ==> r[i] == nodes[idx[i]]
  {
    seq(|idx|, i requires 0 <= i < |idx| => nodes[idx[i]])
  }

  ghost function Target(head: Ref, nodes: seq<Ref>, p: nat): Ref
    requires p <= |nodes|
  {
    if p == |nodes| then head else nodes[p]
  }

  ghost predicate Positions(nodes: seq<Ref>, idx: seq<nat>) {
    && (forall i :: 0 <= i < |idx| ==> idx[i] < |nodes|)
    && (forall i, k :: 0 <= i < k < |idx| ==> idx[i] < idx[k])
  }

  ghost predicate Presence(active: set<Ref>, nodes: seq<Ref>, idx: seq<nat>) {
    forall p :: 0 <= p < |nodes| ==> (nodes[p] in active <==> p in idx)
  }

  /** Every node, removed or not, points to the right, over removed nodes only: node `p` to node `succ[p]`. */
  ghost predicate Steps(next: map<Ref, Ref>, head: Ref, nodes: seq<Ref>, idx: seq<nat>, succ: seq<nat>) {
    && |succ| == |nodes|
    && (forall p :: 0 <= p < |succ| ==> p < succ[p] <= |nodes|)
    && (forall p :: 0 <= p < |succ| ==> nodes[p] in next && next[nodes[p]] == Target(head, nodes, succ[p]))
    && (forall p, m :: 0 <= p < |succ| && p < m < succ[p] ==> m !in idx)
  }

  /** In the middle of a traversal the nodes at the positions `idx` are left. */
  ghost predicate Trail(l: Links, head: Ref, nodes: seq<Ref>, idx: seq<nat>, succ: seq<nat>) {
    && head !in nodes && Distinct(nodes) && Positions(nodes, idx) && Ring(l, head, Left(nodes, idx))
    && Presence(l.active, nodes, idx) && Steps(l.next, head, nodes, idx, succ)
  }

  ghost function From(start: nat, n: nat): (r: seq<nat>)
    ensures |r| == n && forall i :: 0 <= i < n ==> r[i] == start + i
  {
    seq(n, i => start + i)
  }

  lemma StepsStart(l: Links, head: Ref, nodes: seq<Ref>)
    requires Ring(l, head, nodes)
    ensures Steps(l.next, head, nodes, From(0, |nodes|), From(1, |nodes|))
  {
    forall p | 0 <= p < |nodes| ensures nodes[p] in l.next && l.next[nodes[p]] == Target(head, nodes, p + 1) {
      var o := Open(head, nodes);
      assert o[p + 1] == nodes[p] && l.next[o[p + 1]] == o[p + 1 + 1];
    }
    hide Ring, Target;
  }

  lemma TrailStart(l: Links, head: Ref, nodes: seq<Ref>)
    requires Ring(l, head, nodes)
    ensures Trail(l, head, nodes, From(0, |nodes|), From(1, |nodes|))
    ensures forall p :: 0 <= p < |nodes| ==> p in From(0, |nodes|)
  {
    hide LinkedLeft, LinkedRight, Distinct, Steps;
    var idx := From(0, |nodes|);
    StepsStart(l, head, nodes);
    assert forall p :: 0 <= p < |nodes| ==> idx[p] in idx;
    assert Left(nodes, idx) == nodes;
    assert Presence(l.active, nodes, idx);
    hide Presence;
  }

  lemma TrailActive(l: Links, head: Ref, nodes: seq<Ref>, idx: seq<nat>, succ: seq<nat>, p: nat)
    requires Trail(l, head, nodes, idx, succ) && p < |nodes|
    ensures nodes[p] in l.active <==> p in idx
    ensures (forall i :: 0 <= i < |idx| ==> idx[i] < |nodes|) && |succ| == |nodes|
    ensures Ring(l, head, Left(nodes, idx)) && nodes[p] != head
    ensures forall q :: 0 <= q < |nodes| && nodes[q] == nodes[p] ==> q == p
  {
  }

  lemma TrailHead(l: Links, head: Ref, nodes: seq<Ref>, idx: seq<nat>, succ: seq<nat>)
    requires Trail(l, head, nodes, idx, succ)
    ensures head !in nodes
  {
  }

  lemma TrailNext(l: Links, head: Ref, nodes: seq<Ref>, idx: seq<nat>, succ: seq<nat>, p: nat)
    requires Trail(l, head, nodes, idx, succ) && p < |nodes|
    ensures |succ| == |nodes| && p < succ[p] <= |nodes|
    ensures nodes[p] in l.next && l.next[nodes[p]] == if succ[p] == |nodes| then head else nodes[succ[p]]
    ensures forall m :: p < m < succ[p] ==> m !in idx
  {
  }

  ghost function WithoutIndex(idx: seq<nat>, n: nat): seq<nat>
    requires n < |idx|
  {
    idx[..n] + idx[n + 1..]
  }

  /** The left neighbour of the removed node now points to where that node points. */
  ghost function Relinked(idx: seq<nat>, succ: seq<nat>, n: nat): seq<nat>
    requires n < |idx| && forall i :: 0 <= i < |idx| ==> idx[i] < |succ|
  {
    if n == 0 then succ else succ[idx[n - 1] := succ[idx[n]]]
  }

  lemma IndexRemoved(nodes: seq<Ref>, idx: seq<nat>, n: nat)
    requires n < |idx| && Positions(nodes, idx)
    ensures
      var idx' := WithoutIndex(idx, n);
      && Positions(nodes, idx')
      && Left(nodes, idx') == Left(nodes, idx)[..n] + Left(nodes, idx)[n + 1..]
      && forall p :: p in idx' <==> p in idx && p != idx[n]
  {
    var idx' := WithoutIndex(idx, n);
    forall p ensures p in idx' <==> p in idx && p != idx[n] {
      if p in idx && p != idx[n] {
        var i :| 0 <= i < |idx| && idx[i] == p;
        assert idx'[if i < n then i else i - 1] == p;
      }
    }
  }

  /** The left neighbour of the removed node points to it. */
  lemma TrailNeighbour(l: Links, head: Ref, nodes: seq<Ref>, idx: seq<nat>, succ: seq<nat>, n: nat)
    requires Trail(l, head, nodes, idx, succ) && n < |idx|
    ensures
      var o := Open(head, Left(nodes, idx));
      && o[n + 2] == Target(head, nodes, succ[idx[n]])
      && (n == 0 ==> o[n] == head)
      && (n > 0 ==> o[n] == nodes[idx[n - 1]] && succ[idx[n - 1]] == idx[n])
  {
    var o := Open(head, Left(nodes, idx));
    assert o[n + 1] == nodes[idx[n]] && l.next[o[n + 1]] == o[n + 1 + 1] && l.next[o[n]] == o[n + 1];
    if n > 0 {
      assert o[n] == nodes[idx[n - 1]];
    }
  }

  lemma RelinkedAt(idx: seq<nat>, succ: seq<nat>, n: nat, p: nat)
    requires n < |idx| && p < |succ| && forall i :: 0 <= i < |idx| ==> idx[i] < |succ|
    ensures
      var succ' := Relinked(idx, succ, n);
      |succ'| == |succ| && succ'[p] == if n > 0 && p == idx[n - 1] then succ[idx[n]] else succ[p]
  {
  }

  lemma StepsRelinked(next: map<Ref, Ref>, next': map<Ref, Ref>, head: Ref, nodes: seq<Ref>, idx: seq<nat>,
                      idx': seq<nat>, succ: seq<nat>, succ': seq<nat>, n: nat)
    requires head !in nodes && Distinct(nodes) && n < |idx| && Positions(nodes, idx)
    requires Steps(next, head, nodes, idx, succ)
    requires |succ'| == |succ| && forall p :: 0 <= p < |succ| ==>
               succ'[p] == if n > 0 && p == idx[n - 1] then succ[idx[n]] else succ[p]
    requires n > 0 ==> succ[idx[n - 1]] == idx[n]
    requires next' == next[(if n == 0 then head else nodes[idx[n - 1]]) := Target(head, nodes, succ[idx[n]])]
    requires forall p :: p in idx' <==> p in idx && p != idx[n]
    ensures Steps(next', head, nodes, idx', succ')
  {
    hide Target;
    forall p | 0 <= p < |succ'|
      ensures p < succ'[p] <= |nodes| && nodes[p] in next' && next'[nodes[p]] == Target(head, nodes, succ'[p])
    {
      assert nodes[p] in nodes;
    }
    forall p, m | 0 <= p < |succ'| && p < m < succ'[p] ensures m !in idx' {
      if n > 0 && p == idx[n - 1] && m > idx[n] {
        assert m !in idx;
      }
    }
  }

  lemma TrailRelink(l: Links, next': map<Ref, Ref>, head: Ref, nodes: seq<Ref>, idx: seq<nat>, succ: seq<nat>, n: nat)
    requires Trail(l, head, nodes, idx, succ) && n < |idx|
    requires
      var o := Open(head, Left(nodes, idx));
      next' == l.next[o[n] := o[n + 2]]
    ensures Steps(next', head, nodes, WithoutIndex(idx, n), Relinked(idx, succ, n))
  {
    TrailNeighbour(l, head, nodes, idx, succ, n);
    IndexRemoved(nodes, idx, n);
    hide Ring, WithoutIndex, Relinked, Distinct, Left, Presence;
    forall p | 0 <= p < |succ|
      ensures
        var succ' := Relinked(idx, succ, n);
        |succ'| == |succ| && succ'[p] == if n > 0 && p == idx[n - 1] then succ[idx[n]] else succ[p]
    {
      RelinkedAt(idx, succ, n, p);
    }
    RelinkedAt(idx, succ, n, idx[n]);
    StepsRelinked(l.next, next', head, nodes, idx, WithoutIndex(idx, n), succ, Relinked(idx, succ, n), n);
  }

  lemma PresenceRemoved(active: set<Ref>, nodes: seq<Ref>, idx: seq<nat>, idx': seq<nat>, q: nat)
    requires Presence(active, nodes, idx) && Distinct(nodes) && q < |nodes|
    requires forall p :: p in idx' <==> p in idx && p != q
    ensures Presence(active - {nodes[q]}, nodes, idx')
  {
  }

  lemma TrailRemove(l: Links, l': Links, head: Ref, nodes: seq<Ref>, idx: seq<nat>, succ: seq<nat>, n: nat)
    requires Trail(l, head, nodes, idx, succ) && n < |idx|
    requires
      var o := Open(head, Left(nodes, idx));
      l'.next == l.next[o[n] := o[n + 2]] && l'.active == l.active - {nodes[idx[n]]}
    requires Ring(l', head, Left(nodes, idx)[..n] + Left(nodes, idx)[n + 1..])
    ensures Trail(l', head, nodes, WithoutIndex(idx, n), Relinked(idx, succ, n))
    ensures forall p :: p in WithoutIndex(idx, n) <==> p in idx && p != idx[n]
  {
    TrailRelink(l, l'.next, head, nodes, idx, succ, n);
    IndexRemoved(nodes, idx, n);
    PresenceRemoved(l.active, nodes, idx, WithoutIndex(idx, n), idx[n]);
    hide Ring, WithoutIndex, Relinked, Steps, Distinct, Positions, Presence;
  }

  // ------------------------------------------------------------------------------------------
  // Transfer
  // ------------------------------------------------------------------------------------------

  /** Two rings without a common cell. */
  ghost predicate Apart(s1: Ref, a: seq<Ref>, s2: Ref, b: seq<Ref>) {
    s1 != s2 && s1 !in b && s2 !in a && forall i, k :: 0 <= i < |a| && 0 <= k < |b| ==> a[i] != b[k]
  }

  lemma TransferredNone(l: Links, l': Links, s1: Ref, s2: Ref, b: seq<Ref>)
    requires Ring(l, s1, []) && Ring(l, s2, b) && s1 != s2 && s1 !in b && l'.active == l.active
    requires l'.next == l.next[s1 := s1] && l'.prev == l.prev[s1 := s1]
    ensures Ring(l', s1, []) && Ring(l', s2, b) && Unchanged(l, l', Cells(s1, []) + Cells(s2, b))
  {
    RingFrame(l, l', {s1}, s2, b);
  }

  lemma OpenEnds(head: Ref, nodes: seq<Ref>)
    ensures
      var o, n := Open(head, nodes), |nodes|;
      && o[0] == head && o[n + 1] == head
      && o[1] == (if n == 0 then head else nodes[0]) && o[n] == if n == 0 then head else nodes[n - 1]
  {
  }

  lemma SplicedFrame(l: Links, l': Links, s1: Ref, s2: Ref, a: seq<Ref>, b: seq<Ref>, i: nat)
    requires a != [] && i <= |b| && l'.active == l.active
    requires
      var o := Open(s2, b);
      && l'.next == l.next[o[i] := a[0]][a[|a| - 1] := o[i + 1]][s1 := s1]
      && l'.prev == l.prev[a[0] := o[i]][o[i + 1] := a[|a| - 1]][s1 := s1]
    ensures Unchanged(l, l', Cells(s1, a) + Cells(s2, b))
  {
    var o, all := Open(s2, b), Cells(s1, a) + Cells(s2, b);
    assert a[0] in a && a[|a| - 1] in a;
    assert forall k :: 0 <= k < |o| ==> o[k] in all;
    assert o[i] in all && o[i + 1] in all;
    hide Open, Cells;
  }

  lemma SpliceRight(next: map<Ref, Ref>, next': map<Ref, Ref>, o: seq<Ref>, a: seq<Ref>, i: nat, z: Ref)
    requires LinkedRight(next, o) && LinkedRight(next, a) && Simple(o) && i < |o| - 1 && a != [] && Distinct(a)
    requires z !in o && z !in a && forall k, m :: 0 <= k < |o| && 0 <= m < |a| ==> o[k] != a[m]
    requires a[|a| - 1] in next && next' == next[o[i] := a[0]][a[|a| - 1] := o[i + 1]][z := z]
    ensures LinkedRight(next', o[..i + 1] + a + o[i + 1..])
  {
    var x, y := o[..i + 1], o[i + 1..];
    assert LinkedRight(next', x) by {
      forall k | 0 <= k < |x| - 1 ensures x[k] in next' && next'[x[k]] == x[k + 1] {
        assert o[k] in next && next[o[k]] == o[k + 1] && o[k] != o[i];
      }
    }
    assert LinkedRight(next', a);
    assert LinkedRight(next', y) by {
      forall k | 0 <= k < |y| - 1 ensures y[k] in next' && next'[y[k]] == y[k + 1] {
        assert o[k + i + 1] in next && next[o[k + i + 1]] == o[k + i + 2] && o[k + i + 1] != o[i];
      }
    }
    PathRight(next', x, a);
    PathRight(next', x + a, y);
  }

  lemma SpliceLeft(prev: map<Ref, Ref>, prev': map<Ref, Ref>, o: seq<Ref>, a: seq<Ref>, i: nat, z: Ref)
    requires LinkedLeft(prev, o) && LinkedLeft(prev, a) && Simple(o) && i < |o| - 1 && a != [] && Distinct(a)
    requires z !in o && z !in a && forall k, m :: 0 <= k < |o| && 0 <= m < |a| ==> o[k] != a[m]
    requires a[0] in prev && prev' == prev[a[0] := o[i]][o[i + 1] := a[|a| - 1]][z := z]
    ensures LinkedLeft(prev', o[..i + 1] + a + o[i + 1..])
  {
    var x, y := o[..i + 1], o[i + 1..];
    assert LinkedLeft(prev', x) by {
      forall k | 0 < k < |x| ensures x[k] in prev' && prev'[x[k]] == x[k - 1] {
        assert o[k] in prev && prev[o[k]] == o[k - 1] && o[k] != o[i + 1];
      }
    }
    assert LinkedLeft(prev', a);
    assert LinkedLeft(prev', y) by {
      forall k | 0 < k < |y| ensures y[k] in prev' && prev'[y[k]] == y[k - 1] {
        assert o[k + i + 1] in prev && prev[o[k + i + 1]] == o[k + i] && o[k + i + 1] != o[i + 1];
      }
    }
    PathLeft(prev', x, a);
    PathLeft(prev', x + a, y);
  }

  lemma PathRight(next: map<Ref, Ref>, x: seq<Ref>, y: seq<Ref>)
    requires LinkedRight(next, x) && LinkedRight(next, y)
    requires x != [] && y != [] ==> x[|x| - 1] in next && next[x[|x| - 1]] == y[0]
    ensures LinkedRight(next, x + y)
  {
  }

  lemma PathLeft(prev: map<Ref, Ref>, x: seq<Ref>, y: seq<Ref>)
    requires LinkedLeft(prev, x) && LinkedLeft(prev, y)
    requires x != [] && y != [] ==> y[0] in prev && prev[y[0]] == x[|x| - 1]
    ensures LinkedLeft(prev, x + y)
  {
  }

  /** The nodes of a ring without the sentinel are still linked to each other. */
  lemma InnerLinks(l: Links, head: Ref, nodes: seq<Ref>)
    requires Ring(l, head, nodes)
    ensures LinkedRight(l.next, nodes) && LinkedLeft(l.prev, nodes)
    ensures forall i :: 0 <= i < |nodes| ==> nodes[i] in l.next && nodes[i] in l.prev
  {
    var o := Open(head, nodes);
    forall i | 0 <= i < |nodes|
      ensures nodes[i] in l.next && l.next[nodes[i]] == o[i + 2] && nodes[i] in l.prev && l.prev[nodes[i]] == o[i]
    {
      assert o[i + 1] == nodes[i];
    }
    forall i | 0 <= i < |nodes| - 1 ensures l.next[nodes[i]] == nodes[i + 1] {
      assert o[i + 2] == nodes[i + 1];
    }
    forall i | 0 < i < |nodes| ensures l.prev[nodes[i]] == nodes[i - 1] {
      assert o[i] == nodes[i - 1];
    }
  }

  /** The nodes `a` of the ring of `s1` are spliced into the ring of `s2` after position `i`. */
  lemma Spliced(l: Links, l': Links, s1: Ref, s2: Ref, a: seq<Ref>, b: seq<Ref>, i: nat)
    requires Ring(l, s1, a) && Ring(l, s2, b) && Apart(s1, a, s2, b) && a != [] && i <= |b| && l'.active == l.active
    requires
      var o := Open(s2, b);
      && l'.next == l.next[o[i] := a[0]][a[|a| - 1] := o[i + 1]][s1 := s1]
      && l'.prev == l.prev[a[0] := o[i]][o[i + 1] := a[|a| - 1]][s1 := s1]
    ensures Ring(l', s1, []) && Ring(l', s2, b[..i] + a + b[i..])
    ensures Unchanged(l, l', Cells(s1, a) + Cells(s2, b))
  {
    SplicedFrame(l, l', s1, s2, a, b, i);
    var o := Open(s2, b);
    InnerLinks(l, s1, a);
    OpenDistinct(s2, b);
    RingEnds(l, s1, a);
    forall k, m | 0 <= k < |o| && 0 <= m < |a| ensures o[k] != a[m] {
    }
    SpliceRight(l.next, l'.next, o, a, i, s1);
    SpliceLeft(l.prev, l'.prev, o, a, i, s1);
    var nodes' := b[..i] + a + b[i..];
    assert Open(s2, nodes') == o[..i + 1] + a + o[i + 1..];
    SplicedNodes(l, s1, s2, a, b, i);
    hide LinkedRight, LinkedLeft, Distinct, Simple, Apart, Unchanged;
    assert Ring(l', s2, nodes');
    ClosedRing(l', s1);
  }

  lemma SplicedNodes(l: Links, s1: Ref, s2: Ref, a: seq<Ref>, b: seq<Ref>, i: nat)
    requires Ring(l, s1, a) && Ring(l, s2, b) && Apart(s1, a, s2, b) && i <= |b|
    ensures
      var nodes' := b[..i] + a + b[i..];
      s2 !in nodes' && Distinct(nodes') && forall k :: 0 <= k < |nodes'| ==> nodes'[k] in l.active
  {
  }

  lemma ClosedRing(l: Links, s: Ref)
    requires s in l.next && s in l.prev && l.next[s] == s && l.prev[s] == s && s !in l.active
    ensures Ring(l, s, [])
  {
  }
}
