/** Callback lists of pending promises (src/core/lwt.ml, module Pending_callbacks and
    `run_callbacks`): append-friendly trees whose leaves may sit in clearable cells. */
module CallbackTrees {
  type Cell = nat

  datatype Tree<L> = Empty | Leaf(leaf: L) | Concat(left: Tree<L>, right: Tree<L>)

  /** `Removable` is a callback that is reached through a cell, which may have been emptied. */
  datatype Regular = Implicit(f: nat) | Removable(cell: Cell)

  datatype OnCancel = CancelCallback(storage: int, f: nat) | RemoveSequenceNode(node: nat)

  datatype Callbacks = Callbacks(regular: Tree<Regular>, cancel: Tree<OnCancel>, deferred: nat)

  const THROTTLE := 42

  function Flatten<L>(t: Tree<L>): seq<L> {
    match t
    case Empty => []
    case Leaf(l) => [l]
    case Concat(t1, t2) => Flatten(t1) + Flatten(t2)
  }

  // ------------------------------------------------------------------------------------------
  // Traversal
  // ------------------------------------------------------------------------------------------

  /** Running the leaves of a list from left to right.  `fires(done, l)` says whether leaf `l` runs
      when its turn comes after `done` have run: callbacks may empty cells. */
  function RunList<L>(ls: seq<L>, done: seq<L>, fires: (seq<L>, L) -> bool): seq<L> {
    if ls == [] then done
    else RunList(ls[1..], if fires(done, ls[0]) then done + [ls[0]] else done, fires)
  }

  function FlattenAll<L>(ts: seq<Tree<L>>): seq<L> {
    if ts == [] then [] else Flatten(ts[0]) + FlattenAll(ts[1..])
  }

  ghost function Size<L>(t: Tree<L>): nat {
    match t
    case Empty => 1
    case Leaf(_) => 2
    case Concat(t1, t2) => 1 + Size(t1) + Size(t2)
  }

  ghost function SizeAll<L>(ts: seq<Tree<L>>): nat {
    if ts == [] then 0 else Size(ts[0]) + SizeAll(ts[1..])
  }

  /** The traversal with an explicit stack of trees still to do runs the left-to-right flattening. */
  method RunTree<L>(t: Tree<L>, before: seq<L>, fires: (seq<L>, L) -> bool) returns (done: seq<L>)
    ensures done == RunList(Flatten(t), before, fires)
  {
    var fs, rest := t, [];
    done := before;
    assert Flatten(fs) + FlattenAll(rest) == Flatten(t);
    while fs != Empty || rest != []
      invariant RunList(Flatten(fs) + FlattenAll(rest), done, fires) == RunList(Flatten(t), before, fires)
      decreases Size(fs) + SizeAll(rest)
    {
      match fs {
        case Empty =>
          assert Flatten(fs) + FlattenAll(rest) == Flatten(rest[0]) + FlattenAll(rest[1..]);
          fs, rest := rest[0], rest[1..];
        case Leaf(l) =>
          assert (Flatten(fs) + FlattenAll(rest))[1..] == Flatten<L>(Empty) + FlattenAll(rest);
          if fires(done, l) {
            done := done + [l];
          }
          if rest == [] {
            fs := Empty;
          } else {
            assert Flatten<L>(Empty) + FlattenAll(rest) == Flatten(rest[0]) + FlattenAll(rest[1..]);
            fs, rest := rest[0], rest[1..];
          }
        case Concat(fs1, fs2) =>
          assert ([fs2] + rest)[1..] == rest;
          assert Flatten(fs) + FlattenAll(rest) == Flatten(fs1) + FlattenAll([fs2] + rest);
          fs, rest := fs1, [fs2] + rest;
      }
    }
    assert Flatten(fs) + FlattenAll(rest) == [];
  }

  /** `run_callbacks`: the cancel callbacks of a canceled promise, then its regular callbacks, each
      kind in the order of its list, skipping the cells that are empty at their turn. */
  method RunCallbacks(cb: Callbacks, canceled: bool, filled: (seq<Regular>, Cell) -> bool)
    returns (cancelsRun: seq<OnCancel>, regularsRun: seq<Regular>)
    ensures cancelsRun == if canceled then Flatten(cb.cancel) else []
    ensures regularsRun ==
            RunList(Flatten(cb.regular), [], (done, l: Regular) => l.Removable? ==> filled(done, l.cell))
  {
    cancelsRun := [];
    if canceled {
      cancelsRun := RunTree(cb.cancel, [], (done, l) => true);
      RunListAll(Flatten(cb.cancel), []);
    }
    regularsRun := RunTree(cb.regular, [], (done, l: Regular) => l.Removable? ==> filled(done, l.cell));
  }

  lemma {:induction false} RunListAll<L>(ls: seq<L>, done: seq<L>)
    ensures RunList(ls, done, (done: seq<L>, l: L) => true) == done + ls
  {
    if ls != [] {
      RunListAll(ls[1..], done + [ls[0]]);
      assert done + [ls[0]] + ls[1..] == done + ls;
    } else {
      assert done + ls == done;
    }
  }

  // ------------------------------------------------------------------------------------------
  // Emptied cells
  // ------------------------------------------------------------------------------------------

  predicate IsLive(l: Regular, filled: set<Cell>) { l.Removable? ==> l.cell in filled }

  /** The callbacks of a list that have not been removed. */
  function Live(ls: seq<Regular>, filled: set<Cell>): (r: seq<Regular>)
    ensures forall i :: 0 <= i < |r| ==> r[i] in ls && IsLive(r[i], filled)
  {
    if ls == [] then []
    else if IsLive(ls[0], filled) then [ls[0]] + Live(ls[1..], filled)
    else Live(ls[1..], filled)
  }

  lemma {:induction false} LiveConcat(a: seq<Regular>, b: seq<Regular>, filled: set<Cell>)
    ensures Live(a + b, filled) == Live(a, filled) + Live(b, filled)
  {
    if a == [] {
      assert a + b == b;
    } else {
      LiveConcat(a[1..], b, filled);
      assert (a + b)[1..] == a[1..] + b;
    }
  }

  function ConcatTrees<L>(t1: Tree<L>, t2: Tree<L>): Tree<L> {
    match (t1, t2)
    case (Empty, _) => t2
    case (_, Empty) => t1
    case (_, _) => Concat(t1, t2)
  }

  function CleanUp(t: Tree<Regular>, filled: set<Cell>): Tree<Regular> {
    match t
    case Leaf(Removable(c)) => if c in filled then t else Empty
    case Leaf(Implicit(_)) => t
    case Empty => t
    case Concat(t1, t2) => ConcatTrees(CleanUp(t1, filled), CleanUp(t2, filled))
  }

  /** Cleaning up drops exactly the emptied cells and keeps the order of the rest. */
  lemma {:induction false} CleanUpKeepsLive(t: Tree<Regular>, filled: set<Cell>)
    ensures Flatten(CleanUp(t, filled)) == Live(Flatten(t), filled)
    ensures Live(Flatten(CleanUp(t, filled)), filled) == Live(Flatten(t), filled)
  {
    match t
    case Concat(t1, t2) =>
      CleanUpKeepsLive(t1, filled);
      CleanUpKeepsLive(t2, filled);
      LiveConcat(Flatten(t1), Flatten(t2), filled);
      LiveConcat(Flatten(CleanUp(t1, filled)), Flatten(CleanUp(t2, filled)), filled);
    case _ =>
  }

  /** A cleaned tree has the shape of its contents. */
  lemma {:induction false} CleanUpShape(t: Tree<Regular>, filled: set<Cell>)
    ensures var c := CleanUp(t, filled);
            && (c.Empty? <==> |Flatten(c)| == 0)
            && (c.Leaf? <==> |Flatten(c)| == 1)
            && (c.Leaf? ==> Flatten(c) == [c.leaf])
  {
    match t
    case Concat(t1, t2) =>
      CleanUpShape(t1, filled);
      CleanUpShape(t2, filled);
    case _ =>
  }

  /** As long as emptied cells stay empty, a cleaned list runs the same callbacks as the original. */
  lemma {:induction false} CleanUpKeepsRuns(ls: seq<Regular>, filled: set<Cell>, done: seq<Regular>,
                                            fires: (seq<Regular>, Regular) -> bool)
    requires forall d, l :: fires(d, l) ==> IsLive(l, filled)
    ensures RunList(Live(ls, filled), done, fires) == RunList(ls, done, fires)
  {
    if ls != [] {
      var done' := if fires(done, ls[0]) then done + [ls[0]] else done;
      CleanUpKeepsRuns(ls[1..], filled, done', fires);
      if IsLive(ls[0], filled) {
        assert Live(ls, filled)[1..] == Live(ls[1..], filled);
      }
    }
  }

  function MergeCallbacks(from: Callbacks, into: Callbacks, filled: set<Cell>): Callbacks {
    var regular := ConcatTrees(into.regular, from.regular);
    var deferred := into.deferred + from.deferred;
    var cancel := ConcatTrees(into.cancel, from.cancel);
    if deferred > THROTTLE then Callbacks(CleanUp(regular, filled), cancel, 0)
    else Callbacks(regular, cancel, deferred)
  }

  /** Merging appends the callbacks of `from` to those of `into`, and loses no live one. */
  lemma MergeKeepsCallbacks(from: Callbacks, into: Callbacks, filled: set<Cell>)
    ensures
      var m := MergeCallbacks(from, into, filled);
      && Live(Flatten(m.regular), filled) == Live(Flatten(into.regular), filled) + Live(Flatten(from.regular), filled)
      && Flatten(m.cancel) == Flatten(into.cancel) + Flatten(from.cancel)
      && m.deferred <= THROTTLE
  {
    var regular := ConcatTrees(into.regular, from.regular);
    assert Flatten(regular) == Flatten(into.regular) + Flatten(from.regular);
    LiveConcat(Flatten(into.regular), Flatten(from.regular), filled);
    CleanUpKeepsLive(regular, filled);
    assert Flatten(ConcatTrees(into.cancel, from.cancel)) == Flatten(into.cancel) + Flatten(from.cancel);
  }

  // ------------------------------------------------------------------------------------------
  // Clearing a cell
  // ------------------------------------------------------------------------------------------

  /** What clearing a cell does to one of the pending promises it was added to, the cell being
      already emptied. */
  function Visit(cb: Callbacks, filled: set<Cell>): Callbacks {
    if cb.regular.Leaf? && cb.regular.leaf.Removable? then cb.(regular := Empty)
    else if cb.deferred + 1 > THROTTLE then cb.(deferred := 0, regular := CleanUp(cb.regular, filled))
    else cb.(deferred := cb.deferred + 1)
  }

  function VisitTimes(cb: Callbacks, k: nat, filled: set<Cell>): Callbacks
    decreases k
  {
    if k == 0 then cb else VisitTimes(Visit(cb, filled), k - 1, filled)
  }

  /** Emptying a cell that is not listed changes nothing. */
  lemma {:induction false} LiveWithout(ls: seq<Regular>, cell: Cell, filled: set<Cell>)
    requires cell in filled && !(Removable(cell) in ls)
    ensures Live(ls, filled - {cell}) == Live(ls, filled)
  {
    if ls != [] {
      LiveWithout(ls[1..], cell, filled);
    }
  }

  /** Further visits of a promise whose list no longer holds an emptied cell. */
  lemma {:induction false} VisitsOfClean(cb: Callbacks, k: nat, filled: set<Cell>)
    requires cb.regular == CleanUp(cb.regular, filled)
    requires Flatten(cb.regular) == Live(Flatten(cb.regular), filled)
    ensures
      var left := Flatten(VisitTimes(cb, k, filled).regular);
      if k > 0 && cb.regular.Leaf? && cb.regular.leaf.Removable? then left == []
      else left == Flatten(cb.regular)
    decreases k
  {
    if k > 0 {
      VisitsOfClean(Visit(cb, filled), k - 1, filled);
    }
  }

  lemma LiveOne(r: Regular, filled: set<Cell>)
    ensures Live([r], filled) == if IsLive(r, filled) then [r] else []
  {
    assert [r][1..] == [];
  }

  lemma {:induction false} CleanUpTwice(t: Tree<Regular>, filled: set<Cell>)
    ensures CleanUp(CleanUp(t, filled), filled) == CleanUp(t, filled)
  {
    match t
    case Concat(t1, t2) =>
      CleanUpTwice(t1, filled);
      CleanUpTwice(t2, filled);
    case _ =>
  }

  /** The callback that `k` visits lose: it is the only live one, it is removable, and it is alone in the list or
      left alone by a clean-up before the last visit, so that it is taken for the cleared cell. */
  predicate LosesCallback(cb: Callbacks, k: nat, filled: set<Cell>) {
    var live := Live(Flatten(cb.regular), filled);
    k > 0 && |live| == 1 && live[0].Removable? && (cb.regular.Leaf? || cb.deferred + k > THROTTLE + 1)
  }

  /** Clearing a cell that was added `k` times to the same underlying promise, whatever is listed there, keeps the
      live callbacks exactly if this is not the case of `LosesCallback`. */
  lemma {:induction false} VisitsExact(cb: Callbacks, k: nat, filled: set<Cell>)
    requires cb.deferred <= THROTTLE
    ensures
      Live(Flatten(VisitTimes(cb, k, filled).regular), filled) == Live(Flatten(cb.regular), filled)
      <==> !LosesCallback(cb, k, filled)
    decreases k
  {
    if k > 0 {
      var next := Visit(cb, filled);
      if cb.regular.Leaf? && cb.regular.leaf.Removable? {
        assert Flatten(cb.regular) == [cb.regular.leaf];
        LiveOne(cb.regular.leaf, filled);
        VisitsOfClean(next, k - 1, filled);
      } else if cb.deferred + 1 > THROTTLE {
        CleanUpKeepsLive(cb.regular, filled);
        CleanUpTwice(cb.regular, filled);
        CleanUpShape(cb.regular, filled);
        VisitsOfClean(next, k - 1, filled);
        CleanUpKeepsLive(VisitTimes(next, k - 1, filled).regular, filled);
        if cb.regular.Leaf? {
          LiveOne(cb.regular.leaf, filled);
        }
      } else {
        VisitsExact(next, k - 1, filled);
        if cb.regular.Leaf? {
          LiveOne(cb.regular.leaf, filled);
        }
      }
    }
  }

  /** What is listed after some visits was listed before. */
  lemma {:induction false} VisitsShrink(cb: Callbacks, k: nat, filled: set<Cell>)
    requires cb.deferred <= THROTTLE
    ensures forall l :: l in Flatten(VisitTimes(cb, k, filled).regular) ==> l in Flatten(cb.regular)
    ensures VisitTimes(cb, k, filled).deferred <= THROTTLE
    decreases k
  {
    if k > 0 {
      CleanUpKeepsLive(cb.regular, filled);
      VisitsShrink(Visit(cb, filled), k - 1, filled);
    }
  }

  /** A live callback lost by clearing another cell, `choose [p; p]` having been called on a promise
      for which 42 clean-ups have been deferred. */
  lemma DuplicateLosesCallback()
    ensures
      var cb := Callbacks(Concat(Leaf(Removable(0)), Concat(Leaf(Removable(0)), Leaf(Removable(1)))), Empty, 42);
      && Live(Flatten(cb.regular), {1}) == [Removable(1)]
      && Live(Flatten(VisitTimes(cb, 2, {1}).regular), {1}) == []
  {
    var cb := Callbacks(Concat(Leaf(Removable(0)), Concat(Leaf(Removable(0)), Leaf(Removable(1)))), Empty, 42);
    var inner: Tree<Regular> := Concat(Leaf(Removable(0)), Leaf(Removable(1)));
    assert Flatten(inner) == [Removable(0), Removable(1)];
    assert Flatten(cb.regular) == [Removable(0), Removable(0), Removable(1)];
    assert Live([Removable(1)], {1}) == [Removable(1)];
    assert Live([Removable(0), Removable(1)], {1}) == [Removable(1)];
    assert CleanUp(inner, {1}) == Leaf(Removable(1));
    var once := Visit(cb, {1});
    assert once.regular == Leaf(Removable(1));
    assert VisitTimes(cb, 2, {1}) == VisitTimes(once, 1, {1}) == VisitTimes(Visit(once, {1}), 0, {1});
  }

  /** `add_regular_callback_list_node`. */
  function AddNode(t: Tree<Regular>, l: Regular): (r: Tree<Regular>)
    ensures Flatten(r) == [l] + Flatten(t)
  {
    if t.Empty? then Leaf(l) else Concat(Leaf(l), t)
  }

  function AddTimes(cb: Callbacks, k: nat, l: Regular): Callbacks
    decreases k
  {
    if k == 0 then cb else AddTimes(cb.(regular := AddNode(cb.regular, l)), k - 1, l)
  }

  function Repeat(k: nat, l: Regular): (r: seq<Regular>)
    ensures |r| == k && forall i :: 0 <= i < k ==> r[i] == l
  {
    seq(k, i => l)
  }

  lemma {:induction false} AddedList(cb: Callbacks, k: nat, l: Regular)
    ensures
      var cb' := AddTimes(cb, k, l);
      && Flatten(cb'.regular) == Repeat(k, l) + Flatten(cb.regular)
      && cb'.cancel == cb.cancel && cb'.deferred == cb.deferred
    decreases k
  {
    if k > 0 {
      AddedList(cb.(regular := AddNode(cb.regular, l)), k - 1, l);
      assert Repeat(k - 1, l) + [l] == Repeat(k, l);
    } else {
      assert Repeat(0, l) == [];
    }
  }

  lemma {:induction false} AddAgain(cb: Callbacks, k: nat, l: Regular)
    ensures AddTimes(cb, k + 1, l) ==
            AddTimes(cb, k, l).(regular := AddNode(AddTimes(cb, k, l).regular, l))
    decreases k
  {
    if k > 0 {
      AddAgain(cb.(regular := AddNode(cb.regular, l)), k - 1, l);
    }
  }

  function Count(ps: seq<nat>, p: nat): nat {
    if ps == [] then 0 else (if ps[0] == p then 1 else 0) + Count(ps[1..], p)
  }

  lemma {:induction false} CountPrefix(ps: seq<nat>, p: nat, i: nat)
    requires i < |ps|
    ensures Count(ps[..i + 1], p) == Count(ps[..i], p) + if ps[i] == p then 1 else 0
  {
    if i == 0 {
      assert ps[..1][1..] == [];
    } else {
      CountPrefix(ps[1..], p, i - 1);
      assert ps[..i + 1][1..] == ps[1..][..i] && ps[..i][1..] == ps[1..][..i - 1];
    }
  }

  lemma {:induction false} VisitAgain(cb: Callbacks, k: nat, filled: set<Cell>)
    ensures VisitTimes(cb, k + 1, filled) == Visit(VisitTimes(cb, k, filled), filled)
    decreases k
  {
    if k > 0 {
      VisitAgain(Visit(cb, filled), k - 1, filled);
    }
  }

  lemma {:induction false} DistinctCount(ps: seq<nat>, p: nat)
    requires forall i, k :: 0 <= i < k < |ps| && ps[i] == p ==> ps[k] != p
    ensures Count(ps, p) == if p in ps then 1 else 0
  {
    if ps != [] {
      DistinctCount(ps[1..], p);
      assert ps == [ps[0]] + ps[1..];
    }
  }

  /** The pending promises, with the cells that are still filled. */
  class Promises {
    var pending: map<nat, Callbacks>
    var filled: set<Cell>

    constructor ()
      ensures pending == map[] && filled == {}
    {
      pending, filled := map[], {};
    }

    /** `add_explicitly_removable_callback_and_give_cell`; `ps` are the underlying promises, which are pending. */
    method AddToEach(cell: Cell, ps: seq<nat>)
      requires forall i :: 0 <= i < |ps| ==> ps[i] in pending
      modifies this
      ensures filled == old(filled) + {cell} && pending.Keys == old(pending).Keys
      ensures forall p :: p in pending ==> pending[p] == AddTimes(old(pending)[p], Count(ps, p), Removable(cell))
    {
      filled := filled + {cell};
      for i := 0 to |ps|
        invariant filled == old(filled) + {cell} && pending.Keys == old(pending).Keys
        invariant forall p :: p in pending ==>
                    pending[p] == AddTimes(old(pending)[p], Count(ps[..i], p), Removable(cell))
      {
        forall p ensures Count(ps[..i + 1], p) == Count(ps[..i], p) + if ps[i] == p then 1 else 0 {
          CountPrefix(ps, p, i);
        }
        var cb := pending[ps[i]];
        AddAgain(old(pending)[ps[i]], Count(ps[..i], ps[i]), Removable(cell));
        pending := pending[ps[i] := cb.(regular := AddNode(cb.regular, Removable(cell)))];
      }
      assert ps[..|ps|] == ps;
    }

    /** `clear_explicitly_removable_callback_cell`; `ps` are the underlying promises of those the
        cell was added to, some of which may have been resolved since. */
    method ClearCell(cell: Cell, ps: seq<nat>)
      modifies this
      ensures filled == old(filled) - {cell} && pending.Keys == old(pending).Keys
      ensures forall p :: p in pending ==> pending[p] == VisitTimes(old(pending)[p], Count(ps, p), filled)
    {
      filled := filled - {cell};
      for i := 0 to |ps|
        invariant filled == old(filled) - {cell} && pending.Keys == old(pending).Keys
        invariant forall p :: p in pending ==> pending[p] == VisitTimes(old(pending)[p], Count(ps[..i], p), filled)
      {
        forall p ensures Count(ps[..i + 1], p) == Count(ps[..i], p) + if ps[i] == p then 1 else 0 {
          CountPrefix(ps, p, i);
        }
        if ps[i] in pending {
          VisitAgain(old(pending)[ps[i]], Count(ps[..i], ps[i]), filled);
          pending := pending[ps[i] := Visit(pending[ps[i]], filled)];
        }
      }
      assert ps[..|ps|] == ps;
    }
  }

  lemma {:induction false} LiveHas(ls: seq<Regular>, l: Regular, filled: set<Cell>)
    ensures l in Live(ls, filled) <==> l in ls && IsLive(l, filled)
  {
    if ls != [] {
      LiveHas(ls[1..], l, filled);
      assert ls == [ls[0]] + ls[1..];
    }
  }
}
