/** Callback lists over whole runs (src/core/lwt.ml, module Pending_callbacks): what registering, merging, resolving
    and the throttled clean-up on clearing a cell do to the lists of all pending promises together. */
module CallbackCells {
  import opened CallbackTrees

  /** `pending` has the callbacks of the pending underlying promises; `root` says which promise a promise stands
      for; `added` says to which promises a cell was added.  `ideal` lists all callbacks registered and never sweeps
      anything; no step looks at it. */
  datatype State = State(
    pending: map<nat, Callbacks>,
    root: map<nat, nat>,
    filled: set<Cell>,
    added: map<Cell, seq<nat>>,
    ideal: map<nat, seq<Regular>>)

  datatype Step =
    | NewPromise(p: nat)
    | AddImplicit(p: nat, f: nat)
    | AddCell(cell: Cell, ps: seq<nat>)
    | Merge(from: nat, into: nat)
    | Resolve(p: nat)
    | Clear(cell: Cell)

  const INITIAL := State(map[], map[], {}, map[], map[])

  /** The underlying promises of `ps`. */
  function Roots(root: map<nat, nat>, ps: seq<nat>): (rs: seq<nat>)
    requires forall i :: 0 <= i < |ps| ==> ps[i] in root
    ensures |rs| == |ps| && forall i :: 0 <= i < |rs| ==> rs[i] == root[ps[i]]
  {
    seq(|ps|, i requires 0 <= i < |ps| => root[ps[i]])
  }

  predicate Known(s: State, ps: seq<nat>) {
    forall i :: 0 <= i < |ps| ==> ps[i] in s.root
  }

  predicate AllPending(s: State, ps: seq<nat>) {
    forall i :: 0 <= i < |ps| ==> ps[i] in s.root && s.root[ps[i]] in s.pending
  }

  /** A cell is cleared when a promise that it was added to has been resolved, or by `protected`, which adds it to
      one promise. */
  predicate Enabled(s: State, a: Step) {
    match a
    case NewPromise(p) => p !in s.root
    case AddImplicit(p, _) => p in s.root && s.root[p] in s.pending
    case AddCell(cell, ps) => cell !in s.added && AllPending(s, ps)
    case Merge(from, into) => from in s.pending && into in s.pending && from != into
    case Resolve(p) => p in s.pending
    case Clear(cell) =>
      && cell in s.filled && cell in s.added && Known(s, s.added[cell])
      && (AllPending(s, s.added[cell]) ==> |s.added[cell]| == 1)
  }

  function IdealAt(s: State, p: nat): seq<Regular> {
    if p in s.ideal then s.ideal[p] else []
  }

  function Prepend(s: State, p: nat, l: Regular): State
    requires p in s.pending
  {
    s.(pending := s.pending[p := s.pending[p].(regular := AddNode(s.pending[p].regular, l))],
       ideal := s.ideal[p := [l] + IdealAt(s, p)])
  }

  function DoAddCell(s: State, cell: Cell, ps: seq<nat>): State
    requires Known(s, ps)
  {
    var rs, l := Roots(s.root, ps), Removable(cell);
    s.(filled := s.filled + {cell}, added := s.added[cell := ps],
       pending := map p | p in s.pending :: AddTimes(s.pending[p], Count(rs, p), l),
       ideal := map p | p in s.ideal :: Repeat(Count(rs, p), l) + s.ideal[p])
  }

  function DoMerge(s: State, from: nat, into: nat): State
    requires from in s.pending && into in s.pending
  {
    s.(pending := map p | p in s.pending && p != from ::
                    if p == into then MergeCallbacks(s.pending[from], s.pending[into], s.filled) else s.pending[p],
       ideal := map p | p in s.ideal && p != from :: if p == into then s.ideal[into] + IdealAt(s, from) else s.ideal[p],
       root := map p | p in s.root :: if s.root[p] == from then into else s.root[p])
  }

  function DoClear(s: State, cell: Cell): State
    requires cell in s.added && Known(s, s.added[cell])
  {
    var rs, filled := Roots(s.root, s.added[cell]), s.filled - {cell};
    s.(filled := filled, pending := map p | p in s.pending :: VisitTimes(s.pending[p], Count(rs, p), filled))
  }

  function Apply(s: State, a: Step): State
    requires Enabled(s, a)
  {
    match a
    case NewPromise(p) =>
      s.(pending := s.pending[p := Callbacks(Empty, Empty, 0)], root := s.root[p := p], ideal := s.ideal[p := []])
    case AddImplicit(p, f) => Prepend(s, s.root[p], Implicit(f))
    case AddCell(cell, ps) => DoAddCell(s, cell, ps)
    case Merge(from, into) => DoMerge(s, from, into)
    case Resolve(p) => s.(pending := s.pending - {p}, ideal := s.ideal - {p})
    case Clear(cell) => DoClear(s, cell)
  }

  // ------------------------------------------------------------------------------------------
  // What holds in every run
  // ------------------------------------------------------------------------------------------

  predicate CellsIn(ls: seq<Regular>, cells: set<Cell>) {
    forall l :: l in ls && l.Removable? ==> l.cell in cells
  }

  /** The promises that cells were added to exist, and pending promises are known. */
  ghost predicate NamesOk(s: State) {
    && s.filled <= s.added.Keys
    && (forall c :: c in s.added ==> Known(s, s.added[c]))
    && (forall p :: p in s.pending ==> p in s.root)
    && (forall p :: p in s.root ==> s.root[p] in s.root)
  }

  /** Listed cells have been added, and a clean-up is due only after 42 deferred ones. */
  ghost predicate ListedOk(pending: map<nat, Callbacks>, cells: set<Cell>) {
    forall p :: p in pending ==> pending[p].deferred <= THROTTLE && CellsIn(Flatten(pending[p].regular), cells)
  }

  ghost predicate IdealIn(ideal: map<nat, seq<Regular>>, cells: set<Cell>) {
    forall p :: p in ideal ==> CellsIn(ideal[p], cells)
  }

  /** Some promise in `ps` stands for `p`. */
  ghost predicate StandsIn(root: map<nat, nat>, ps: seq<nat>, p: nat) {
    exists i :: 0 <= i < |ps| && ps[i] in root && root[ps[i]] == p
  }

  /** Every cell is in the ideal list of each pending promise that it was added to. */
  ghost predicate IdealOk(added: map<Cell, seq<nat>>, root: map<nat, nat>, ideal: map<nat, seq<Regular>>) {
    forall c, p :: c in added && p in ideal && StandsIn(root, added[c], p) ==> Removable(c) in ideal[p]
  }

  ghost predicate Inv(s: State) {
    && s.pending.Keys == s.ideal.Keys
    && NamesOk(s) && ListedOk(s.pending, s.added.Keys) && IdealIn(s.ideal, s.added.Keys)
    && IdealOk(s.added, s.root, s.ideal)
  }

  /** The live callbacks of every pending promise are those registered and not cleared, in order. */
  ghost predicate NothingLost(s: State) {
    forall p :: p in s.pending && p in s.ideal ==>
      Live(Flatten(s.pending[p].regular), s.filled) == Live(s.ideal[p], s.filled)
  }

  lemma CountPositive(root: map<nat, nat>, ps: seq<nat>, p: nat)
    requires forall i :: 0 <= i < |ps| ==> ps[i] in root
    ensures Count(Roots(root, ps), p) > 0 <==> StandsIn(root, ps, p)
  {
    var rs := Roots(root, ps);
    InCount(rs, p);
    if p in rs {
      var i :| 0 <= i < |rs| && rs[i] == p;
      assert root[ps[i]] == p;
    }
    if StandsIn(root, ps, p) {
      var i :| 0 <= i < |ps| && ps[i] in root && root[ps[i]] == p;
      assert rs[i] == p;
    }
  }

  lemma {:induction false} InCount(rs: seq<nat>, p: nat)
    ensures Count(rs, p) > 0 <==> p in rs
  {
    if rs != [] {
      InCount(rs[1..], p);
      assert rs == [rs[0]] + rs[1..];
    }
  }

  lemma NewKeepsInv(s: State, p: nat)
    requires Inv(s) && Enabled(s, NewPromise(p))
    ensures Inv(Apply(s, NewPromise(p)))
  {
    var s' := Apply(s, NewPromise(p));
    forall c, q | c in s.added && q in s'.ideal && StandsIn(s'.root, s.added[c], q)
      ensures q != p && StandsIn(s.root, s.added[c], q)
    {
      var i :| 0 <= i < |s.added[c]| && s.added[c][i] in s'.root && s'.root[s.added[c][i]] == q;
      assert s.added[c][i] in s.root;
    }
    hide StandsIn, CellsIn;
  }

  lemma ImplicitKeepsInv(s: State, p: nat, f: nat)
    requires Inv(s) && Enabled(s, AddImplicit(p, f))
    ensures Inv(Apply(s, AddImplicit(p, f)))
  {
    hide Flatten, AddNode, StandsIn;
  }

  lemma AddCellListed(s: State, cell: Cell, ps: seq<nat>)
    requires Inv(s) && Enabled(s, AddCell(cell, ps))
    ensures
      var s' := Apply(s, AddCell(cell, ps));
      ListedOk(s'.pending, s'.added.Keys) && IdealIn(s'.ideal, s'.added.Keys)
  {
    hide NamesOk, IdealOk, Flatten, AddTimes, Count;
    var rs, l, s' := Roots(s.root, ps), Removable(cell), Apply(s, AddCell(cell, ps));
    forall p | p in s.pending
      ensures s'.pending[p].deferred <= THROTTLE && CellsIn(Flatten(s'.pending[p].regular), s'.added.Keys)
    {
      AddedList(s.pending[p], Count(rs, p), l);
    }
  }

  lemma AddCellIdeal(s: State, cell: Cell, ps: seq<nat>)
    requires Inv(s) && Enabled(s, AddCell(cell, ps))
    ensures
      var s' := Apply(s, AddCell(cell, ps));
      IdealOk(s'.added, s'.root, s'.ideal) && NamesOk(s')
  {
    hide ListedOk, IdealIn, Flatten, StandsIn, Count, AddTimes;
    var rs, l, s' := Roots(s.root, ps), Removable(cell), Apply(s, AddCell(cell, ps));
    forall c, p | c in s'.added && p in s'.ideal && StandsIn(s'.root, s'.added[c], p)
      ensures Removable(c) in s'.ideal[p]
    {
      if c == cell {
        CountPositive(s.root, ps, p);
        assert Repeat(Count(rs, p), l)[0] == l;
      }
    }
  }

  lemma AddCellKeepsInv(s: State, cell: Cell, ps: seq<nat>)
    requires Inv(s) && Enabled(s, AddCell(cell, ps))
    ensures Inv(Apply(s, AddCell(cell, ps)))
  {
    hide NamesOk, IdealOk, ListedOk, IdealIn, AddTimes, Count;
    AddCellListed(s, cell, ps);
    AddCellIdeal(s, cell, ps);
  }

  lemma MergeListed(s: State, from: nat, into: nat)
    requires Inv(s) && Enabled(s, Merge(from, into))
    ensures
      var s' := Apply(s, Merge(from, into));
      ListedOk(s'.pending, s'.added.Keys) && IdealIn(s'.ideal, s'.added.Keys)
  {
    hide Flatten, MergeCallbacks, IdealOk, NamesOk;
    MergedList(s.pending[from], s.pending[into], s.filled);
  }

  lemma MergeIdeal(s: State, from: nat, into: nat)
    requires Inv(s) && Enabled(s, Merge(from, into))
    ensures
      var s' := Apply(s, Merge(from, into));
      IdealOk(s'.added, s'.root, s'.ideal) && NamesOk(s')
  {
    hide MergeCallbacks, ListedOk, IdealIn;
    var s' := Apply(s, Merge(from, into));
    forall c, p | c in s.added && p in s'.ideal && StandsIn(s'.root, s.added[c], p)
      ensures Removable(c) in s'.ideal[p]
    {
      var i :| 0 <= i < |s.added[c]| && s.added[c][i] in s'.root && s'.root[s.added[c][i]] == p;
      var q := s.root[s.added[c][i]];
      assert StandsIn(s.root, s.added[c], q);
      assert Removable(c) in s.ideal[q];
    }
  }

  lemma MergeKeepsInv(s: State, from: nat, into: nat)
    requires Inv(s) && Enabled(s, Merge(from, into))
    ensures Inv(Apply(s, Merge(from, into)))
  {
    hide NamesOk, IdealOk, ListedOk, IdealIn, MergeCallbacks;
    MergeListed(s, from, into);
    MergeIdeal(s, from, into);
  }

  lemma MergedList(from: Callbacks, into: Callbacks, filled: set<Cell>)
    ensures
      var m := MergeCallbacks(from, into, filled);
      && m.deferred <= THROTTLE
      && forall l :: l in Flatten(m.regular) ==> l in Flatten(into.regular) || l in Flatten(from.regular)
  {
    var regular := ConcatTrees(into.regular, from.regular);
    assert Flatten(regular) == Flatten(into.regular) + Flatten(from.regular);
    CleanUpKeepsLive(regular, filled);
  }

  lemma ResolveKeepsInv(s: State, p: nat)
    requires Inv(s) && Enabled(s, Resolve(p))
    ensures Inv(Apply(s, Resolve(p)))
  {
    hide StandsIn, Flatten, CellsIn;
  }

  lemma ClearKeepsInv(s: State, cell: Cell)
    requires Inv(s) && Enabled(s, Clear(cell))
    ensures Inv(Apply(s, Clear(cell)))
  {
    hide Flatten, VisitTimes, StandsIn, Count;
    var rs, s' := Roots(s.root, s.added[cell]), Apply(s, Clear(cell));
    forall p | p in s.pending
      ensures s'.pending[p].deferred <= THROTTLE && CellsIn(Flatten(s'.pending[p].regular), s'.added.Keys)
    {
      VisitsShrink(s.pending[p], Count(rs, p), s'.filled);
    }
  }

  lemma StepKeepsInv(s: State, a: Step)
    requires Inv(s) && Enabled(s, a)
    ensures Inv(Apply(s, a))
  {
    hide Inv, Apply, Enabled;
    match a
    case NewPromise(p) => NewKeepsInv(s, p);
    case AddImplicit(p, f) => ImplicitKeepsInv(s, p, f);
    case AddCell(cell, ps) => AddCellKeepsInv(s, cell, ps);
    case Merge(from, into) => MergeKeepsInv(s, from, into);
    case Resolve(p) => ResolveKeepsInv(s, p);
    case Clear(cell) => ClearKeepsInv(s, cell);
  }

  // ------------------------------------------------------------------------------------------
  // When callbacks are lost
  // ------------------------------------------------------------------------------------------

  /** The step clears a cell, and at some promise the clearing takes another callback for the cleared cell. */
  ghost predicate Lossy(s: State, a: Step) {
    && a.Clear? && a.cell in s.added && Known(s, s.added[a.cell])
    && exists p :: p in s.pending &&
                   LosesCallback(s.pending[p], Count(Roots(s.root, s.added[a.cell]), p), s.filled - {a.cell})
  }

  /** What is live after more cells are emptied was live before. */
  lemma {:induction false} LiveNarrow(ls: seq<Regular>, filled: set<Cell>, fewer: set<Cell>)
    requires fewer <= filled
    ensures Live(Live(ls, filled), fewer) == Live(ls, fewer)
  {
    if ls != [] {
      LiveNarrow(ls[1..], filled, fewer);
      if IsLive(ls[0], filled) {
        assert Live(ls, filled)[1..] == Live(ls[1..], filled);
      }
    }
  }

  lemma LiveCons(l: Regular, ls: seq<Regular>, filled: set<Cell>)
    ensures Live([l] + ls, filled) == if IsLive(l, filled) then [l] + Live(ls, filled) else Live(ls, filled)
  {
    assert ([l] + ls)[1..] == ls;
  }

  /** A cell that is not listed may be filled. */
  lemma LiveWider(ls: seq<Regular>, cells: set<Cell>, cell: Cell, filled: set<Cell>)
    requires CellsIn(ls, cells) && cell !in cells && cell !in filled
    ensures Live(ls, filled + {cell}) == Live(ls, filled)
  {
    LiveWithout(ls, cell, filled + {cell});
    assert filled + {cell} - {cell} == filled;
  }

  lemma AddCellLoses(s: State, cell: Cell, ps: seq<nat>)
    requires Inv(s) && Enabled(s, AddCell(cell, ps)) && NothingLost(s)
    ensures NothingLost(Apply(s, AddCell(cell, ps)))
  {
    hide IdealOk, CellsIn, Live, Flatten, AddTimes, Count;
    var rs, l, s' := Roots(s.root, ps), Removable(cell), Apply(s, AddCell(cell, ps));
    forall p | p in s.pending ensures Live(Flatten(s'.pending[p].regular), s'.filled) == Live(s'.ideal[p], s'.filled) {
      AddedList(s.pending[p], Count(rs, p), l);
      LiveWider(Flatten(s.pending[p].regular), s.added.Keys, cell, s.filled);
      LiveWider(s.ideal[p], s.added.Keys, cell, s.filled);
      LiveConcat(Repeat(Count(rs, p), l), Flatten(s.pending[p].regular), s'.filled);
      LiveConcat(Repeat(Count(rs, p), l), s.ideal[p], s'.filled);
    }
  }

  lemma MergeLoses(s: State, from: nat, into: nat)
    requires Inv(s) && Enabled(s, Merge(from, into)) && NothingLost(s)
    ensures NothingLost(Apply(s, Merge(from, into)))
  {
    hide NamesOk, IdealOk, ListedOk, IdealIn, Live, Flatten, MergeCallbacks;
    MergeKeepsCallbacks(s.pending[from], s.pending[into], s.filled);
    LiveConcat(s.ideal[into], s.ideal[from], s.filled);
  }

  lemma ImplicitLoses(s: State, p: nat, f: nat)
    requires Inv(s) && Enabled(s, AddImplicit(p, f)) && NothingLost(s)
    ensures NothingLost(Apply(s, AddImplicit(p, f)))
  {
    hide NamesOk, IdealOk, ListedOk, IdealIn, Live, Flatten, AddNode;
    var q := s.root[p];
    LiveCons(Implicit(f), Flatten(s.pending[q].regular), s.filled);
    LiveCons(Implicit(f), s.ideal[q], s.filled);
    AddedNode(s.pending[q].regular, Implicit(f));
  }

  lemma AddedNode(t: Tree<Regular>, l: Regular)
    ensures Flatten(AddNode(t, l)) == [l] + Flatten(t)
  {
  }

  /** Clearing a cell at one promise, whose live callbacks are the ideal ones. */
  lemma ClearedList(cb: Callbacks, ideal: seq<Regular>, cell: Cell, k: nat, filled: set<Cell>)
    requires Live(Flatten(cb.regular), filled) == Live(ideal, filled) && cb.deferred <= THROTTLE
    ensures Live(Flatten(VisitTimes(cb, k, filled - {cell}).regular), filled - {cell}) == Live(ideal, filled - {cell})
            <==> !LosesCallback(cb, k, filled - {cell})
  {
    LiveNarrow(Flatten(cb.regular), filled, filled - {cell});
    LiveNarrow(ideal, filled, filled - {cell});
    VisitsExact(cb, k, filled - {cell});
  }

  lemma ClearLosesExactly(s: State, cell: Cell)
    requires Inv(s) && Enabled(s, Clear(cell)) && NothingLost(s)
    ensures NothingLost(Apply(s, Clear(cell))) <==> !Lossy(s, Clear(cell))
  {
    hide NamesOk, IdealOk, IdealIn, Live, Flatten, VisitTimes, LosesCallback, Count, CellsIn;
    var rs, s' := Roots(s.root, s.added[cell]), Apply(s, Clear(cell));
    forall p | p in s.pending
      ensures Live(Flatten(s'.pending[p].regular), s'.filled) == Live(s'.ideal[p], s'.filled)
              <==> !LosesCallback(s.pending[p], Count(rs, p), s'.filled)
    {
      ClearedList(s.pending[p], s.ideal[p], cell, Count(rs, p), s.filled);
    }
    if NothingLost(s') {
      forall p | p in s.pending ensures !LosesCallback(s.pending[p], Count(rs, p), s'.filled) {
        assert p in s'.pending && p in s'.ideal;
      }
    }
  }

  /** One step loses a callback exactly if it clears a cell in the case of `LosesCallback`. */
  lemma StepLosesExactly(s: State, a: Step)
    requires Inv(s) && Enabled(s, a) && NothingLost(s)
    ensures NothingLost(Apply(s, a)) <==> !Lossy(s, a)
  {
    match a
    case NewPromise(p) => hide Live;
    case AddImplicit(p, f) => ImplicitLoses(s, p, f);
    case AddCell(cell, ps) => AddCellLoses(s, cell, ps);
    case Merge(from, into) => MergeLoses(s, from, into);
    case Resolve(p) => hide Live, Flatten;
    case Clear(cell) => ClearLosesExactly(s, cell);
  }

  /** While nothing has been lost, every filled cell is listed at each pending promise that it was added to, and so a
      cell that is alone in the list of such a promise is the one that is cleared there. */
  lemma FilledIsListed(s: State, cell: Cell, p: nat)
    requires Inv(s) && NothingLost(s) && cell in s.filled && p in s.pending && StandsIn(s.root, s.added[cell], p)
    ensures Removable(cell) in Flatten(s.pending[p].regular)
    ensures s.pending[p].regular.Leaf? ==> s.pending[p].regular == Leaf(Removable(cell))
  {
    hide ListedOk, IdealIn, StandsIn;
    assert Removable(cell) in s.ideal[p];
    LiveHas(s.ideal[p], Removable(cell), s.filled);
    LiveHas(Flatten(s.pending[p].regular), Removable(cell), s.filled);
  }

  /** The promises that the cell was added to and that are pending stand for pairwise distinct ones. */
  ghost predicate ClearsDistinct(s: State, a: Step) {
    a.Clear? && a.cell in s.added && Known(s, s.added[a.cell]) ==>
      var rs := Roots(s.root, s.added[a.cell]);
      forall i, k :: 0 <= i < k < |rs| && rs[i] in s.pending ==> rs[i] != rs[k]
  }

  /** Clearing a cell then loses nothing. */
  lemma DistinctLosesNothing(s: State, a: Step)
    requires Inv(s) && Enabled(s, a) && NothingLost(s) && ClearsDistinct(s, a)
    ensures !Lossy(s, a)
  {
    if a.Clear? {
      forall p | p in s.pending
        ensures !LosesCallback(s.pending[p], Count(Roots(s.root, s.added[a.cell]), p), s.filled - {a.cell})
      {
        DistinctCount(Roots(s.root, s.added[a.cell]), p);
        OneVisitLosesNothing(s, a.cell, p);
      }
    }
  }

  lemma OneVisitLosesNothing(s: State, cell: Cell, p: nat)
    requires Inv(s) && Enabled(s, Clear(cell)) && NothingLost(s) && p in s.pending
    requires Count(Roots(s.root, s.added[cell]), p) <= 1
    ensures !LosesCallback(s.pending[p], Count(Roots(s.root, s.added[cell]), p), s.filled - {cell})
  {
    var cb := s.pending[p];
    CountPositive(s.root, s.added[cell], p);
    if Count(Roots(s.root, s.added[cell]), p) == 1 && cb.regular.Leaf? {
      FilledIsListed(s, cell, p);
      assert Flatten(cb.regular) == [Removable(cell)];
      LiveOne(Removable(cell), s.filled - {cell});
    }
  }

  // ------------------------------------------------------------------------------------------
  // Every run
  // ------------------------------------------------------------------------------------------

  ghost predicate IsRun(ss: seq<State>, steps: seq<Step>) {
    && |ss| == |steps| + 1 && ss[0] == INITIAL
    && forall n :: 0 <= n < |steps| ==> Enabled(ss[n], steps[n]) && ss[n + 1] == Apply(ss[n], steps[n])
  }

  lemma {:induction false} RunInv(ss: seq<State>, steps: seq<Step>, n: nat)
    requires IsRun(ss, steps) && n <= |steps|
    ensures Inv(ss[n])
  {
    hide Inv, Enabled, Apply;
    if n == 0 {
      InitialInv();
    } else {
      RunInv(ss, steps, n - 1);
      StepKeepsInv(ss[n - 1], steps[n - 1]);
    }
  }

  lemma InitialInv()
    ensures Inv(INITIAL) && NothingLost(INITIAL)
  {
  }

  lemma {:induction false} RunLosesNothing(ss: seq<State>, steps: seq<Step>, n: nat)
    requires IsRun(ss, steps) && n <= |steps| && forall k :: 0 <= k < n ==> !Lossy(ss[k], steps[k])
    ensures NothingLost(ss[n])
  {
    hide Inv, Enabled, Apply, Lossy, NothingLost;
    if n == 0 {
      InitialInv();
    } else {
      RunLosesNothing(ss, steps, n - 1);
      RunInv(ss, steps, n - 1);
      StepLosesExactly(ss[n - 1], steps[n - 1]);
    }
  }

  /** In every run, the lists keep all live callbacks, in order, throughout exactly if no cell is ever cleared in the
      case of `LosesCallback`. */
  lemma RunLosesExactly(ss: seq<State>, steps: seq<Step>)
    requires IsRun(ss, steps)
    ensures (forall n :: 0 <= n < |ss| ==> NothingLost(ss[n])) <==>
            (forall n :: 0 <= n < |steps| ==> !Lossy(ss[n], steps[n]))
  {
    hide Inv, Enabled, Apply, Lossy, NothingLost;
    if forall n :: 0 <= n < |steps| ==> !Lossy(ss[n], steps[n]) {
      forall n | 0 <= n < |ss| ensures NothingLost(ss[n]) {
        RunLosesNothing(ss, steps, n);
      }
    }
    if forall n :: 0 <= n < |ss| ==> NothingLost(ss[n]) {
      forall n | 0 <= n < |steps| ensures !Lossy(ss[n], steps[n]) {
        RunInv(ss, steps, n);
        assert NothingLost(ss[n + 1]);
        StepLosesExactly(ss[n], steps[n]);
      }
    }
  }

  /** In every run in which the promises that a cleared cell was added to always stand for pairwise distinct ones,
      clearing removes that cell and keeps every other live callback, wherever it is listed. */
  lemma {:induction false} ClearKeepsOthers(ss: seq<State>, steps: seq<Step>, n: nat)
    requires IsRun(ss, steps) && n <= |steps| && forall k :: 0 <= k < n ==> ClearsDistinct(ss[k], steps[k])
    ensures NothingLost(ss[n])
  {
    hide Inv, Enabled, Apply, Lossy, NothingLost, ClearsDistinct;
    if n == 0 {
      InitialInv();
    } else {
      ClearKeepsOthers(ss, steps, n - 1);
      RunInv(ss, steps, n - 1);
      DistinctLosesNothing(ss[n - 1], steps[n - 1]);
      StepLosesExactly(ss[n - 1], steps[n - 1]);
    }
  }

  /** As long as nothing has been lost, resolving a promise runs what it would run if its list were never swept. */
  lemma SweepsAreInvisible(s: State, p: nat, fires: (seq<Regular>, Regular) -> bool)
    requires NothingLost(s) && p in s.pending && p in s.ideal
    requires forall d, l :: fires(d, l) ==> IsLive(l, s.filled)
    ensures RunList(Flatten(s.pending[p].regular), [], fires) == RunList(s.ideal[p], [], fires)
  {
    CleanUpKeepsRuns(Flatten(s.pending[p].regular), s.filled, [], fires);
    CleanUpKeepsRuns(s.ideal[p], s.filled, [], fires);
  }

  /** What is registered with each promise: new callbacks go in front, a cell as often as its promises stand for that
      one; merging puts those of the other promise behind; clearing empties exactly its cell and registers nothing. */
  lemma RegisteredLaw(s: State, a: Step, p: nat)
    requires Inv(s) && Enabled(s, a) && p in Apply(s, a).pending
    ensures
      var s' := Apply(s, a);
      && p in s'.ideal
      && s'.ideal[p] ==
         if a.NewPromise? && a.p == p then []
         else if a.AddImplicit? && s.root[a.p] == p then [Implicit(a.f)] + s.ideal[p]
         else if a.AddCell? then Repeat(Count(Roots(s.root, a.ps), p), Removable(a.cell)) + s.ideal[p]
         else if a.Merge? && a.into == p then s.ideal[p] + s.ideal[a.from]
         else s.ideal[p]
    ensures Apply(s, a).filled ==
            if a.AddCell? then s.filled + {a.cell} else if a.Clear? then s.filled - {a.cell} else s.filled
    ensures Apply(s, a).pending.Keys ==
            if a.NewPromise? then s.pending.Keys + {a.p}
            else if a.Merge? then s.pending.Keys - {a.from}
            else if a.Resolve? then s.pending.Keys - {a.p}
            else s.pending.Keys
  {
    hide NamesOk, ListedOk, IdealIn, IdealOk, Count;
  }

  // ------------------------------------------------------------------------------------------
  // A lost callback makes another one be lost
  // ------------------------------------------------------------------------------------------

  lemma RunSnoc(ss: seq<State>, steps: seq<Step>, s: State, a: Step)
    requires IsRun(ss, steps) && ss != [] && ss[|ss| - 1] == s && Enabled(s, a)
    ensures IsRun(ss + [Apply(s, a)], steps + [a])
  {
    hide Enabled, Apply;
    var ss', steps' := ss + [Apply(s, a)], steps + [a];
    forall n | 0 <= n < |steps'| ensures Enabled(ss'[n], steps'[n]) && ss'[n + 1] == Apply(ss'[n], steps'[n]) {
      if n < |steps| {
        assert ss'[n] == ss[n] && ss'[n + 1] == ss[n + 1] && steps'[n] == steps[n];
      }
    }
  }

  /** Promise 0 is pending, alone, lists only emptied cells below `n`, and `d` clean-ups have been deferred for it. */
  ghost predicate OnlyEmptied(s: State, n: nat, d: nat) {
    && s.pending.Keys == s.ideal.Keys && s.pending.Keys == {0} && s.filled == {}
    && (forall c: nat :: c in s.added <==> c < n)
    && (forall p: nat :: p in s.root <==> p <= n) && (forall p :: p in s.root ==> s.root[p] == p)
    && s.pending[0].deferred == d && !s.pending[0].regular.Leaf?
    && forall l :: l in Flatten(s.pending[0].regular) ==> l.Removable? && l.cell < n
  }

  lemma AddTwice(cb: Callbacks, l: Regular)
    ensures
      var cb' := AddTimes(cb, 2, l);
      && cb'.regular.Concat? && cb'.deferred == cb.deferred
      && Flatten(cb'.regular) == [l, l] + Flatten(cb.regular)
  {
    AddedList(cb, 2, l);
    assert Repeat(2, l) == [l, l];
    AddAgain(cb, 1, l);
    assert AddTimes(cb, 1, l) == AddTimes(cb.(regular := AddNode(cb.regular, l)), 0, l);
  }

  lemma TwoVisitsDeferred(cb: Callbacks, filled: set<Cell>)
    requires !cb.regular.Leaf? && cb.deferred + 2 <= THROTTLE
    ensures VisitTimes(cb, 2, filled) == cb.(deferred := cb.deferred + 2)
  {
    var next := Visit(cb, filled);
    assert VisitTimes(cb, 2, filled) == VisitTimes(next, 1, filled) == VisitTimes(Visit(next, filled), 0, filled);
  }

  lemma TwiceThenOnce(ps: seq<nat>, y: nat)
    requires ps == [0, 0, y] && y != 0
    ensures Count(ps, 0) == 2 && Count(ps, y) == 1
  {
    assert ps[1..] == [0, y] && ps[1..][1..] == [y] && ps[1..][1..][1..] == [];
    assert Count(ps, 0) == 1 + Count(ps[1..], 0) == 2 + Count(ps[1..][1..], 0);
    assert Count(ps, y) == Count(ps[1..], y) == Count(ps[1..][1..], y);
  }

  lemma IdentityRoots(root: map<nat, nat>, ps: seq<nat>)
    requires forall i :: 0 <= i < |ps| ==> ps[i] in root && root[ps[i]] == ps[i]
    ensures Roots(root, ps) == ps
  {
  }

  /** As `OnlyEmptied`, but that the cell `n`, added to promise 0 twice and to the resolved promise `n + 1`, is
      filled. */
  ghost predicate OneFilled(s: State, n: nat, d: nat) {
    && s.pending.Keys == s.ideal.Keys && s.pending.Keys == {0} && s.filled == {n}
    && (forall c: nat :: c in s.added <==> c <= n) && s.added[n] == [0, 0, n + 1]
    && (forall p: nat :: p in s.root <==> p <= n + 1) && (forall p :: p in s.root ==> s.root[p] == p)
    && s.pending[0].deferred == d && !s.pending[0].regular.Leaf?
    && forall l :: l in Flatten(s.pending[0].regular) ==> l.Removable? && l.cell <= n
  }

  /** As `OnlyEmptied`, but that the promise `n + 1` is pending too. */
  ghost predicate OnePending(s: State, n: nat, d: nat) {
    && s.pending.Keys == s.ideal.Keys && s.pending.Keys == {0, n + 1} && s.filled == {}
    && (forall c: nat :: c in s.added <==> c < n)
    && (forall p: nat :: p in s.root <==> p <= n + 1) && (forall p :: p in s.root ==> s.root[p] == p)
    && s.pending[0].deferred == d && !s.pending[0].regular.Leaf?
    && forall l :: l in Flatten(s.pending[0].regular) ==> l.Removable? && l.cell < n
  }

  lemma PromiseIsAdded(s: State, n: nat, d: nat)
    requires OnlyEmptied(s, n, d)
    ensures Enabled(s, NewPromise(n + 1)) && OnePending(Apply(s, NewPromise(n + 1)), n, d)
  {
    hide Flatten;
  }

  lemma CellIsAdded(s: State, n: nat, d: nat, ps: seq<nat>)
    requires OnePending(s, n, d) && ps == [0, 0, n + 1]
    ensures Enabled(s, AddCell(n, ps)) && Enabled(Apply(s, AddCell(n, ps)), Resolve(n + 1))
    ensures OneFilled(Apply(Apply(s, AddCell(n, ps)), Resolve(n + 1)), n, d)
  {
    hide Flatten, AddTimes, Count;
    var s2 := Apply(s, AddCell(n, ps));
    IdentityRoots(s.root, ps);
    TwiceThenOnce(ps, n + 1);
    AddTwice(s.pending[0], Removable(n));
    assert s2.pending[0] == AddTimes(s.pending[0], 2, Removable(n));
  }

  lemma CellIsCleared(s: State, n: nat, d: nat)
    requires OneFilled(s, n, d) && d + 2 <= THROTTLE
    ensures Enabled(s, Clear(n)) && OnlyEmptied(Apply(s, Clear(n)), n + 1, d + 2)
  {
    hide Flatten, VisitTimes, Count;
    var ps := s.added[n];
    IdentityRoots(s.root, ps);
    TwiceThenOnce(ps, n + 1);
    assert ps[2] == n + 1;
    TwoVisitsDeferred(s.pending[0], {});
    assert s.filled - {n} == {};
  }

  /** The promise `n + 1` is created, `choose` is called with promise 0 twice and with the new one, which is then
      resolved, so that the cell is cleared. */
  lemma Round(ss: seq<State>, steps: seq<Step>, n: nat, d: nat) returns (ss': seq<State>, steps': seq<Step>)
    requires IsRun(ss, steps) && ss != [] && OnlyEmptied(ss[|ss| - 1], n, d) && d + 2 <= THROTTLE
    ensures IsRun(ss', steps') && ss' != [] && OnlyEmptied(ss'[|ss'| - 1], n + 1, d + 2)
  {
    hide IsRun, OnlyEmptied, OnePending, OneFilled, Enabled, Apply;
    var s := ss[|ss| - 1];
    var ps: seq<nat> := [0, 0, n + 1];
    PromiseIsAdded(s, n, d);
    RunSnoc(ss, steps, s, NewPromise(n + 1));
    var s1 := Apply(s, NewPromise(n + 1));
    CellIsAdded(s1, n, d, ps);
    RunSnoc(ss + [s1], steps + [NewPromise(n + 1)], s1, AddCell(n, ps));
    var s2 := Apply(s1, AddCell(n, ps));
    ss', steps' := ss + [s1] + [s2], steps + [NewPromise(n + 1)] + [AddCell(n, ps)];
    RunSnoc(ss', steps', s2, Resolve(n + 1));
    var s3 := Apply(s2, Resolve(n + 1));
    ss', steps' := ss' + [s3], steps' + [Resolve(n + 1)];
    CellIsCleared(s3, n, d);
    RunSnoc(ss', steps', s3, Clear(n));
    ss', steps' := ss' + [Apply(s3, Clear(n))], steps' + [Clear(n)];
  }

  lemma {:induction false} Rounds(n: nat) returns (ss: seq<State>, steps: seq<Step>)
    requires 2 * n <= THROTTLE
    ensures IsRun(ss, steps) && ss != [] && OnlyEmptied(ss[|ss| - 1], n, 2 * n)
  {
    hide IsRun, OnlyEmptied;
    if n == 0 {
      ss, steps := Start();
    } else {
      ss, steps := Rounds(n - 1);
      ss, steps := Round(ss, steps, n - 1, 2 * (n - 1));
    }
  }

  lemma Start() returns (ss: seq<State>, steps: seq<Step>)
    ensures IsRun(ss, steps) && ss != [] && OnlyEmptied(ss[|ss| - 1], 0, 0)
  {
    assert IsRun([INITIAL], []);
    RunSnoc([INITIAL], [], INITIAL, NewPromise(0));
    ss, steps := [INITIAL] + [Apply(INITIAL, NewPromise(0))], [] + [NewPromise(0)];
  }

  /** Promise 0 lists cell 21 and, twice, cell 22; 42 clean-ups have been deferred for it; the promise 23, to which cell
      22 was added as well, has been resolved. */
  ghost predicate BeforeLoss(s: State) {
    && s.pending.Keys == s.ideal.Keys && s.pending.Keys == {0, 22, 24} && s.filled == {21, 22}
    && (forall c: nat :: c in s.added <==> c <= 22) && s.added[21] == [0, 22] && s.added[22] == [0, 0, 23]
    && (forall p: nat :: p in s.root <==> p <= 24) && (forall p :: p in s.root ==> s.root[p] == p)
    && s.pending[0].deferred == 42 && s.pending[0].regular.Concat?
    && Live(Flatten(s.pending[0].regular), {21}) == [Removable(21)]
  }

  ghost predicate AllKnown(s: State, n: nat) {
    && s.pending.Keys == s.ideal.Keys
    && (forall p: nat :: p in s.root <==> p <= n) && (forall p :: p in s.root ==> s.root[p] == p)
  }

  /** The promises 22, 23 and 24 are pending too. */
  ghost predicate OthersPending(s: State) {
    && AllKnown(s, 24) && s.pending.Keys == {0, 22, 23, 24} && s.filled == {}
    && (forall c: nat :: c in s.added <==> c < 21) && s.pending[0].deferred == 42
    && forall l :: l in Flatten(s.pending[0].regular) ==> l.Removable? && l.cell < 21
  }

  lemma OthersArePending(ss: seq<State>, steps: seq<Step>) returns (ss': seq<State>, steps': seq<Step>)
    requires IsRun(ss, steps) && ss != [] && OnlyEmptied(ss[|ss| - 1], 21, 42)
    ensures IsRun(ss', steps') && ss' != [] && OthersPending(ss'[|ss'| - 1])
  {
    hide IsRun, Flatten;
    var s := ss[|ss| - 1];
    RunSnoc(ss, steps, s, NewPromise(22));
    var s1 := Apply(s, NewPromise(22));
    RunSnoc(ss + [s1], steps + [NewPromise(22)], s1, NewPromise(23));
    var s2 := Apply(s1, NewPromise(23));
    ss', steps' := ss + [s1] + [s2], steps + [NewPromise(22)] + [NewPromise(23)];
    RunSnoc(ss', steps', s2, NewPromise(24));
    ss', steps' := ss' + [Apply(s2, NewPromise(24))], steps' + [NewPromise(24)];
  }

  lemma OnceEach(ps: seq<nat>, x: nat, y: nat)
    requires ps == [x, y] && x != y
    ensures forall p :: Count(ps, p) == if p == x || p == y then 1 else 0
  {
    assert ps[1..] == [y] && ps[1..][1..] == [];
    forall p ensures Count(ps, p) == if p == x || p == y then 1 else 0 {
      assert Count(ps, p) == (if ps[0] == p then 1 else 0) + Count(ps[1..], p);
      assert Count(ps[1..], p) == (if ps[1..][0] == p then 1 else 0) + Count(ps[1..][1..], p);
    }
  }

  lemma AddOnce(cb: Callbacks, l: Regular)
    ensures AddTimes(cb, 1, l) == cb.(regular := AddNode(cb.regular, l))
  {
    assert AddTimes(cb, 1, l) == AddTimes(cb.(regular := AddNode(cb.regular, l)), 0, l);
  }

  lemma {:induction false} NoneLive(ls: seq<Regular>, filled: set<Cell>)
    requires forall l :: l in ls ==> !IsLive(l, filled)
    ensures Live(ls, filled) == []
  {
    if ls != [] {
      assert ls[0] in ls;
      NoneLive(ls[1..], filled);
    }
  }

  /** `choose` is called with the promises 0 and 22. */
  ghost predicate FirstAdded(s: State) {
    && AllKnown(s, 24) && s.pending.Keys == {0, 22, 23, 24} && s.filled == {21}
    && (forall c: nat :: c in s.added <==> c <= 21) && s.added[21] == [0, 22] && s.pending[0].deferred == 42
    && Live(Flatten(s.pending[0].regular), {21}) == [Removable(21)]
  }

  lemma FirstIsAdded(s: State, ps: seq<nat>)
    requires OthersPending(s) && ps == [0, 22]
    ensures Enabled(s, AddCell(21, ps)) && FirstAdded(Apply(s, AddCell(21, ps)))
  {
    hide Flatten, AddTimes, Count, AddNode;
    IdentityRoots(s.root, ps);
    OnceEach(ps, 0, 22);
    AddOnce(s.pending[0], Removable(21));
    AddedNode(s.pending[0].regular, Removable(21));
    NoneLive(Flatten(s.pending[0].regular), {21});
    LiveCons(Removable(21), Flatten(s.pending[0].regular), {21});
    hide Live;
  }

  lemma SecondIsAdded(s: State, ps: seq<nat>)
    requires FirstAdded(s) && ps == [0, 0, 23]
    ensures Enabled(s, AddCell(22, ps)) && Enabled(Apply(s, AddCell(22, ps)), Resolve(23))
    ensures BeforeLoss(Apply(Apply(s, AddCell(22, ps)), Resolve(23)))
  {
    hide Flatten, AddTimes, Count, Live;
    var l, ls := Removable(22), Flatten(s.pending[0].regular);
    IdentityRoots(s.root, ps);
    TwiceThenOnce(ps, 23);
    AddTwice(s.pending[0], l);
    assert [l, l] + ls == [l] + ([l] + ls);
    LiveCons(l, ls, {21});
    LiveCons(l, [l] + ls, {21});
    assert Apply(s, AddCell(22, ps)).pending[0] == AddTimes(s.pending[0], 2, l);
  }

  /** Cell 22 is cleared, and cell 21 is lost. */
  ghost predicate FirstLost(s: State) {
    && AllKnown(s, 24) && s.pending.Keys == {0, 22, 24} && s.filled == {21}
    && (forall c: nat :: c in s.added <==> c <= 22) && s.added[21] == [0, 22]
    && s.pending[0].deferred == 0 && s.pending[0].regular == Empty
  }

  lemma SweepThenLoss(cb: Callbacks, filled: set<Cell>)
    requires cb.deferred == THROTTLE && cb.regular.Concat?
    requires |Live(Flatten(cb.regular), filled)| == 1 && Live(Flatten(cb.regular), filled)[0].Removable?
    ensures VisitTimes(cb, 2, filled).regular == Empty && VisitTimes(cb, 2, filled).deferred == 0
  {
    CleanUpKeepsLive(cb.regular, filled);
    CleanUpShape(cb.regular, filled);
    var next := Visit(cb, filled);
    assert next.regular.Leaf? && Flatten(next.regular) == [next.regular.leaf];
    assert VisitTimes(cb, 2, filled) == VisitTimes(next, 1, filled) == VisitTimes(Visit(next, filled), 0, filled);
  }

  lemma FirstIsLost(s: State)
    requires BeforeLoss(s)
    ensures Enabled(s, Clear(22)) && FirstLost(Apply(s, Clear(22)))
  {
    hide Flatten, VisitTimes, Count, Live;
    var ps := s.added[22];
    IdentityRoots(s.root, ps);
    TwiceThenOnce(ps, 23);
    assert ps[2] == 23;
    assert s.filled - {22} == {21};
    SweepThenLoss(s.pending[0], {21});
  }

  /** Promise 0 lists cell 23, added by `choose` to the promises 0 and 24, and nothing else; the promise 22 has been
      resolved. */
  ghost predicate SecondStands(s: State) {
    && AllKnown(s, 24) && s.pending.Keys == {0, 24} && s.filled == {21, 23}
    && 21 in s.added && s.added[21] == [0, 22]
    && s.pending[0].deferred == 0 && s.pending[0].regular == Leaf(Removable(23))
  }

  lemma SecondStandsAlone(s: State, ps: seq<nat>)
    requires FirstLost(s) && ps == [0, 24]
    ensures Enabled(s, AddCell(23, ps)) && Enabled(Apply(s, AddCell(23, ps)), Resolve(22))
    ensures SecondStands(Apply(Apply(s, AddCell(23, ps)), Resolve(22)))
  {
    hide Flatten, AddTimes, Count;
    IdentityRoots(s.root, ps);
    OnceEach(ps, 0, 24);
    AddOnce(s.pending[0], Removable(23));
    assert Apply(s, AddCell(23, ps)).pending[0] == AddTimes(s.pending[0], 1, Removable(23));
  }

  lemma SecondIsLost(s: State)
    requires SecondStands(s)
    ensures Enabled(s, Clear(21)) && ClearsDistinct(s, Clear(21)) && Lossy(s, Clear(21))
    ensures 0 in Apply(s, Clear(21)).pending && Apply(s, Clear(21)).pending[0].regular == Empty
    ensures Apply(s, Clear(21)).filled == {23}
  {
    hide Count;
    var ps, cb := s.added[21], s.pending[0];
    IdentityRoots(s.root, ps);
    OnceEach(ps, 0, 22);
    assert ps[1] == 22;
    assert s.filled - {21} == {23};
    assert Flatten(cb.regular) == [Removable(23)];
    LiveOne(Removable(23), {23});
    assert LosesCallback(cb, 1, {23});
    assert VisitTimes(cb, 1, {23}) == VisitTimes(Visit(cb, {23}), 0, {23});
  }

  /** A run at the end of which a live callback is lost by clearing a cell that was added once each to two promises,
      with no clean-up deferred: the cell had been lost itself, by clearing one added twice to the same promise. */
  lemma LossSpreads() returns (ss: seq<State>, steps: seq<Step>)
    ensures IsRun(ss, steps) && |ss| > 1
    ensures
      var s, a, s' := ss[|ss| - 2], steps[|steps| - 1], ss[|ss| - 1];
      && ClearsDistinct(s, a) && Lossy(s, a) && 0 in s.pending && 0 in s'.pending && s'.filled == {23}
      && s.pending[0].deferred == 0 && s.pending[0].regular == Leaf(Removable(23)) && s'.pending[0].regular == Empty
  {
    hide IsRun, OnlyEmptied, OthersPending, FirstAdded, BeforeLoss, FirstLost, Enabled, Apply, Lossy, ClearsDistinct;
    ss, steps := Rounds(21);
    ss, steps := OthersArePending(ss, steps);
    ss, steps := FirstLoss(ss, steps);
    var s := ss[|ss| - 1];
    SecondStandsAlone(s, [0, 24]);
    RunSnoc(ss, steps, s, AddCell(23, [0, 24]));
    var s1 := Apply(s, AddCell(23, [0, 24]));
    ss, steps := ss + [s1], steps + [AddCell(23, [0, 24])];
    RunSnoc(ss, steps, s1, Resolve(22));
    var s2 := Apply(s1, Resolve(22));
    ss, steps := ss + [s2], steps + [Resolve(22)];
    SecondIsLost(s2);
    RunSnoc(ss, steps, s2, Clear(21));
    ss, steps := ss + [Apply(s2, Clear(21))], steps + [Clear(21)];
  }

  lemma FirstLoss(ss: seq<State>, steps: seq<Step>) returns (ss': seq<State>, steps': seq<Step>)
    requires IsRun(ss, steps) && ss != [] && OthersPending(ss[|ss| - 1])
    ensures IsRun(ss', steps') && ss' != [] && FirstLost(ss'[|ss'| - 1])
  {
    hide IsRun, OthersPending, FirstAdded, BeforeLoss, FirstLost, Enabled, Apply;
    var s := ss[|ss| - 1];
    FirstIsAdded(s, [0, 22]);
    RunSnoc(ss, steps, s, AddCell(21, [0, 22]));
    var s1 := Apply(s, AddCell(21, [0, 22]));
    SecondIsAdded(s1, [0, 0, 23]);
    ss', steps' := ss + [s1], steps + [AddCell(21, [0, 22])];
    RunSnoc(ss', steps', s1, AddCell(22, [0, 0, 23]));
    var s2 := Apply(s1, AddCell(22, [0, 0, 23]));
    ss', steps' := ss' + [s2], steps' + [AddCell(22, [0, 0, 23])];
    RunSnoc(ss', steps', s2, Resolve(23));
    var s3 := Apply(s2, Resolve(23));
    ss', steps' := ss' + [s3], steps' + [Resolve(23)];
    FirstIsLost(s3);
    RunSnoc(ss', steps', s3, Clear(22));
    ss', steps' := ss' + [Apply(s3, Clear(22))], steps' + [Clear(22)];
  }
}
