/** What a run of the operator guarantees: materials outside the selection
    are untouched; a run that logs nothing changes nothing; with no checkbox
    ticked nothing happens; every material in a slot the walk reaches ends as
    one visit from its original state leaves it, however many slots hold it,
    and the log is the per-slot logs of those visits, whether or not a lookup
    raised; an error is raised exactly when some visit raises; and running
    the operator a second time changes nothing more. */
module OperatorLemmas {
  import opened Props
  import opened Scene
  import opened MaterialApply
  import opened ApplyLemmas
  import opened Operator

  /** The walk's step at the last slot. */
  lemma RunLast(p: Props, vs: seq<Material?>, h0: map<Material, MatState>)
    requires vs != []
    ensures var w := Run(p, vs[..|vs| - 1], h0);
            var m := vs[|vs| - 1];
            Run(p, vs, h0) ==
            if w.raised.Some? || m == null || m !in w.heap then w
            else
              var a := Apply(p, w.heap[m]);
              Walk(w.heap[m := a.state], w.log + a.log,
                   w.reports + (if a.warned then [Warning(IorLevelNotFound)] else []), a.raised)
  {
  }

  /** A material in no slot keeps its state. */
  lemma {:induction false} RunUntouched(p: Props, vs: seq<Material?>, h0: map<Material, MatState>, m: Material)
    requires m in h0 && m !in vs
    ensures Run(p, vs, h0).heap[m] == h0[m]
  {
    if vs != [] {
      assert m !in vs[..|vs| - 1];
      RunUntouched(p, vs[..|vs| - 1], h0, m);
      RunLast(p, vs, h0);
    }
  }

  /** A run that logs nothing leaves every material as it was. */
  lemma {:induction false} RunQuiet(p: Props, vs: seq<Material?>, h0: map<Material, MatState>)
    requires Run(p, vs, h0).log == []
    ensures Run(p, vs, h0).heap == h0
  {
    if vs != [] {
      var w := Run(p, vs[..|vs| - 1], h0);
      var m := vs[|vs| - 1];
      RunLast(p, vs, h0);
      assert w.log == [];
      RunQuiet(p, vs[..|vs| - 1], h0);
      if w.raised.None? && m != null && m in w.heap {
        ApplyQuietUnchanged(p, w.heap[m]);
        assert w.heap[m := w.heap[m]] == w.heap;
      }
    }
  }

  /** With no checkbox ticked the walk changes nothing, logs nothing, warns
      of nothing and raises nothing; a non-empty selection is then cancelled
      with the "no properties" warning. */
  lemma {:induction false} RunNoneEnabled(p: Props, vs: seq<Material?>, h0: map<Material, MatState>)
    requires NoneEnabled(p)
    ensures Run(p, vs, h0) == Walk(h0, [], [], None)
    ensures Verdict(Run(p, vs, h0)) == Outcome(Cancelled, [], [Warning(NoPropertiesSelected)])
  {
    if vs != [] {
      RunNoneEnabled(p, vs[..|vs| - 1], h0);
      RunLast(p, vs, h0);
      var m := vs[|vs| - 1];
      if m != null && m in h0 {
        ApplyNoneEnabled(p, h0[m]);
        assert h0[m := h0[m]] == h0;
      }
    }
  }

  // ---------------------------------------------------------------------------
  // The walk without an error, slot by slot

  /** The entries each slot's visit logs when made from the original state
      of its material, in slot order. */
  ghost function SlotLog(p: Props, vs: seq<Material?>, h0: map<Material, MatState>): seq<LogEntry>
  {
    if vs == [] then []
    else
      var m := vs[|vs| - 1];
      SlotLog(p, vs[..|vs| - 1], h0) + (if m != null && m in h0 then Apply(p, h0[m]).log else [])
  }

  /** The warnings each slot's visit reports when made from the original
      state of its material, in slot order. */
  ghost function SlotWarnings(p: Props, vs: seq<Material?>, h0: map<Material, MatState>): seq<Report>
  {
    if vs == [] then []
    else
      var m := vs[|vs| - 1];
      SlotWarnings(p, vs[..|vs| - 1], h0) +
      (if m != null && m in h0 && Apply(p, h0[m]).warned then [Warning(IorLevelNotFound)] else [])
  }

  /** The state of a material after the walk, from its original state. */
  ghost predicate OnceVisited(p: Props, vs: seq<Material?>, h0: map<Material, MatState>, h: map<Material, MatState>)
  {
    h.Keys == h0.Keys &&
    forall m :: m in h0 ==> h[m] == if m in vs then Apply(p, h0[m]).state else h0[m]
  }

  /** A visit from a state that is the original or the once-visited one acts
      as the visit from the original. */
  lemma VisitAgain(p: Props, st: MatState, cur: MatState)
    requires cur == st || cur == Apply(p, st).state
    ensures Apply(p, cur) == Apply(p, st)
  {
    ApplyIdempotent(p, st);
  }

  /** Without an error the walk is the independent visits: every material in
      a slot ends as one visit from its original state leaves it, and the log
      and warnings are those of each slot's visit from the original states. */
  lemma {:induction false} RunIndependent(p: Props, vs: seq<Material?>, h0: map<Material, MatState>)
    requires Run(p, vs, h0).raised.None?
    ensures OnceVisited(p, vs, h0, Run(p, vs, h0).heap)
    ensures Run(p, vs, h0).log == SlotLog(p, vs, h0)
    ensures Run(p, vs, h0).reports == SlotWarnings(p, vs, h0)
  {
    if vs != [] {
      var pre := vs[..|vs| - 1];
      var w := Run(p, pre, h0);
      var m := vs[|vs| - 1];
      RunLast(p, vs, h0);
      assert w.raised.None?;
      RunIndependent(p, pre, h0);
      IndependentStep(p, vs, h0);
    }
  }

  /** The step of `RunIndependent` at the last slot. */
  lemma IndependentStep(p: Props, vs: seq<Material?>, h0: map<Material, MatState>)
    requires vs != []
    requires var pre := vs[..|vs| - 1];
             Run(p, pre, h0).raised.None? && OnceVisited(p, pre, h0, Run(p, pre, h0).heap) &&
             Run(p, pre, h0).log == SlotLog(p, pre, h0) && Run(p, pre, h0).reports == SlotWarnings(p, pre, h0)
    ensures OnceVisited(p, vs, h0, Run(p, vs, h0).heap)
    ensures Run(p, vs, h0).log == SlotLog(p, vs, h0)
    ensures Run(p, vs, h0).reports == SlotWarnings(p, vs, h0)
  {
    var pre := vs[..|vs| - 1];
    var w := Run(p, pre, h0);
    var m := vs[|vs| - 1];
    if m != null && m in h0 {
      VisitAgain(p, h0[m], w.heap[m]);
      IndependentHeap(p, vs, h0);
      IndependentLog(p, vs, h0);
    } else {
      IndependentSkip(p, vs, h0);
    }
  }

  /** The log and warnings after a visit of the last slot's material. */
  lemma IndependentLog(p: Props, vs: seq<Material?>, h0: map<Material, MatState>)
    requires vs != [] && vs[|vs| - 1] != null && vs[|vs| - 1] in h0
    requires var pre := vs[..|vs| - 1];
             var m := vs[|vs| - 1];
             Run(p, pre, h0).raised.None? && m in Run(p, pre, h0).heap &&
             Run(p, pre, h0).log == SlotLog(p, pre, h0) && Run(p, pre, h0).reports == SlotWarnings(p, pre, h0) &&
             Apply(p, Run(p, pre, h0).heap[m]).log == Apply(p, h0[m]).log &&
             Apply(p, Run(p, pre, h0).heap[m]).warned == Apply(p, h0[m]).warned
    ensures Run(p, vs, h0).log == SlotLog(p, vs, h0)
    ensures Run(p, vs, h0).reports == SlotWarnings(p, vs, h0)
  {
    RunLast(p, vs, h0);
  }

  /** The last slot is empty or holds a material without a state. */
  lemma IndependentSkip(p: Props, vs: seq<Material?>, h0: map<Material, MatState>)
    requires vs != [] && (vs[|vs| - 1] == null || vs[|vs| - 1] !in h0)
    requires var pre := vs[..|vs| - 1];
             Run(p, pre, h0).raised.None? && OnceVisited(p, pre, h0, Run(p, pre, h0).heap) &&
             Run(p, pre, h0).log == SlotLog(p, pre, h0) && Run(p, pre, h0).reports == SlotWarnings(p, pre, h0)
    ensures OnceVisited(p, vs, h0, Run(p, vs, h0).heap)
    ensures Run(p, vs, h0).log == SlotLog(p, vs, h0)
    ensures Run(p, vs, h0).reports == SlotWarnings(p, vs, h0)
  {
    var pre := vs[..|vs| - 1];
    RunLast(p, vs, h0);
    forall x | x in h0
      ensures Run(p, vs, h0).heap[x] == if x in vs then Apply(p, h0[x]).state else h0[x]
    {
      assert x in vs <==> x in pre;
    }
  }

  /** The states after a visit of the last slot's material. */
  lemma IndependentHeap(p: Props, vs: seq<Material?>, h0: map<Material, MatState>)
    requires vs != [] && vs[|vs| - 1] != null && vs[|vs| - 1] in h0
    requires var pre := vs[..|vs| - 1];
             var m := vs[|vs| - 1];
             OnceVisited(p, pre, h0, Run(p, pre, h0).heap) && Run(p, pre, h0).raised.None? &&
             Apply(p, Run(p, pre, h0).heap[m]).state == Apply(p, h0[m]).state
    ensures OnceVisited(p, vs, h0, Run(p, vs, h0).heap)
  {
    var pre := vs[..|vs| - 1];
    var m := vs[|vs| - 1];
    RunLast(p, vs, h0);
    forall x | x in h0
      ensures Run(p, vs, h0).heap[x] == if x in vs then Apply(p, h0[x]).state else h0[x]
    {
      assert x in vs <==> x in pre || x == m;
    }
  }

  /** No slot's material raises when visited from its original state. */
  ghost predicate NoneRaise(p: Props, vs: seq<Material?>, h0: map<Material, MatState>)
  {
    forall i :: 0 <= i < |vs| && vs[i] != null && vs[i] in h0 ==> Apply(p, h0[vs[i]]).raised.None?
  }

  lemma NoneRaiseLast(p: Props, vs: seq<Material?>, h0: map<Material, MatState>)
    requires vs != []
    ensures var m := vs[|vs| - 1];
            NoneRaise(p, vs, h0) <==>
            NoneRaise(p, vs[..|vs| - 1], h0) && (m == null || m !in h0 || Apply(p, h0[m]).raised.None?)
  {
    ForallLast(vs, vs[..|vs| - 1], (m: Material?) => m == null || m !in h0 || Apply(p, h0[m]).raised.None?);
  }

  /** A property holds of every element exactly when it holds of every
      element but the last, and of the last. */
  lemma ForallLast<T>(vs: seq<T>, pre: seq<T>, ok: T -> bool)
    requires vs != [] && pre == vs[..|vs| - 1]
    ensures (forall i :: 0 <= i < |vs| ==> ok(vs[i])) <==>
            (forall i :: 0 <= i < |pre| ==> ok(pre[i])) && ok(vs[|vs| - 1])
  {
    if forall i :: 0 <= i < |vs| ==> ok(vs[i]) {
      forall i | 0 <= i < |pre|
        ensures ok(pre[i])
      {
        assert pre[i] == vs[i];
      }
    }
    if (forall i :: 0 <= i < |pre| ==> ok(pre[i])) && ok(vs[|vs| - 1]) {
      forall i | 0 <= i < |vs|
        ensures ok(vs[i])
      {
        if i < |pre| {
          assert pre[i] == vs[i];
        }
      }
    }
  }

  /** A lookup raises during the walk exactly when the visit of some slot's
      material from its original state raises. */
  lemma {:induction false} RunRaisesIff(p: Props, vs: seq<Material?>, h0: map<Material, MatState>)
    ensures Run(p, vs, h0).raised.None? <==> NoneRaise(p, vs, h0)
  {
    if vs != [] {
      var pre := vs[..|vs| - 1];
      var w := Run(p, pre, h0);
      var m := vs[|vs| - 1];
      RunLast(p, vs, h0);
      RunRaisesIff(p, pre, h0);
      NoneRaiseLast(p, vs, h0);
      if w.raised.None? {
        RunIndependent(p, pre, h0);
        if m != null && m in h0 {
          VisitAgain(p, h0[m], w.heap[m]);
        }
      }
    }
  }

  // ---------------------------------------------------------------------------
  // Every run, with or without an error

  /** The number of slots the walk visits: all of them, or those up to and
      including the first slot whose material's visit from its original
      state raises. */
  ghost function Reached(p: Props, vs: seq<Material?>, h0: map<Material, MatState>): (n: nat)
    ensures n <= |vs|
    decreases |vs|
  {
    if vs == [] then 0
    else if NoneRaise(p, vs[..|vs| - 1], h0) then |vs|
    else Reached(p, vs[..|vs| - 1], h0)
  }

  /** The walk over `vs` is the independent visits of the slots it reaches:
      each material in them ends as one visit from its original state leaves
      it, every other material keeps its state, and the log and warnings are
      those of each reached slot's visit; the error, if any, is that of the
      last reached slot. */
  ghost predicate ReachedVisits(p: Props, vs: seq<Material?>, h0: map<Material, MatState>)
  {
    var n := Reached(p, vs, h0);
    var w := Run(p, vs, h0);
    OnceVisited(p, vs[..n], h0, w.heap) &&
    w.log == SlotLog(p, vs[..n], h0) && w.reports == SlotWarnings(p, vs[..n], h0) &&
    (NoneRaise(p, vs, h0) ==> n == |vs| && w.raised.None?) &&
    (!NoneRaise(p, vs, h0) ==>
       0 < n && vs[n - 1] != null && vs[n - 1] in h0 && Apply(p, h0[vs[n - 1]]).raised.Some? &&
       w.raised == Apply(p, h0[vs[n - 1]]).raised)
  }

  /** Every walk, with or without an error, is the independent visits of the
      slots it reaches. */
  lemma {:induction false} RunReached(p: Props, vs: seq<Material?>, h0: map<Material, MatState>)
    ensures var n := Reached(p, vs, h0);
            var w := Run(p, vs, h0);
            OnceVisited(p, vs[..n], h0, w.heap) &&
            w.log == SlotLog(p, vs[..n], h0) && w.reports == SlotWarnings(p, vs[..n], h0)
    ensures NoneRaise(p, vs, h0) ==> Reached(p, vs, h0) == |vs| && Run(p, vs, h0).raised.None?
    ensures !NoneRaise(p, vs, h0) ==>
              var n := Reached(p, vs, h0);
              0 < n && vs[n - 1] != null && vs[n - 1] in h0 && Apply(p, h0[vs[n - 1]]).raised.Some? &&
              Run(p, vs, h0).raised == Apply(p, h0[vs[n - 1]]).raised
    decreases |vs|
  {
    if vs == [] {
      assert vs[..0] == vs;
    } else if NoneRaise(p, vs[..|vs| - 1], h0) {
      ReachedAll(p, vs, h0);
    } else {
      RunReached(p, vs[..|vs| - 1], h0);
      ReachedBefore(p, vs, h0);
    }
  }

  /** The step of `RunReached` when no slot before the last raises. */
  lemma ReachedAll(p: Props, vs: seq<Material?>, h0: map<Material, MatState>)
    requires vs != [] && NoneRaise(p, vs[..|vs| - 1], h0)
    ensures ReachedVisits(p, vs, h0)
  {
    var pre, m := vs[..|vs| - 1], vs[|vs| - 1];
    RunRaisesIff(p, pre, h0);
    RunIndependent(p, pre, h0);
    IndependentStep(p, vs, h0);
    RunLast(p, vs, h0);
    NoneRaiseLast(p, vs, h0);
    if m != null && m in h0 {
      VisitAgain(p, h0[m], Run(p, pre, h0).heap[m]);
    }
    assert vs[..|vs|] == vs;
  }

  /** The step of `RunReached` when a slot before the last raises: the walk
      stopped inside `pre`. */
  lemma ReachedBefore(p: Props, vs: seq<Material?>, h0: map<Material, MatState>)
    requires vs != [] && !NoneRaise(p, vs[..|vs| - 1], h0)
    requires ReachedVisits(p, vs[..|vs| - 1], h0)
    ensures ReachedVisits(p, vs, h0)
  {
    StoppedBefore(p, vs, h0);
  }

  /** When a slot before the last raises, the last slot is neither reached
      nor walked. */
  lemma StoppedBefore(p: Props, vs: seq<Material?>, h0: map<Material, MatState>)
    requires vs != [] && !NoneRaise(p, vs[..|vs| - 1], h0)
    ensures var pre, n := vs[..|vs| - 1], Reached(p, vs[..|vs| - 1], h0);
            Reached(p, vs, h0) == n && vs[..n] == pre[..n] && (0 < n ==> vs[n - 1] == pre[n - 1]) &&
            !NoneRaise(p, vs, h0) && Run(p, vs, h0) == Run(p, pre, h0)
  {
    var pre := vs[..|vs| - 1];
    NoneRaiseLast(p, vs, h0);
    InitPrefix(vs, Reached(p, pre, h0));
    StoppedRun(p, pre, vs[|vs| - 1], h0);
  }

  lemma StoppedRun(p: Props, pre: seq<Material?>, m: Material?, h0: map<Material, MatState>)
    requires !NoneRaise(p, pre, h0)
    ensures Run(p, pre + [m], h0) == Run(p, pre, h0)
  {
    RunRaisesIff(p, pre, h0);
    RunStaysRaised(p, pre, [m], h0);
  }

  lemma InitPrefix<T>(vs: seq<T>, n: nat)
    requires n < |vs|
    ensures vs[..n] == vs[..|vs| - 1][..n] && (0 < n ==> vs[n - 1] == vs[..|vs| - 1][n - 1])
    ensures vs[..|vs| - 1] + [vs[|vs| - 1]] == vs
  {
  }

  /** Visits that raise alike reach the same slots. */
  lemma {:induction false} SameReached(p: Props, vs: seq<Material?>, h0: map<Material, MatState>, h1: map<Material, MatState>)
    requires h1.Keys == h0.Keys
    requires forall m :: m in h0 ==> Apply(p, h1[m]).raised == Apply(p, h0[m]).raised
    ensures NoneRaise(p, vs, h1) <==> NoneRaise(p, vs, h0)
    ensures Reached(p, vs, h1) == Reached(p, vs, h0)
    decreases |vs|
  {
    if vs != [] {
      SameReached(p, vs[..|vs| - 1], h0, h1);
    }
  }

  /** After any run, every material is in its original state or in the
      state one visit from its original state leaves. */
  lemma RunEndStates(p: Props, vs: seq<Material?>, h0: map<Material, MatState>)
    ensures forall m :: m in h0 ==>
              Run(p, vs, h0).heap[m] == h0[m] || Run(p, vs, h0).heap[m] == Apply(p, h0[m]).state
  {
    RunReached(p, vs, h0);
  }

  /** After any run, with or without an error, no material has a
      material-level field changed whose checkbox is off. */
  lemma RunFrameFields(p: Props, vs: seq<Material?>, h0: map<Material, MatState>)
    ensures forall m :: m in h0 ==> DisabledKept(p, h0[m], Run(p, vs, h0).heap[m])
  {
    RunEndStates(p, vs, h0);
    forall m | m in h0
      ensures DisabledKept(p, h0[m], Run(p, vs, h0).heap[m])
    {
      ApplyFrameFields(p, h0[m]);
    }
  }

  /** After any run, every material in a reached slot holds each enabled
      material-level value; on a run that did not raise, every slot is
      reached. */
  lemma RunHoldsMaterialLevel(p: Props, vs: seq<Material?>, h0: map<Material, MatState>)
    ensures Run(p, vs, h0).raised.None? ==> Reached(p, vs, h0) == |vs|
    ensures forall m :: m in h0 && m in vs[..Reached(p, vs, h0)] ==> EnabledHeld(p, Run(p, vs, h0).heap[m])
    ensures Run(p, vs, h0).raised.None? ==>
              forall m :: m in h0 && m in vs ==> EnabledHeld(p, Run(p, vs, h0).heap[m])
  {
    RunReached(p, vs, h0);
    RunRaisesIff(p, vs, h0);
    forall m | m in h0
      ensures EnabledHeld(p, Apply(p, h0[m]).state)
    {
      ApplyHoldsMaterialLevel(p, h0[m]);
    }
    assert vs[..|vs|] == vs;
  }

  /** After any run, with or without an error, each material differs from its
      original state at most on the targeted sockets of its first Principled
      node. */
  lemma RunFrameNodes(p: Props, vs: seq<Material?>, h0: map<Material, MatState>)
    ensures forall m :: m in h0 ==> NodesFramed(p, h0[m], Run(p, vs, h0).heap[m])
  {
    RunEndStates(p, vs, h0);
    forall m | m in h0
      ensures NodesFramed(p, h0[m], Run(p, vs, h0).heap[m])
    {
      ApplyFrameNodes(p, h0[m]);
    }
  }

  // ---------------------------------------------------------------------------
  // Running the operator twice

  /** Per-slot logs and warnings agree when every material's visit logs and
      warns alike from both sets of states. */
  lemma {:induction false} SlotsAgree(p: Props, vs: seq<Material?>, h0: map<Material, MatState>, h1: map<Material, MatState>)
    requires h1.Keys == h0.Keys
    requires forall m :: m in h0 ==> Apply(p, h1[m]).log == Apply(p, h0[m]).log &&
                                     Apply(p, h1[m]).warned == Apply(p, h0[m]).warned
    ensures SlotLog(p, vs, h1) == SlotLog(p, vs, h0) && SlotWarnings(p, vs, h1) == SlotWarnings(p, vs, h0)
  {
    if vs != [] {
      SlotsAgree(p, vs[..|vs| - 1], h0, h1);
    }
  }

  /** Running the operator again on what a run left changes nothing, and
      logs, warns, reports and raises as the first run did. */
  lemma RunIdempotent(p: Props, vs: seq<Material?>, h0: map<Material, MatState>)
    ensures Run(p, vs, Run(p, vs, h0).heap) == Run(p, vs, h0)
  {
    var h1 := Run(p, vs, h0).heap;
    var n := Reached(p, vs, h0);
    RunReached(p, vs, h0);
    SecondVisits(p, vs[..n], h0, h1);
    SameReached(p, vs, h0, h1);
    RunReached(p, vs, h1);
    SlotsAgree(p, vs[..n], h0, h1);
    HeapFixed(p, vs[..n], h0, h1, Run(p, vs, h1).heap);
  }

  lemma HeapFixed(p: Props, vs: seq<Material?>, h0: map<Material, MatState>, h1: map<Material, MatState>,
                  h2: map<Material, MatState>)
    requires OnceVisited(p, vs, h0, h1) && OnceVisited(p, vs, h1, h2)
    requires forall m :: m in h0 ==> Apply(p, h1[m]).state == Apply(p, h0[m]).state
    ensures h2 == h1
  {
    forall m | m in h1
      ensures h2[m] == h1[m]
    {
      if m in vs {
        assert h2[m] == Apply(p, h1[m]).state;
      }
    }
  }

  /** After a run without error, each material's visit acts as on its
      original state. */
  lemma SecondVisits(p: Props, vs: seq<Material?>, h0: map<Material, MatState>, h1: map<Material, MatState>)
    requires OnceVisited(p, vs, h0, h1)
    ensures forall m :: m in h0 ==> (Apply(p, h1[m]).log == Apply(p, h0[m]).log &&
                                    Apply(p, h1[m]).warned == Apply(p, h0[m]).warned &&
                                    Apply(p, h1[m]).raised == Apply(p, h0[m]).raised &&
                                    Apply(p, h1[m]).state == Apply(p, h0[m]).state)
  {
    forall m | m in h0
      ensures Apply(p, h1[m]).log == Apply(p, h0[m]).log && Apply(p, h1[m]).warned == Apply(p, h0[m]).warned &&
              Apply(p, h1[m]).raised == Apply(p, h0[m]).raised && Apply(p, h1[m]).state == Apply(p, h0[m]).state
    {
      VisitAgain(p, h0[m], h1[m]);
    }
  }
}
