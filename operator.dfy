/** The operator "Batch Material Helper": for every selected object, for
    every material slot holding a material, the visit of `MaterialApply`;
    then one report summing up the run. `Run` is the specification on values,
    threading the states of all materials through the slots in order, so that
    a material sitting in several slots is visited once per slot; `Execute`
    performs the walk in place. */
module Operator {
  import opened Props
  import opened Scene
  import opened MaterialApply

  /** A message shown to the user, with its severity. */
  datatype Report = Warning(text: string) | Info(entries: seq<LogEntry>)

  /** How a run ends: cancelled, finished, or with the lookup error that a
      missing named BSDF input raises out of the operator. */
  datatype Status = Cancelled | Finished | RaisedKeyError(key: string)

  const NoObjectsSelected: string := "No objects selected!"
  const NoPropertiesSelected: string := "No properties selected to apply!"
  const IorLevelNotFound: string := "IOR Level input not found in some materials!"

  /** The current states of the materials of `r`. */
  ghost function States(r: set<Material>): map<Material, MatState>
    reads r
  {
    map m | m in r :: m.State()
  }

  /** Progress of the walk over the slots: the states of the materials, the
      applied-properties log, the warnings reported so far, and the error if a
      lookup raised. */
  datatype Walk = Walk(heap: map<Material, MatState>, log: seq<LogEntry>, reports: seq<Report>, raised: Option<string>)

  /** The walk over the slots `vs` from the material states `h0`. After an
      error no further slot is visited. A material without a state in `h0` is
      passed over; `Execute` starts from the states of all the materials it
      can reach. */
  ghost function Run(p: Props, vs: seq<Material?>, h0: map<Material, MatState>): (w: Walk)
    ensures w.heap.Keys == h0.Keys
    decreases |vs|
  {
    if vs == [] then Walk(h0, [], [], None)
    else
      var w := Run(p, vs[..|vs| - 1], h0);
      var m := vs[|vs| - 1];
      if w.raised.Some? || m == null || m !in w.heap then w
      else
        var r := Apply(p, w.heap[m]);
        Walk(w.heap[m := r.state], w.log + r.log,
             w.reports + (if r.warned then [Warning(IorLevelNotFound)] else []), r.raised)
  }

  /** How a run ends: the status, the applied-properties log built so far,
      and the reports made. When a lookup raised, the status names the
      missing input; the operator then returns nothing and makes no final
      report, and the log and reports are those up to the error. */
  datatype Outcome = Outcome(status: Status, log: seq<LogEntry>, reports: seq<Report>)

  /** The end of a run over a non-empty selection: an error ends it as it
      stands; an empty log cancels it with a warning; otherwise it finishes
      with one report listing every applied property. */
  function Verdict(w: Walk): (o: Outcome)
    ensures o.log == w.log
    ensures o.status == Cancelled <==> w.raised.None? && w.log == []
    ensures o.status == Finished <==> w.raised.None? && w.log != []
    ensures w.raised.Some? ==> o.status == RaisedKeyError(w.raised.value) && o.reports == w.reports
    ensures o.status == Cancelled ==> o.reports == w.reports + [Warning(NoPropertiesSelected)]
    ensures o.status == Finished ==> o.reports == w.reports + [Info(w.log)]
  {
    if w.raised.Some? then Outcome(RaisedKeyError(w.raised.value), w.log, w.reports)
    else if w.log == [] then Outcome(Cancelled, w.log, w.reports + [Warning(NoPropertiesSelected)])
    else Outcome(Finished, w.log, w.reports + [Info(w.log)])
  }

  // ---------------------------------------------------------------------------
  // The operation in place

  /** `execute`: applies the enabled settings to every material in a slot of
      a selected object, in selection and slot order, and reports. */
  method Execute(p: Props, selected: seq<SceneObject>) returns (status: Status, log: seq<LogEntry>, reports: seq<Report>)
    modifies Materials(AllSlots(selected))
    ensures selected == [] ==> status == Cancelled && log == [] && reports == [Warning(NoObjectsSelected)]
    ensures selected != [] ==>
              Outcome(status, log, reports) ==
              Verdict(Run(p, AllSlots(selected), old(States(Materials(AllSlots(selected))))))
    ensures forall m :: m in Materials(AllSlots(selected)) ==>
              m.State() == Run(p, AllSlots(selected), old(States(Materials(AllSlots(selected))))).heap[m]
  {
    ghost var r := Materials(AllSlots(selected));
    ghost var h0 := States(r);
    if selected == [] {
      assert Run(p, AllSlots(selected), h0).heap == h0;
      return Cancelled, [], [Warning(NoObjectsSelected)];
    }
    log, reports := [], [];
    var i := 0;
    while i < |selected|
      invariant 0 <= i <= |selected|
      invariant Run(p, AllSlots(selected[..i]), h0) == Walk(States(r), log, reports, None)
    {
      PrefixStep(selected, i);
      forall j | 0 <= j < |selected[i].slots| && selected[i].slots[j] != null
        ensures selected[i].slots[j] in r
      {
        AllSlotsMember(selected, i, j);
      }
      var raised;
      log, reports, raised := VisitSlots(p, selected[i].slots, AllSlots(selected[..i]), r, h0, log, reports);
      if raised.Some? {
        RunStaysRaised(p, AllSlots(selected[..i + 1]), AllSlots(selected[i + 1..]), h0);
        return RaisedKeyError(raised.value), log, reports;
      }
      i := i + 1;
    }
    assert selected[..i] == selected;
    if log == [] {
      status, reports := Cancelled, reports + [Warning(NoPropertiesSelected)];
    } else {
      status, reports := Finished, reports + [Info(log)];
    }
  }

  /** The slot loop of one object, after the slots `done` of the objects
      before it. A raised error ends the loop. */
  method VisitSlots(p: Props, slots: seq<Material?>, ghost done: seq<Material?>, ghost r: set<Material>,
                    ghost h0: map<Material, MatState>, log0: seq<LogEntry>, reports0: seq<Report>)
      returns (log: seq<LogEntry>, reports: seq<Report>, raised: Option<string>)
    requires forall j :: 0 <= j < |slots| && slots[j] != null ==> slots[j] in r
    requires Run(p, done, h0) == Walk(States(r), log0, reports0, None)
    modifies r
    ensures Run(p, done + slots, h0) == Walk(States(r), log, reports, raised)
  {
    log, reports, raised := log0, reports0, None;
    var j := 0;
    ghost var walked := done;
    assert done + slots[..j] == done;
    while j < |slots|
      invariant 0 <= j <= |slots| && walked == done + slots[..j]
      invariant Run(p, walked, h0) == Walk(States(r), log, reports, None) && raised.None?
    {
      SlotsStep(done, slots, j);
      if slots[j] != null {
        log, reports, raised := VisitSlot(p, slots[j], walked, r, h0, log, reports);
        if raised.Some? {
          RunStaysRaised(p, walked + [slots[j]], slots[j + 1..], h0);
          return;
        }
      } else {
        RunSkipsEmpty(p, walked, h0);
      }
      walked, j := walked + [slots[j]], j + 1;
    }
    assert slots[..j] == slots;
  }

  lemma SlotsStep(done: seq<Material?>, slots: seq<Material?>, j: nat)
    requires j < |slots|
    ensures done + slots[..j + 1] == done + slots[..j] + [slots[j]]
    ensures done + slots[..j] + [slots[j]] + slots[j + 1..] == done + slots
  {
    assert slots[..j + 1] == slots[..j] + [slots[j]];
    assert slots == slots[..j + 1] + slots[j + 1..];
  }

  /** One slot holding a material: the visit, the warning if one is due, and
      the error if a lookup raised. */
  method VisitSlot(p: Props, material: Material, ghost done: seq<Material?>, ghost r: set<Material>,
                   ghost h0: map<Material, MatState>, log0: seq<LogEntry>, reports0: seq<Report>)
      returns (log: seq<LogEntry>, reports: seq<Report>, raised: Option<string>)
    requires material in r
    requires Run(p, done, h0) == Walk(States(r), log0, reports0, None)
    modifies material
    ensures Run(p, done + [material], h0) == Walk(States(r), log, reports, raised)
  {
    ghost var before := States(r);
    RunVisit(p, done, material, h0);
    var logged, warned;
    logged, warned, raised := ApplyToMaterial(p, material);
    assert States(r) == before[material := material.State()];
    log, reports := log0 + logged, reports0;
    if warned {
      reports := reports + [Warning(IorLevelNotFound)];
    }
  }

  /** The walk's step at a slot holding a material it has a state for. */
  lemma RunVisit(p: Props, done: seq<Material?>, m: Material, h0: map<Material, MatState>)
    requires Run(p, done, h0).raised.None? && m in Run(p, done, h0).heap
    ensures var w := Run(p, done, h0);
            var a := Apply(p, w.heap[m]);
            Run(p, done + [m], h0) ==
            Walk(w.heap[m := a.state], w.log + a.log,
                 w.reports + (if a.warned then [Warning(IorLevelNotFound)] else []), a.raised)
  {
    var vs := done + [m];
    assert vs[..|vs| - 1] == done && vs[|vs| - 1] == m;
  }

  /** The walk's step at an empty slot. */
  lemma RunSkipsEmpty(p: Props, done: seq<Material?>, h0: map<Material, MatState>)
    ensures Run(p, done + [null], h0) == Run(p, done, h0)
  {
    var vs := done + [null];
    assert vs[..|vs| - 1] == done;
  }

  /** The slots of the first `i` objects, then those of object `i`, are a
      prefix of all the slots. */
  lemma PrefixStep(selected: seq<SceneObject>, i: nat)
    requires i < |selected|
    ensures AllSlots(selected[..i + 1]) == AllSlots(selected[..i]) + selected[i].slots
    ensures AllSlots(selected) == AllSlots(selected[..i + 1]) + AllSlots(selected[i + 1..])
  {
    var front, rest := selected[..i + 1], selected[i + 1..];
    assert front[..|front| - 1] == selected[..i] && front[|front| - 1] == selected[i];
    assert AllSlots(front) == AllSlots(selected[..i]) + selected[i].slots;
    SplitObjects(selected, i + 1);
    AllSlotsAppend(front, rest);
    assert AllSlots(selected) == AllSlots(front) + AllSlots(rest);
  }

  lemma SplitObjects(objs: seq<SceneObject>, n: nat)
    requires n <= |objs|
    ensures objs == objs[..n] + objs[n..]
  {
  }

  // ---------------------------------------------------------------------------
  // Properties of the walk

  /** Once a lookup has raised, later slots change nothing. */
  lemma {:induction false} RunStaysRaised(p: Props, a: seq<Material?>, b: seq<Material?>, h0: map<Material, MatState>)
    requires Run(p, a, h0).raised.Some?
    ensures Run(p, a + b, h0) == Run(p, a, h0)
    decreases |b|
  {
    if b == [] {
      assert a + b == a;
    } else {
      var b' := b[..|b| - 1];
      assert (a + b)[..|a + b| - 1] == a + b';
      RunStaysRaised(p, a, b', h0);
    }
  }
}
