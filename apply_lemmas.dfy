/** What visiting one material guarantees: shape is kept, only enabled
    settings are written, enabled settings hold afterwards, the "IOR Level"
    lookup goes by name, then position, then warns, the log follows the
    fixed order, and a second visit changes nothing. */
module ApplyLemmas {
  import opened Props
  import opened Scene
  import opened MaterialApply

  // ---------------------------------------------------------------------------
  // Shape

  lemma SetNamedKeepsNames(p: Props, b: Bsdf, id: SettingId)
    ensures SameNames(b.inputs, SetNamed(p, b, id).inputs)
  {
  }

  lemma SetIorLevelKeepsNames(p: Props, b: Bsdf)
    ensures SameNames(b.inputs, SetIorLevel(p, b).inputs)
  {
  }

  /** The writes to the Principled node change socket values only. */
  lemma BsdfKeepsNames(p: Props, inputs: seq<Socket>)
    ensures SameNames(inputs, BsdfWrites(p, inputs).inputs)
  {
    var b0 := Bsdf(inputs, [], false, None);
    var b1 := SetNamed(p, b0, BaseColorId);
    SetNamedKeepsNames(p, b0, BaseColorId);
    var b2 := SetNamed(p, b1, MetallicId);
    SetNamedKeepsNames(p, b1, MetallicId);
    var b3 := SetNamed(p, b2, RoughnessId);
    SetNamedKeepsNames(p, b2, RoughnessId);
    var b4 := SetNamed(p, b3, IorId);
    SetNamedKeepsNames(p, b3, IorId);
    var b5 := SetNamed(p, b4, AlphaId);
    SetNamedKeepsNames(p, b4, AlphaId);
    SetIorLevelKeepsNames(p, b5);
  }

  /** Visiting a material changes neither `use_nodes`, nor the node types, nor
      any socket name. */
  lemma ApplyKeepsShape(p: Props, st: MatState)
    ensures var st' := Apply(p, st).state;
            st'.useNodes == st.useNodes && SameKinds(st.nodes, st'.nodes) &&
            forall i :: 0 <= i < |st.nodes| ==> SameNames(st.nodes[i].inputs, st'.nodes[i].inputs)
  {
    if Principled(st).Some? {
      BsdfKeepsNames(p, st.nodes[Principled(st).value].inputs);
    }
  }

  // ---------------------------------------------------------------------------
  // Idempotence

  /** Second-run inputs `c` agree with the first run's `b` on the sockets
      written so far (`d`) and with the first run's final inputs elsewhere. */
  ghost predicate Tracks(b: Bsdf, c: Bsdf, out: seq<Socket>, d: set<nat>)
  {
    SameNames(b.inputs, c.inputs) && |out| == |c.inputs| &&
    b.log == c.log && b.warned == c.warned && b.raised == c.raised &&
    forall i :: 0 <= i < |c.inputs| ==> c.inputs[i] == if i in d then b.inputs[i] else out[i]
  }

  lemma SetNamedTracks(p: Props, b: Bsdf, c: Bsdf, out: seq<Socket>, d: set<nat>, id: SettingId)
      returns (d': set<nat>)
    requires Tracks(b, c, out, d)
    ensures Tracks(SetNamed(p, b, id), SetNamed(p, c, id), out, d')
  {
    FindInputByNames(b.inputs, c.inputs, InputName(id));
    d' := d;
    if b.raised.None? && Enabled(p, id) && FindInput(b.inputs, InputName(id)).Some? {
      var j := FindInput(b.inputs, InputName(id)).value;
      d' := d + {j};
      SetNamedWrites(p, b, id, j);
      SetNamedWrites(p, c, id, j);
      WriteTracks(b, c, out, d, j, InputValue(p, id));
    } else {
      SetNamedSkips(p, b, id);
      SetNamedSkips(p, c, id);
      SetNamedRaised(p, b, id);
      SetNamedRaised(p, c, id);
    }
  }

  /** A write by name that writes nothing changes at most the error. */
  lemma SetNamedSkips(p: Props, b: Bsdf, id: SettingId)
    requires !(b.raised.None? && Enabled(p, id) && FindInput(b.inputs, InputName(id)).Some?)
    ensures SetNamed(p, b, id) == b.(raised := SetNamed(p, b, id).raised)
  {
  }

  /** Writing the same value to the same socket of both keeps them in step. */
  lemma WriteTracks(b: Bsdf, c: Bsdf, out: seq<Socket>, d: set<nat>, j: nat, v: SocketValue)
    requires Tracks(b, c, out, d) && j < |b.inputs|
    ensures var b', c' := b.(inputs := WriteSocket(b.inputs, j, v)), c.(inputs := WriteSocket(c.inputs, j, v));
            SameNames(b'.inputs, c'.inputs) && |out| == |c'.inputs| &&
            forall i :: 0 <= i < |c'.inputs| ==> c'.inputs[i] == if i in d + {j} then b'.inputs[i] else out[i]
  {
  }

  lemma SetIorLevelTracks(p: Props, b: Bsdf, c: Bsdf, out: seq<Socket>, d: set<nat>)
      returns (d': set<nat>)
    requires Tracks(b, c, out, d)
    ensures Tracks(SetIorLevel(p, b), SetIorLevel(p, c), out, d')
  {
    FindInputByNames(b.inputs, c.inputs, IorLevelName);
    d' := d;
    if b.raised.None? && p.iorLevel.enabled && IorLevelIndex(b.inputs).Some? {
      var j := IorLevelIndex(b.inputs).value;
      d' := d + {j};
      SetIorLevelWrites(p, b, j);
      SetIorLevelWrites(p, c, j);
      WriteTracks(b, c, out, d, j, Scalar(p.iorLevel.value));
    }
  }

  /** Repeating the writes to the Principled node's inputs on their own
      result gives the same result and the same log, warning and error. */
  lemma BsdfWritesIdempotent(p: Props, inputs: seq<Socket>)
    ensures BsdfWrites(p, BsdfWrites(p, inputs).inputs) == BsdfWrites(p, inputs)
  {
    var out := BsdfWrites(p, inputs).inputs;
    BsdfKeepsNames(p, inputs);
    var b0, c0 := Bsdf(inputs, [], false, None), Bsdf(out, [], false, None);
    var d := {};
    d := SetNamedTracks(p, b0, c0, out, d, BaseColorId);
    var b1, c1 := SetNamed(p, b0, BaseColorId), SetNamed(p, c0, BaseColorId);
    d := SetNamedTracks(p, b1, c1, out, d, MetallicId);
    var b2, c2 := SetNamed(p, b1, MetallicId), SetNamed(p, c1, MetallicId);
    d := SetNamedTracks(p, b2, c2, out, d, RoughnessId);
    var b3, c3 := SetNamed(p, b2, RoughnessId), SetNamed(p, c2, RoughnessId);
    d := SetNamedTracks(p, b3, c3, out, d, IorId);
    var b4, c4 := SetNamed(p, b3, IorId), SetNamed(p, c3, IorId);
    d := SetNamedTracks(p, b4, c4, out, d, AlphaId);
    var b5, c5 := SetNamed(p, b4, AlphaId), SetNamed(p, c4, AlphaId);
    d := SetIorLevelTracks(p, b5, c5, out, d);
    var b6, c6 := SetIorLevel(p, b5), SetIorLevel(p, c5);
    assert b6 == BsdfWrites(p, inputs) && c6 == BsdfWrites(p, out);
    assert c6.inputs == out;
  }

  /** Visiting a material a second time changes nothing and records the same
      log, warning and error as the first visit. */
  lemma ApplyIdempotent(p: Props, st: MatState)
    ensures Apply(p, Apply(p, st).state) == Apply(p, st)
  {
    var st' := Apply(p, st).state;
    ApplyKeepsShape(p, st);
    FirstPrincipledByKinds(st.nodes, st'.nodes);
    MaterialFieldsIdempotent(p, st);
    match Principled(st)
    case None =>
      assert st' == MaterialFields(p, st);
    case Some(k) =>
      var b := BsdfWrites(p, st.nodes[k].inputs);
      BsdfWritesIdempotent(p, st.nodes[k].inputs);
      assert st'.nodes[k].inputs == b.inputs;
      assert st'.nodes[k := st'.nodes[k].(inputs := b.inputs)] == st'.nodes;
      assert MaterialFields(p, st') == st';
  }

  lemma MaterialFieldsIdempotent(p: Props, st: MatState)
    ensures MaterialFields(p, MaterialFields(p, st)) == MaterialFields(p, st)
    ensures forall ns :: MaterialFields(p, MaterialFields(p, st).(nodes := ns)) == MaterialFields(p, st).(nodes := ns)
  {
  }

  // ---------------------------------------------------------------------------
  // The writes to the Principled node, stage by stage

  /** The five settings looked up by name, in the order they are written. */
  const NamedOrder: seq<SettingId> := [BaseColorId, MetallicId, RoughnessId, IorId, AlphaId]

  /** The progress after the first `t` of the six writes to the Principled
      node's inputs (the five by name, then "IOR Level"). */
  function Stage(p: Props, inputs: seq<Socket>, t: nat): Bsdf
    requires t <= 6
  {
    if t == 0 then Bsdf(inputs, [], false, None)
    else if t <= 5 then SetNamed(p, Stage(p, inputs, t - 1), NamedOrder[t - 1])
    else SetIorLevel(p, Stage(p, inputs, 5))
  }

  lemma BsdfWritesStages(p: Props, inputs: seq<Socket>)
    ensures BsdfWrites(p, inputs) == Stage(p, inputs, 6)
  {
    assert Stage(p, inputs, 1) == SetNamed(p, Bsdf(inputs, [], false, None), BaseColorId);
    assert Stage(p, inputs, 2) == SetNamed(p, Stage(p, inputs, 1), MetallicId);
    assert Stage(p, inputs, 3) == SetNamed(p, Stage(p, inputs, 2), RoughnessId);
    assert Stage(p, inputs, 4) == SetNamed(p, Stage(p, inputs, 3), IorId);
    assert Stage(p, inputs, 5) == SetNamed(p, Stage(p, inputs, 4), AlphaId);
  }

  lemma {:induction false} StageKeepsNames(p: Props, inputs: seq<Socket>, t: nat)
    requires t <= 6
    ensures SameNames(inputs, Stage(p, inputs, t).inputs)
  {
    if t > 0 {
      StageKeepsNames(p, inputs, t - 1);
      if t <= 5 {
        SetNamedKeepsNames(p, Stage(p, inputs, t - 1), NamedOrder[t - 1]);
      } else {
        SetIorLevelKeepsNames(p, Stage(p, inputs, 5));
      }
    }
  }

  /** Lookups at any stage give what they give on the original inputs. */
  lemma StageLookup(p: Props, inputs: seq<Socket>, t: nat, name: string)
    requires t <= 6
    ensures FindInput(Stage(p, inputs, t).inputs, name) == FindInput(inputs, name)
    ensures IorLevelIndex(Stage(p, inputs, t).inputs) == IorLevelIndex(inputs)
  {
    StageKeepsNames(p, inputs, t);
    FindInputByNames(inputs, Stage(p, inputs, t).inputs, name);
    FindInputByNames(inputs, Stage(p, inputs, t).inputs, IorLevelName);
  }

  /** A named setting is missing: enabled, and no socket carries its name. */
  predicate Missing(p: Props, inputs: seq<Socket>, id: SettingId)
  {
    Enabled(p, id) && FindInput(inputs, InputName(id)).None?
  }

  /** The position in `NamedOrder`, among the first `t`, of the first
      missing setting, if there is one. */
  function FirstMissing(p: Props, inputs: seq<Socket>, t: nat): (r: Option<nat>)
    requires t <= 5
    ensures r.Some? ==> r.value < t && Missing(p, inputs, NamedOrder[r.value]) &&
                        forall v :: 0 <= v < r.value ==> !Missing(p, inputs, NamedOrder[v])
    ensures r.None? ==> forall v :: 0 <= v < t ==> !Missing(p, inputs, NamedOrder[v])
  {
    if t == 0 then None
    else match FirstMissing(p, inputs, t - 1)
      case Some(u) => Some(u)
      case None => if Missing(p, inputs, NamedOrder[t - 1]) then Some(t - 1) else None
  }

  /** After `t` stages a lookup has raised exactly when one of the first `t`
      named settings is missing, and then it names the first of them. */
  lemma {:induction false} StageRaised(p: Props, inputs: seq<Socket>, t: nat)
    requires t <= 5
    ensures Stage(p, inputs, t).raised ==
              match FirstMissing(p, inputs, t)
              case None => None
              case Some(u) => Some(InputName(NamedOrder[u]))
  {
    if t > 0 {
      StageRaised(p, inputs, t - 1);
      StageLookup(p, inputs, t - 1, InputName(NamedOrder[t - 1]));
      StageStep(p, inputs, t);
      SetNamedRaised(p, Stage(p, inputs, t - 1), NamedOrder[t - 1]);
    }
  }

  /** The error after one write by name. */
  lemma SetNamedRaised(p: Props, b: Bsdf, id: SettingId)
    ensures SetNamed(p, b, id).raised ==
              if b.raised.Some? then b.raised
              else if Enabled(p, id) && FindInput(b.inputs, InputName(id)).None? then Some(InputName(id))
              else None
  {
  }

  /** A lookup stage leaves `raised` set once it is set. */
  lemma {:induction false} StageRaisedStays(p: Props, inputs: seq<Socket>, t: nat, s: nat)
    requires t <= s <= 6 && Stage(p, inputs, t).raised.Some?
    ensures Stage(p, inputs, s) == Stage(p, inputs, t)
  {
    if s > t {
      StageRaisedStays(p, inputs, t, s - 1);
    }
  }

  /** A later stage without error had no error at any earlier stage. */
  lemma StageNoRaiseBefore(p: Props, inputs: seq<Socket>, t: nat, s: nat)
    requires t <= s <= 6 && Stage(p, inputs, s).raised.None?
    ensures Stage(p, inputs, t).raised.None?
  {
    if Stage(p, inputs, t).raised.Some? {
      StageRaisedStays(p, inputs, t, s);
    }
  }

  // ---------------------------------------------------------------------------
  // Errors

  /** The five named settings are exactly those of `NamedOrder`. */
  lemma NamedOrderNamed(id: SettingId)
    ensures id.Named() <==> id in NamedOrder
  {
  }

  /** A visit to a material with a Principled node, in terms of the stages. */
  lemma ApplyStages(p: Props, st: MatState)
    requires Principled(st).Some?
    ensures var k := Principled(st).value;
            var r := Apply(p, st);
            var last := Stage(p, st.nodes[k].inputs, 6);
            r.state == MaterialFields(p, st).(nodes := st.nodes[k := st.nodes[k].(inputs := last.inputs)]) &&
            r.log == MaterialLog(p) + last.log && r.warned == last.warned &&
            r.raised == Stage(p, st.nodes[k].inputs, 5).raised
  {
    var inputs := st.nodes[Principled(st).value].inputs;
    BsdfWritesStages(p, inputs);
    StageStep(p, inputs, 6);
  }

  /** The error of a visit is the error after the five writes by name. */
  lemma ApplyRaisedStage(p: Props, st: MatState)
    requires Principled(st).Some?
    ensures Apply(p, st).raised == Stage(p, st.nodes[Principled(st).value].inputs, 5).raised
  {
    ApplyStages(p, st);
  }

  /** Visiting a material raises exactly when it uses nodes, has a Principled
      node, and some enabled setting looked up by name finds no socket of that
      name. */
  lemma ApplyRaisesIff(p: Props, st: MatState)
    ensures Apply(p, st).raised.Some? <==>
              Principled(st).Some? &&
              exists id: SettingId :: id.Named() && Missing(p, st.nodes[Principled(st).value].inputs, id)
  {
    if Principled(st).Some? {
      var inputs := st.nodes[Principled(st).value].inputs;
      ApplyRaisedStage(p, st);
      StageRaised(p, inputs, 5);
      SomeMissingIff(p, inputs);
    }
  }

  /** Some named setting is missing exactly when there is a first one. */
  lemma SomeMissingIff(p: Props, inputs: seq<Socket>)
    ensures (exists id: SettingId :: id.Named() && Missing(p, inputs, id)) <==> FirstMissing(p, inputs, 5).Some?
  {
    if FirstMissing(p, inputs, 5).Some? {
      var u := FirstMissing(p, inputs, 5).value;
      NamedOrderNamed(NamedOrder[u]);
      assert NamedOrder[u].Named() && Missing(p, inputs, NamedOrder[u]);
    }
    if exists id: SettingId :: id.Named() && Missing(p, inputs, id) {
      var id: SettingId :| id.Named() && Missing(p, inputs, id);
      NamedOrderNamed(id);
      var u :| 0 <= u < 5 && NamedOrder[u] == id;
    }
  }

  /** The error names the first missing setting in the order the add-on
      writes them. */
  lemma ApplyRaisesFirst(p: Props, st: MatState)
    requires Apply(p, st).raised.Some?
    ensures Principled(st).Some?
    ensures var inputs := st.nodes[Principled(st).value].inputs;
            exists u :: 0 <= u < 5 && Missing(p, inputs, NamedOrder[u]) &&
                        Apply(p, st).raised == Some(InputName(NamedOrder[u])) &&
                        forall v :: 0 <= v < u ==> !Missing(p, inputs, NamedOrder[v])
  {
    var inputs := st.nodes[Principled(st).value].inputs;
    ApplyRaisedStage(p, st);
    StageRaised(p, inputs, 5);
    var u := FirstMissing(p, inputs, 5).value;
    assert Apply(p, st).raised == Some(InputName(NamedOrder[u]));
  }

  // ---------------------------------------------------------------------------
  // What is written

  /** Socket `j` of `inputs` is one that an enabled BSDF setting writes: a
      named setting whose name it carries first, or the "IOR Level" socket. */
  ghost predicate Targeted(p: Props, inputs: seq<Socket>, j: nat)
  {
    (exists id: SettingId :: id.Named() && Enabled(p, id) && FindInput(inputs, InputName(id)) == Some(j)) ||
    (p.iorLevel.enabled && IorLevelIndex(inputs) == Some(j))
  }

  /** What one write by name does to socket `j`. */
  lemma SetNamedAt(p: Props, b: Bsdf, id: SettingId, j: nat)
    requires j < |b.inputs|
    ensures |SetNamed(p, b, id).inputs| == |b.inputs|
    ensures SetNamed(p, b, id).inputs[j] ==
              if b.raised.None? && Enabled(p, id) && FindInput(b.inputs, InputName(id)) == Some(j)
              then b.inputs[j].(value := InputValue(p, id)) else b.inputs[j]
  {
  }

  /** What the "IOR Level" write does to socket `j`. */
  lemma SetIorLevelAt(p: Props, b: Bsdf, j: nat)
    requires j < |b.inputs|
    ensures |SetIorLevel(p, b).inputs| == |b.inputs|
    ensures SetIorLevel(p, b).inputs[j] ==
              if b.raised.None? && p.iorLevel.enabled && IorLevelIndex(b.inputs) == Some(j)
              then b.inputs[j].(value := InputValue(p, IorLevelId)) else b.inputs[j]
  {
  }

  /** Stage `t` is one named write or the "IOR Level" write after stage `t - 1`. */
  lemma StageStep(p: Props, inputs: seq<Socket>, t: nat)
    requires 0 < t <= 6
    ensures t <= 5 ==> Stage(p, inputs, t) == SetNamed(p, Stage(p, inputs, t - 1), NamedOrder[t - 1])
    ensures t == 6 ==> Stage(p, inputs, t) == SetIorLevel(p, Stage(p, inputs, 5))
  {
  }

  lemma {:induction false} StageFrame(p: Props, inputs: seq<Socket>, t: nat, j: nat)
    requires t <= 6 && j < |inputs| && !Targeted(p, inputs, j)
    ensures |Stage(p, inputs, t).inputs| == |inputs| && Stage(p, inputs, t).inputs[j] == inputs[j]
  {
    if t > 0 {
      StageFrame(p, inputs, t - 1, j);
      StageStep(p, inputs, t);
      var prev := Stage(p, inputs, t - 1);
      if t <= 5 {
        StageLookup(p, inputs, t - 1, InputName(NamedOrder[t - 1]));
        NamedOrderNamed(NamedOrder[t - 1]);
        SetNamedAt(p, prev, NamedOrder[t - 1], j);
      } else {
        StageLookup(p, inputs, 5, IorLevelName);
        SetIorLevelAt(p, prev, j);
      }
    }
  }

  /** Every material-level field whose checkbox is off is the same in `st`
      and `r`. */
  ghost predicate DisabledKept(p: Props, st: MatState, r: MatState)
  {
    (!p.renderMethod.enabled ==> r.renderMethod == st.renderMethod) &&
    (!p.displacementMethod.enabled ==> r.displacementMethod == st.displacementMethod) &&
    (!p.backfaceCulling.enabled ==> r.backfaceCulling == st.backfaceCulling) &&
    (!p.backfaceCullingShadow.enabled ==> r.backfaceCullingShadow == st.backfaceCullingShadow) &&
    (!p.backfaceCullingLightprobe.enabled ==> r.backfaceCullingLightprobe == st.backfaceCullingLightprobe) &&
    (!p.transparentShadow.enabled ==> r.transparentShadow == st.transparentShadow) &&
    (!p.diffuseColor.enabled ==> r.diffuseColor == st.diffuseColor) &&
    (!p.displayMetallic.enabled ==> r.metallic == st.metallic) &&
    (!p.displayRoughness.enabled ==> r.roughness == st.roughness)
  }

  /** Visiting a material changes no disabled material-level setting. */
  lemma ApplyFrameFields(p: Props, st: MatState)
    ensures DisabledKept(p, st, Apply(p, st).state)
  {
    ApplyKeepsFields(p, st);
  }

  /** Apart from the nodes, a visit is the nine material-level assignments. */
  lemma ApplyKeepsFields(p: Props, st: MatState)
    ensures Apply(p, st).state.(nodes := st.nodes) == MaterialFields(p, st)
  {
  }

  /** Visiting a material changes neither `use_nodes` nor any node but the
      first Principled BSDF node, and in that node no socket that an enabled
      setting does not target. */
  /** `r` differs from `st` at most on the sockets of the first Principled
      node that an enabled BSDF setting targets. */
  ghost predicate NodesFramed(p: Props, st: MatState, r: MatState)
  {
    r.useNodes == st.useNodes && |r.nodes| == |st.nodes| &&
    (forall i :: 0 <= i < |st.nodes| && Principled(st) != Some(i) ==> r.nodes[i] == st.nodes[i]) &&
    (Principled(st).Some? ==>
       var k := Principled(st).value;
       |r.nodes[k].inputs| == |st.nodes[k].inputs| &&
       forall j :: 0 <= j < |st.nodes[k].inputs| && !Targeted(p, st.nodes[k].inputs, j) ==>
         r.nodes[k].inputs[j] == st.nodes[k].inputs[j])
  }

  lemma ApplyFrameNodes(p: Props, st: MatState)
    ensures NodesFramed(p, st, Apply(p, st).state)
  {
    if Principled(st).Some? {
      var k := Principled(st).value;
      var inputs := st.nodes[k].inputs;
      var out := BsdfWrites(p, inputs).inputs;
      BsdfWritesStages(p, inputs);
      StageKeepsNames(p, inputs, 6);
      assert Apply(p, st).state.nodes == st.nodes[k := st.nodes[k].(inputs := out)];
      forall j | 0 <= j < |inputs| && !Targeted(p, inputs, j)
        ensures out[j] == inputs[j]
      {
        StageFrame(p, inputs, 6, j);
      }
    }
  }

  /** Distinct positions of `NamedOrder` carry distinct socket names. */
  lemma NamedOrderNames(u: nat, v: nat)
    requires u < 5 && v < 5 && u != v
    ensures InputName(NamedOrder[u]) != InputName(NamedOrder[v])
  {
  }

  /** Once a named setting has been written, later writes by name keep it. */
  lemma {:induction false} StageHolds(p: Props, inputs: seq<Socket>, u: nat, s: nat)
    requires u < s <= 5 && Enabled(p, NamedOrder[u]) && Stage(p, inputs, s).raised.None?
    ensures FindInput(inputs, InputName(NamedOrder[u])).Some?
    ensures var j := FindInput(inputs, InputName(NamedOrder[u])).value;
            j < |Stage(p, inputs, s).inputs| &&
            Stage(p, inputs, s).inputs[j].value == InputValue(p, NamedOrder[u])
  {
    if s - 1 > u {
      StageNoRaiseBefore(p, inputs, s - 1, s);
      StageHolds(p, inputs, u, s - 1);
      HoldsStep(p, inputs, u, s);
    } else {
      HoldsWritten(p, inputs, u);
    }
  }

  /** The write of setting `u` puts its value in its socket. */
  lemma HoldsWritten(p: Props, inputs: seq<Socket>, u: nat)
    requires u < 5 && Enabled(p, NamedOrder[u]) && Stage(p, inputs, u + 1).raised.None?
    ensures FindInput(inputs, InputName(NamedOrder[u])).Some?
    ensures var j := FindInput(inputs, InputName(NamedOrder[u])).value;
            j < |Stage(p, inputs, u + 1).inputs| &&
            Stage(p, inputs, u + 1).inputs[j].value == InputValue(p, NamedOrder[u])
  {
    var prev := Stage(p, inputs, u);
    StageStep(p, inputs, u + 1);
    StageNoRaiseBefore(p, inputs, u, u + 1);
    StageLookup(p, inputs, u, InputName(NamedOrder[u]));
    SetNamedRaised(p, prev, NamedOrder[u]);
    var j := FindInput(prev.inputs, InputName(NamedOrder[u])).value;
    SetNamedWrites(p, prev, NamedOrder[u], j);
  }

  /** A later write by name leaves the socket of setting `u` alone. */
  lemma HoldsStep(p: Props, inputs: seq<Socket>, u: nat, s: nat)
    requires u < s - 1 && s <= 5 && FindInput(inputs, InputName(NamedOrder[u])).Some?
    requires var j := FindInput(inputs, InputName(NamedOrder[u])).value;
             j < |Stage(p, inputs, s - 1).inputs| &&
             Stage(p, inputs, s - 1).inputs[j].value == InputValue(p, NamedOrder[u])
    ensures var j := FindInput(inputs, InputName(NamedOrder[u])).value;
            j < |Stage(p, inputs, s).inputs| &&
            Stage(p, inputs, s).inputs[j].value == InputValue(p, NamedOrder[u])
  {
    var prev := Stage(p, inputs, s - 1);
    var j := FindInput(inputs, InputName(NamedOrder[u])).value;
    StageStep(p, inputs, s);
    StageLookup(p, inputs, s - 1, InputName(NamedOrder[s - 1]));
    StageLookup(p, inputs, s - 1, InputName(NamedOrder[u]));
    NamedOrderNames(u, s - 1);
    SetNamedAt(p, prev, NamedOrder[s - 1], j);
  }

  /** With no error, an enabled setting looked up by name holds its value
      after the visit, unless the "IOR Level" write, falling back to position
      13, lands on the same socket. */
  lemma ApplyHoldsNamed(p: Props, st: MatState, id: SettingId)
    requires Principled(st).Some? && Apply(p, st).raised.None?
    requires id.Named() && Enabled(p, id)
    requires !(p.iorLevel.enabled && IorLevelIndex(st.nodes[Principled(st).value].inputs) ==
                                     FindInput(st.nodes[Principled(st).value].inputs, InputName(id)))
    ensures var k := Principled(st).value;
            var inputs := st.nodes[k].inputs;
            var r := Apply(p, st).state;
            FindInput(inputs, InputName(id)).Some? &&
            var j := FindInput(inputs, InputName(id)).value;
            k < |r.nodes| && j < |r.nodes[k].inputs| && r.nodes[k].inputs[j].value == InputValue(p, id)
  {
    var k := Principled(st).value;
    var inputs := st.nodes[k].inputs;
    NamedOrderNamed(id);
    var u :| 0 <= u < 5 && NamedOrder[u] == id;
    ApplyStages(p, st);
    LastStageHolds(p, inputs, u);
    assert Apply(p, st).state.nodes[k].inputs == Stage(p, inputs, 6).inputs;
  }

  /** The step of `ApplyHoldsNamed` on the inputs: the "IOR Level" write
      keeps a socket it does not target. */
  lemma LastStageHolds(p: Props, inputs: seq<Socket>, u: nat)
    requires u < 5 && Enabled(p, NamedOrder[u]) && Stage(p, inputs, 5).raised.None?
    requires !(p.iorLevel.enabled && IorLevelIndex(inputs) == FindInput(inputs, InputName(NamedOrder[u])))
    ensures FindInput(inputs, InputName(NamedOrder[u])).Some?
    ensures var j := FindInput(inputs, InputName(NamedOrder[u])).value;
            j < |Stage(p, inputs, 6).inputs| &&
            Stage(p, inputs, 6).inputs[j].value == InputValue(p, NamedOrder[u])
  {
    StageHolds(p, inputs, u, 5);
    var j := FindInput(inputs, InputName(NamedOrder[u])).value;
    StageLookup(p, inputs, 5, IorLevelName);
    StageStep(p, inputs, 6);
    SetIorLevelAt(p, Stage(p, inputs, 5), j);
  }

  /** An enabled material-level setting holds its value after the visit, with
      or without nodes. */
  /** Every material-level field whose checkbox is on holds its setting's
      value in `r`. */
  ghost predicate EnabledHeld(p: Props, r: MatState)
  {
    (p.renderMethod.enabled ==> r.renderMethod == p.renderMethod.value) &&
    (p.displacementMethod.enabled ==> r.displacementMethod == p.displacementMethod.value) &&
    (p.backfaceCulling.enabled ==> r.backfaceCulling == p.backfaceCulling.value) &&
    (p.backfaceCullingShadow.enabled ==> r.backfaceCullingShadow == p.backfaceCullingShadow.value) &&
    (p.backfaceCullingLightprobe.enabled ==> r.backfaceCullingLightprobe == p.backfaceCullingLightprobe.value) &&
    (p.transparentShadow.enabled ==> r.transparentShadow == p.transparentShadow.value) &&
    (p.diffuseColor.enabled ==> r.diffuseColor == p.diffuseColor.value) &&
    (p.displayMetallic.enabled ==> r.metallic == p.displayMetallic.value) &&
    (p.displayRoughness.enabled ==> r.roughness == p.displayRoughness.value)
  }

  lemma ApplyHoldsMaterialLevel(p: Props, st: MatState)
    ensures EnabledHeld(p, Apply(p, st).state)
  {
    ApplyKeepsFields(p, st);
  }

  // ---------------------------------------------------------------------------
  // "IOR Level"

  /** The settings with the "IOR Level" checkbox cleared. */
  function WithoutIorLevel(p: Props): (q: Props)
    ensures !q.iorLevel.enabled
    ensures forall id: SettingId :: !id.IorLevelId? ==> Enabled(q, id) == Enabled(p, id) && Entry(q, id) == Entry(p, id)
  {
    p.(iorLevel := p.iorLevel.(enabled := false))
  }

  /** The five writes by name do not look at the "IOR Level" setting. */
  lemma {:induction false} StageIgnoresIorLevel(p: Props, inputs: seq<Socket>, t: nat)
    requires t <= 5
    ensures Stage(p, inputs, t) == Stage(WithoutIorLevel(p), inputs, t)
  {
    if t > 0 {
      StageIgnoresIorLevel(p, inputs, t - 1);
      StageStep(p, inputs, t);
      StageStep(WithoutIorLevel(p), inputs, t);
      NamedOrderNamed(NamedOrder[t - 1]);
      SetNamedIgnoresIorLevel(p, Stage(p, inputs, t - 1), NamedOrder[t - 1]);
    }
  }

  lemma SetNamedIgnoresIorLevel(p: Props, b: Bsdf, id: SettingId)
    requires id.Named()
    ensures SetNamed(p, b, id) == SetNamed(WithoutIorLevel(p), b, id)
  {
  }

  /** No write by name reports the "IOR Level" warning. */
  lemma {:induction false} StageNotWarned(p: Props, inputs: seq<Socket>, t: nat)
    requires t <= 5
    ensures !Stage(p, inputs, t).warned
  {
    if t > 0 {
      StageNotWarned(p, inputs, t - 1);
      StageStep(p, inputs, t);
    }
  }

  /** The warning is reported exactly when the visit reaches the "IOR Level"
      write, the setting is enabled, and neither a socket of that name nor
      position 13 exists. */
  lemma ApplyWarnedIff(p: Props, st: MatState)
    ensures Apply(p, st).warned <==>
              Principled(st).Some? && p.iorLevel.enabled && Apply(p, st).raised.None? &&
              IorLevelIndex(st.nodes[Principled(st).value].inputs).None?
  {
    if Principled(st).Some? {
      var inputs := st.nodes[Principled(st).value].inputs;
      ApplyStages(p, st);
      StageNotWarned(p, inputs, 5);
      StageLookup(p, inputs, 5, IorLevelName);
    }
  }

  /** When the "IOR Level" socket is found, by name or at position 13, it
      holds the setting's value afterwards and its entry is the last logged. */
  lemma ApplyIorLevelFound(p: Props, st: MatState)
    requires Principled(st).Some? && Apply(p, st).raised.None? && p.iorLevel.enabled
    requires IorLevelIndex(st.nodes[Principled(st).value].inputs).Some?
    ensures var k := Principled(st).value;
            var r := Apply(p, st);
            var j := IorLevelIndex(st.nodes[k].inputs).value;
            !r.warned && k < |r.state.nodes| && j < |r.state.nodes[k].inputs| &&
            r.state.nodes[k].inputs[j].value == Scalar(p.iorLevel.value) &&
            |r.log| > 0 && r.log[|r.log| - 1] == Entry(p, IorLevelId)
  {
    var k := Principled(st).value;
    ApplyStages(p, st);
    LastStageFound(p, st.nodes[k].inputs);
  }

  lemma LastStageFound(p: Props, inputs: seq<Socket>)
    requires Stage(p, inputs, 5).raised.None? && p.iorLevel.enabled && IorLevelIndex(inputs).Some?
    ensures var last := Stage(p, inputs, 6);
            var j := IorLevelIndex(inputs).value;
            !last.warned && j < |last.inputs| && last.inputs[j].value == Scalar(p.iorLevel.value) &&
            last.log == Stage(p, inputs, 5).log + [Entry(p, IorLevelId)]
  {
    StageLookup(p, inputs, 5, IorLevelName);
    StageKeepsNames(p, inputs, 5);
    StageNotWarned(p, inputs, 5);
    StageStep(p, inputs, 6);
    SetIorLevelAt(p, Stage(p, inputs, 5), IorLevelIndex(inputs).value);
  }

  /** When neither a socket named "IOR Level" nor position 13 exists, the
      visit is the visit with that checkbox cleared, plus the warning. */
  lemma ApplyIorLevelMissed(p: Props, st: MatState)
    requires Principled(st).Some? && Apply(p, st).raised.None? && p.iorLevel.enabled
    requires IorLevelIndex(st.nodes[Principled(st).value].inputs).None?
    ensures Apply(p, st) == Apply(WithoutIorLevel(p), st).(warned := true)
  {
    var k := Principled(st).value;
    var inputs := st.nodes[k].inputs;
    var q := WithoutIorLevel(p);
    ApplyStages(p, st);
    ApplyStages(q, st);
    LastStageMissed(p, inputs);
    MaterialLogIgnoresIorLevel(p);
    MaterialFieldsIgnoreIorLevel(p, st);
  }

  lemma LastStageMissed(p: Props, inputs: seq<Socket>)
    requires Stage(p, inputs, 5).raised.None? && p.iorLevel.enabled && IorLevelIndex(inputs).None?
    ensures Stage(p, inputs, 5) == Stage(WithoutIorLevel(p), inputs, 5)
    ensures Stage(p, inputs, 6) == Stage(WithoutIorLevel(p), inputs, 6).(warned := true)
  {
    var q := WithoutIorLevel(p);
    StageLookup(p, inputs, 5, IorLevelName);
    StageIgnoresIorLevel(p, inputs, 5);
    StageStep(p, inputs, 6);
    StageStep(q, inputs, 6);
    StageNotWarned(p, inputs, 5);
  }

  lemma MaterialLogIgnoresIorLevel(p: Props)
    ensures MaterialLog(p) == MaterialLog(WithoutIorLevel(p))
  {
  }

  lemma MaterialFieldsIgnoreIorLevel(p: Props, st: MatState)
    ensures MaterialFields(p, st) == MaterialFields(WithoutIorLevel(p), st)
  {
  }

  // ---------------------------------------------------------------------------
  // The log

  /** Whether a visit that raises nothing reaches the assignment of `id`:
      material-level settings always, Principled BSDF inputs only when the
      material uses nodes and has such a node, and "IOR Level" only when its
      socket is found. */
  predicate Reaches(st: MatState, id: SettingId)
  {
    id.MaterialLevel() ||
    (Principled(st).Some? && (id.IorLevelId? ==> IorLevelIndex(st.nodes[Principled(st).value].inputs).Some?))
  }

  function ExpectedEntry(p: Props, st: MatState, id: SettingId): seq<LogEntry>
  {
    if Enabled(p, id) && Reaches(st, id) then [Entry(p, id)] else []
  }

  /** Reference log: one entry per enabled setting the visit reaches, in the
      order of `ids`. */
  function Expected(p: Props, st: MatState, ids: seq<SettingId>): seq<LogEntry>
  {
    if ids == [] then [] else Expected(p, st, ids[..|ids| - 1]) + ExpectedEntry(p, st, ids[|ids| - 1])
  }

  lemma ExpectedPrefix(p: Props, st: MatState, ids: seq<SettingId>, i: nat)
    requires 0 < i <= |ids|
    ensures Expected(p, st, ids[..i]) == Expected(p, st, ids[..i - 1]) + ExpectedEntry(p, st, ids[i - 1])
  {
    assert ids[..i][..i - 1] == ids[..i - 1];
  }

  lemma {:induction false} ExpectedAppend(p: Props, st: MatState, a: seq<SettingId>, b: seq<SettingId>)
    ensures Expected(p, st, a + b) == Expected(p, st, a) + Expected(p, st, b)
    decreases |b|
  {
    if b == [] {
      assert a + b == a;
    } else {
      assert (a + b)[..|a + b| - 1] == a + b[..|b| - 1];
      ExpectedAppend(p, st, a, b[..|b| - 1]);
    }
  }

  lemma ExpectedMaterialStep(p: Props, st: MatState, i: nat)
    requires 0 < i <= 9
    ensures Expected(p, st, Catalog[..i]) == Expected(p, st, Catalog[..i - 1]) + LogIf(p, Catalog[i - 1])
  {
    ExpectedPrefix(p, st, Catalog, i);
    CatalogMaterialLevel(i - 1);
    ExpectedEntryMaterial(p, st, Catalog[i - 1]);
  }

  /** The first nine settings of the catalog are the material-level ones. */
  lemma CatalogMaterialLevel(i: nat)
    requires i < |Catalog|
    ensures Catalog[i].MaterialLevel() <==> i < 9
  {
  }

  /** Every material-level setting is reached. */
  lemma ExpectedEntryMaterial(p: Props, st: MatState, id: SettingId)
    requires id.MaterialLevel()
    ensures ExpectedEntry(p, st, id) == LogIf(p, id)
  {
  }

  lemma ExpectedMaterialSteps(p: Props, st: MatState, i: nat)
    requires 3 <= i <= 9
    ensures Expected(p, st, Catalog[..i]) ==
              Expected(p, st, Catalog[..i - 3]) + LogIf(p, Catalog[i - 3]) + LogIf(p, Catalog[i - 2]) +
              LogIf(p, Catalog[i - 1])
  {
    ExpectedMaterialStep(p, st, i - 2);
    ExpectedMaterialStep(p, st, i - 1);
    ExpectedMaterialStep(p, st, i);
  }

  /** The material-level part of the log follows the first nine settings. */
  lemma ExpectedMaterialLog(p: Props, st: MatState)
    ensures Expected(p, st, Catalog[..9]) == MaterialLog(p)
  {
    assert Catalog[..0] == [];
    ExpectedMaterialSteps(p, st, 3);
    ExpectedMaterialSteps(p, st, 6);
    ExpectedMaterialSteps(p, st, 9);
    MaterialLogGroups(p);
  }

  lemma MaterialLogGroups(p: Props)
    ensures MaterialLog(p) ==
              [] + LogIf(p, Catalog[0]) + LogIf(p, Catalog[1]) + LogIf(p, Catalog[2]) +
              LogIf(p, Catalog[3]) + LogIf(p, Catalog[4]) + LogIf(p, Catalog[5]) +
              LogIf(p, Catalog[6]) + LogIf(p, Catalog[7]) + LogIf(p, Catalog[8])
  {
    assert [] + LogIf(p, Catalog[0]) == LogIf(p, Catalog[0]);
  }

  /** Without a Principled node no BSDF setting is reached. */
  lemma {:induction false} ExpectedUnreached(p: Props, st: MatState, ids: seq<SettingId>)
    requires Principled(st).None? && forall i :: 0 <= i < |ids| ==> !ids[i].MaterialLevel()
    ensures Expected(p, st, ids) == []
  {
    if ids != [] {
      ExpectedUnreached(p, st, ids[..|ids| - 1]);
    }
  }

  /** The settings of stage `t` in the fifteen-setting order. */
  lemma CatalogBsdf(t: nat)
    requires 0 < t <= 6
    ensures Catalog[9..9 + t][..t - 1] == Catalog[9..9 + t - 1]
    ensures Catalog[9..9 + t][t - 1] == if t <= 5 then NamedOrder[t - 1] else IorLevelId
  {
  }

  /** The inputs of the Principled node of `st`, the one the visit writes. */
  ghost predicate PrincipledInputs(st: MatState, inputs: seq<Socket>)
  {
    Principled(st).Some? && inputs == st.nodes[Principled(st).value].inputs
  }

  lemma StageLogStep(p: Props, st: MatState, inputs: seq<Socket>, t: nat)
    requires PrincipledInputs(st, inputs) && 0 < t <= 6
    requires Stage(p, inputs, t).raised.None?
    requires Stage(p, inputs, t - 1).log == Expected(p, st, Catalog[9..9 + t - 1])
    ensures Stage(p, inputs, t).log == Expected(p, st, Catalog[9..9 + t])
  {
    var ids := Catalog[9..9 + t];
    CatalogBsdf(t);
    ExpectedPrefix(p, st, ids, t);
    assert ids[..t] == ids;
    assert Expected(p, st, ids) == Expected(p, st, Catalog[9..9 + t - 1]) + ExpectedEntry(p, st, ids[t - 1]);
    if t <= 5 {
      StageLogNamed(p, st, inputs, t);
    } else {
      StageLogIorLevel(p, st, inputs);
    }
  }

  lemma StageLogNamed(p: Props, st: MatState, inputs: seq<Socket>, t: nat)
    requires PrincipledInputs(st, inputs) && 0 < t <= 5
    requires Stage(p, inputs, t).raised.None?
    ensures Stage(p, inputs, t).log == Stage(p, inputs, t - 1).log + ExpectedEntry(p, st, NamedOrder[t - 1])
  {
    var id := NamedOrder[t - 1];
    StageStep(p, inputs, t);
    StageNoRaiseBefore(p, inputs, t - 1, t);
    StageLookup(p, inputs, t - 1, InputName(id));
    assert Reaches(st, id);
  }

  lemma StageLogIorLevel(p: Props, st: MatState, inputs: seq<Socket>)
    requires PrincipledInputs(st, inputs)
    requires Stage(p, inputs, 6).raised.None?
    ensures Stage(p, inputs, 6).log == Stage(p, inputs, 5).log + ExpectedEntry(p, st, IorLevelId)
  {
    StageStep(p, inputs, 6);
    StageLookup(p, inputs, 5, IorLevelName);
  }

  /** The BSDF part of the log after `t` stages without error. */
  lemma {:induction false} StageLog(p: Props, st: MatState, inputs: seq<Socket>, t: nat)
    requires PrincipledInputs(st, inputs) && t <= 6
    requires Stage(p, inputs, t).raised.None?
    ensures Stage(p, inputs, t).log == Expected(p, st, Catalog[9..9 + t])
  {
    if t == 0 {
      assert Catalog[9..9] == [];
    } else {
      StageNoRaiseBefore(p, inputs, t - 1, t);
      StageLog(p, st, inputs, t - 1);
      StageLogStep(p, st, inputs, t);
    }
  }

  /** With no error the log has one entry per enabled setting the visit
      reaches, in the fixed order of the fifteen settings. */
  lemma ApplyLogOrder(p: Props, st: MatState)
    requires Apply(p, st).raised.None?
    ensures Apply(p, st).log == Expected(p, st, Catalog)
  {
    ExpectedSplit(p, st, 6);
    assert Catalog[..15] == Catalog;
    if Principled(st).None? {
      forall i | 0 <= i < 6
        ensures !Catalog[9..15][i].MaterialLevel()
      {
        CatalogMaterialLevel(9 + i);
      }
      ExpectedUnreached(p, st, Catalog[9..15]);
    } else {
      var inputs := st.nodes[Principled(st).value].inputs;
      ApplyStages(p, st);
      StageStep(p, inputs, 6);
      StageLog(p, st, inputs, 6);
    }
  }

  /** When a lookup raises, the log holds the entries up to the missing
      setting and none after it. */
  lemma ApplyLogRaised(p: Props, st: MatState)
    requires Apply(p, st).raised.Some?
    ensures Principled(st).Some?
    ensures exists u :: 0 <= u < 5 && Missing(p, st.nodes[Principled(st).value].inputs, NamedOrder[u]) &&
                        Apply(p, st).raised == Some(InputName(NamedOrder[u])) &&
                        Apply(p, st).log == Expected(p, st, Catalog[..9 + u])
  {
    var inputs := st.nodes[Principled(st).value].inputs;
    ApplyStages(p, st);
    StageRaised(p, inputs, 5);
    var u := FirstMissing(p, inputs, 5).value;
    RaisedAtStage(p, inputs, u);
    StageLog(p, st, inputs, u);
    ExpectedSplit(p, st, u);
  }

  /** The reference log up to a BSDF setting: the material-level part, then
      the BSDF part. */
  lemma ExpectedSplit(p: Props, st: MatState, t: nat)
    requires t <= 6
    ensures Expected(p, st, Catalog[..9 + t]) == MaterialLog(p) + Expected(p, st, Catalog[9..9 + t])
  {
    ExpectedMaterialLog(p, st);
    assert Catalog[..9 + t] == Catalog[..9] + Catalog[9..9 + t];
    ExpectedAppend(p, st, Catalog[..9], Catalog[9..9 + t]);
  }

  /** The first missing setting, at position `u`, raises at stage `u + 1`,
      and nothing after it is written or logged. */
  lemma RaisedAtStage(p: Props, inputs: seq<Socket>, u: nat)
    requires u < 5 && Missing(p, inputs, NamedOrder[u])
    requires forall v :: 0 <= v < u ==> !Missing(p, inputs, NamedOrder[v])
    ensures Stage(p, inputs, u).raised.None?
    ensures Stage(p, inputs, u + 1).raised == Some(InputName(NamedOrder[u]))
    ensures Stage(p, inputs, u + 1).log == Stage(p, inputs, u).log
    ensures Stage(p, inputs, 5) == Stage(p, inputs, u + 1) && Stage(p, inputs, 6) == Stage(p, inputs, u + 1)
  {
    StageRaised(p, inputs, u);
    StageStep(p, inputs, u + 1);
    StageLookup(p, inputs, u, InputName(NamedOrder[u]));
    StageRaisedStays(p, inputs, u + 1, 5);
    StageRaisedStays(p, inputs, u + 1, 6);
  }

  // ---------------------------------------------------------------------------
  // Nothing logged, nothing changed

  /** A stage that has logged nothing has written nothing. */
  lemma {:induction false} StageQuiet(p: Props, inputs: seq<Socket>, t: nat)
    requires t <= 6 && Stage(p, inputs, t).log == []
    ensures Stage(p, inputs, t).inputs == inputs
  {
    if t > 0 {
      StageStep(p, inputs, t);
      assert Stage(p, inputs, t - 1).log == [];
      StageQuiet(p, inputs, t - 1);
    }
  }

  /** Every assignment is logged: a visit that logs nothing leaves the
      material as it was. */
  lemma ApplyQuietUnchanged(p: Props, st: MatState)
    requires Apply(p, st).log == []
    ensures Apply(p, st).state == st
  {
    assert MaterialLog(p) == [];
    assert MaterialFields(p, st) == st;
    if Principled(st).Some? {
      var k := Principled(st).value;
      ApplyStages(p, st);
      StageQuiet(p, st.nodes[k].inputs, 6);
      assert st.nodes[k := st.nodes[k].(inputs := st.nodes[k].inputs)] == st.nodes;
    }
  }

  /** With no checkbox ticked a visit changes nothing and reports nothing. */
  lemma ApplyNoneEnabled(p: Props, st: MatState)
    requires NoneEnabled(p)
    ensures Apply(p, st) == MaterialResult(st, [], false, None)
  {
    MaterialNoneEnabled(p, st);
    if Principled(st).Some? {
      var k := Principled(st).value;
      var inputs := st.nodes[k].inputs;
      BsdfNoneEnabled(p, inputs);
      assert st.nodes[k := st.nodes[k].(inputs := inputs)] == st.nodes;
    }
  }

  lemma MaterialNoneEnabled(p: Props, st: MatState)
    requires NoneEnabled(p)
    ensures MaterialLog(p) == [] && MaterialFields(p, st) == st
  {
  }

  lemma BsdfNoneEnabled(p: Props, inputs: seq<Socket>)
    requires NoneEnabled(p)
    ensures BsdfWrites(p, inputs) == Bsdf(inputs, [], false, None)
  {
  }
}
