/** What the operator does to one material found in a slot: the nine
    material-level assignments, then, for a node-based material, the writes to
    the inputs of its first Principled BSDF node. `Apply` is the specification
    on values; `ApplyToMaterial` performs the same assignments in place, in the
    order the add-on performs them. */
module MaterialApply {
  import opened Props
  import opened Scene

  /** The value part of a log entry. Colors are logged by their first three
      channels only. */
  datatype Shown = Tag(tag: string) | Flag(flag: bool) | Number(x: real) | Rgb(r: real, g: real, b: real)

  /** One entry of the applied-properties log: "<name>=<value>". */
  datatype LogEntry = LogEntry(name: string, shown: Shown)

  function ColorShown(c: Color): Shown
  {
    Rgb(c.r, c.g, c.b)
  }

  /** The fifteen settings, one constructor each. */
  datatype SettingId =
    | RenderMethodId | DisplacementMethodId | BackfaceCullingId | BackfaceCullingShadowId
    | BackfaceCullingLightprobeId | TransparentShadowId | DiffuseColorId | DisplayMetallicId
    | DisplayRoughnessId
    | BaseColorId | MetallicId | RoughnessId | IorId | AlphaId | IorLevelId
  {
    /** Written to the material itself rather than to a node input. */
    predicate MaterialLevel()
    {
      !(BaseColorId? || MetallicId? || RoughnessId? || IorId? || AlphaId? || IorLevelId?)
    }

    /** A Principled BSDF input looked up by name, with no fallback. */
    predicate Named()
    {
      BaseColorId? || MetallicId? || RoughnessId? || IorId? || AlphaId?
    }
  }

  /** The order in which the operator considers the settings for each slot. */
  const Catalog: seq<SettingId> := [
    RenderMethodId, DisplacementMethodId, BackfaceCullingId, BackfaceCullingShadowId,
    BackfaceCullingLightprobeId, TransparentShadowId, DiffuseColorId, DisplayMetallicId,
    DisplayRoughnessId, BaseColorId, MetallicId, RoughnessId, IorId, AlphaId, IorLevelId]

  function Enabled(p: Props, id: SettingId): bool
  {
    match id
    case RenderMethodId => p.renderMethod.enabled
    case DisplacementMethodId => p.displacementMethod.enabled
    case BackfaceCullingId => p.backfaceCulling.enabled
    case BackfaceCullingShadowId => p.backfaceCullingShadow.enabled
    case BackfaceCullingLightprobeId => p.backfaceCullingLightprobe.enabled
    case TransparentShadowId => p.transparentShadow.enabled
    case DiffuseColorId => p.diffuseColor.enabled
    case DisplayMetallicId => p.displayMetallic.enabled
    case DisplayRoughnessId => p.displayRoughness.enabled
    case BaseColorId => p.baseColor.enabled
    case MetallicId => p.metallic.enabled
    case RoughnessId => p.roughness.enabled
    case IorId => p.ior.enabled
    case AlphaId => p.alpha.enabled
    case IorLevelId => p.iorLevel.enabled
  }

  /** How a socket value appears in the log. */
  function ValueShown(v: SocketValue): Shown
  {
    match v
    case Scalar(x) => Number(x)
    case Rgba(c) => ColorShown(c)
  }

  /** The log entry recorded when a setting is applied. A BSDF setting's
      entry carries the name the setting is looked up by ("IOR Level" also
      when the write falls back to position 13) and the value written. */
  function Entry(p: Props, id: SettingId): (e: LogEntry)
    ensures !id.MaterialLevel() ==> e == LogEntry(InputName(id), ValueShown(InputValue(p, id)))
  {
    match id
    case RenderMethodId => LogEntry("Render Method", Tag(RenderMethodTag(p.renderMethod.value)))
    case DisplacementMethodId =>
      LogEntry("Displacement Method", Tag(DisplacementMethodTag(p.displacementMethod.value)))
    case BackfaceCullingId => LogEntry("Backface Culling (Camera)", Flag(p.backfaceCulling.value))
    case BackfaceCullingShadowId =>
      LogEntry("Backface Culling (Shadow)", Flag(p.backfaceCullingShadow.value))
    case BackfaceCullingLightprobeId =>
      LogEntry("Backface Culling (Lightprobe)", Flag(p.backfaceCullingLightprobe.value))
    case TransparentShadowId => LogEntry("Raytrace Transmission", Flag(p.transparentShadow.value))
    case DiffuseColorId => LogEntry("Diffuse Color", ColorShown(p.diffuseColor.value))
    case DisplayMetallicId => LogEntry("Display Metallic", Number(p.displayMetallic.value))
    case DisplayRoughnessId => LogEntry("Display Roughness", Number(p.displayRoughness.value))
    case BaseColorId => LogEntry("Base Color", ColorShown(p.baseColor.value))
    case MetallicId => LogEntry("Metallic", Number(p.metallic.value))
    case RoughnessId => LogEntry("Roughness", Number(p.roughness.value))
    case IorId => LogEntry("IOR", Number(p.ior.value))
    case AlphaId => LogEntry("Alpha", Number(p.alpha.value))
    case IorLevelId => LogEntry("IOR Level", Number(p.iorLevel.value))
  }

  /** The socket name a BSDF setting is looked up by. */
  function InputName(id: SettingId): string
  {
    match id
    case BaseColorId => "Base Color"
    case MetallicId => "Metallic"
    case RoughnessId => "Roughness"
    case IorId => "IOR"
    case AlphaId => "Alpha"
    case _ => IorLevelName
  }

  /** The value a BSDF setting assigns to its socket. */
  function InputValue(p: Props, id: SettingId): SocketValue
  {
    match id
    case BaseColorId => Rgba(p.baseColor.value)
    case MetallicId => Scalar(p.metallic.value)
    case RoughnessId => Scalar(p.roughness.value)
    case IorId => Scalar(p.ior.value)
    case AlphaId => Scalar(p.alpha.value)
    case _ => Scalar(p.iorLevel.value)
  }

  // ---------------------------------------------------------------------------
  // The specification

  function Pick<T>(s: Setting<T>, current: T): T
  {
    if s.enabled then s.value else current
  }

  /** The material after the nine material-level assignments. */
  function MaterialFields(p: Props, st: MatState): (r: MatState)
    ensures r.useNodes == st.useNodes && r.nodes == st.nodes
  {
    st.(renderMethod := Pick(p.renderMethod, st.renderMethod),
        displacementMethod := Pick(p.displacementMethod, st.displacementMethod),
        backfaceCulling := Pick(p.backfaceCulling, st.backfaceCulling),
        backfaceCullingShadow := Pick(p.backfaceCullingShadow, st.backfaceCullingShadow),
        backfaceCullingLightprobe := Pick(p.backfaceCullingLightprobe, st.backfaceCullingLightprobe),
        transparentShadow := Pick(p.transparentShadow, st.transparentShadow),
        diffuseColor := Pick(p.diffuseColor, st.diffuseColor),
        metallic := Pick(p.displayMetallic, st.metallic),
        roughness := Pick(p.displayRoughness, st.roughness))
  }

  function LogIf(p: Props, id: SettingId): seq<LogEntry>
  {
    if Enabled(p, id) then [Entry(p, id)] else []
  }

  /** The entries the nine material-level assignments log. */
  function MaterialLog(p: Props): (log: seq<LogEntry>)
    ensures log == [] <==>
              !p.renderMethod.enabled && !p.displacementMethod.enabled && !p.backfaceCulling.enabled &&
              !p.backfaceCullingShadow.enabled && !p.backfaceCullingLightprobe.enabled &&
              !p.transparentShadow.enabled && !p.diffuseColor.enabled && !p.displayMetallic.enabled &&
              !p.displayRoughness.enabled
  {
    LogIf(p, RenderMethodId) + LogIf(p, DisplacementMethodId) + LogIf(p, BackfaceCullingId) +
    LogIf(p, BackfaceCullingShadowId) + LogIf(p, BackfaceCullingLightprobeId) +
    LogIf(p, TransparentShadowId) + LogIf(p, DiffuseColorId) + LogIf(p, DisplayMetallicId) +
    LogIf(p, DisplayRoughnessId)
  }

  /** Progress through the writes to the Principled node's inputs: the inputs
      so far, the entries logged, whether the "IOR Level" warning was
      reported, and the name of a missing input if a lookup raised. */
  datatype Bsdf = Bsdf(inputs: seq<Socket>, log: seq<LogEntry>, warned: bool, raised: Option<string>)

  function WriteSocket(inputs: seq<Socket>, j: nat, v: SocketValue): seq<Socket>
    requires j < |inputs|
  {
    inputs[j := inputs[j].(value := v)]
  }

  /** One of the five writes by name; a missing name raises. */
  function SetNamed(p: Props, b: Bsdf, id: SettingId): (r: Bsdf)
    ensures r.warned == b.warned
    ensures b.raised.Some? ==> r == b
    ensures r.raised.Some? <==> b.raised.Some? || (Enabled(p, id) && FindInput(b.inputs, InputName(id)).None?)
    ensures r.raised.Some? && b.raised.None? ==> r.raised == Some(InputName(id))
    ensures r.log != b.log ==> b.raised.None? && r.log == b.log + [Entry(p, id)]
  {
    if b.raised.Some? || !Enabled(p, id) then b
    else match FindInput(b.inputs, InputName(id))
      case None => b.(raised := Some(InputName(id)))
      case Some(j) => b.(inputs := WriteSocket(b.inputs, j, InputValue(p, id)), log := b.log + [Entry(p, id)])
  }

  /** The "IOR Level" write; a miss only sets the warning. */
  function SetIorLevel(p: Props, b: Bsdf): (r: Bsdf)
    ensures r.raised == b.raised
    ensures r.warned <==> b.warned || (b.raised.None? && p.iorLevel.enabled && IorLevelIndex(b.inputs).None?)
    ensures r.log != b.log ==> b.raised.None? && r.log == b.log + [Entry(p, IorLevelId)]
  {
    if b.raised.Some? || !p.iorLevel.enabled then b
    else match IorLevelIndex(b.inputs)
      case None => b.(warned := true)
      case Some(j) => b.(inputs := WriteSocket(b.inputs, j, InputValue(p, IorLevelId)),
                         log := b.log + [Entry(p, IorLevelId)])
  }

  /** All writes to the Principled node's inputs, in the add-on's order. */
  function BsdfWrites(p: Props, inputs: seq<Socket>): (r: Bsdf)
    ensures r.warned ==> p.iorLevel.enabled && r.raised.None?
  {
    var b0 := Bsdf(inputs, [], false, None);
    var b1 := SetNamed(p, b0, BaseColorId);
    var b2 := SetNamed(p, b1, MetallicId);
    var b3 := SetNamed(p, b2, RoughnessId);
    var b4 := SetNamed(p, b3, IorId);
    var b5 := SetNamed(p, b4, AlphaId);
    SetIorLevel(p, b5)
  }

  /** The node whose inputs the operator writes, if any: the first Principled
      BSDF node of a node-based material. */
  function Principled(st: MatState): (r: Option<nat>)
    ensures r.Some? ==> st.useNodes && r.value < |st.nodes| && st.nodes[r.value].kind == PrincipledKind
    ensures r.Some? ==> forall i :: 0 <= i < r.value ==> st.nodes[i].kind != PrincipledKind
    ensures r.None? <==> !st.useNodes || forall i :: 0 <= i < |st.nodes| ==> st.nodes[i].kind != PrincipledKind
  {
    if st.useNodes then FirstPrincipled(st.nodes) else None
  }

  /** The outcome of visiting one slot holding a material. */
  datatype MaterialResult = MaterialResult(state: MatState, log: seq<LogEntry>, warned: bool, raised: Option<string>)

  /** One visit: the material-level assignments, then the BSDF writes. Only
      a node-based material can raise or warn, and a visit that raised does
      not also warn. */
  function Apply(p: Props, st: MatState): (r: MaterialResult)
    ensures r.raised.Some? || r.warned ==> st.useNodes
    ensures r.warned ==> r.raised.None?
  {
    var fields := MaterialFields(p, st);
    match Principled(st)
    case None => MaterialResult(fields, MaterialLog(p), false, None)
    case Some(k) =>
      var b := BsdfWrites(p, st.nodes[k].inputs);
      MaterialResult(fields.(nodes := st.nodes[k := st.nodes[k].(inputs := b.inputs)]),
                     MaterialLog(p) + b.log, b.warned, b.raised)
  }

  // ---------------------------------------------------------------------------
  // The operation in place

  /** The body of the slot loop for a non-null material. A missing named BSDF
      input raises: the method stops where the lookup failed, with the writes
      before it done, and reports the missing name in `raised`. */
  method ApplyToMaterial(p: Props, m: Material) returns (log: seq<LogEntry>, warned: bool, raised: Option<string>)
    modifies m
    ensures MaterialResult(m.State(), log, warned, raised) == Apply(p, old(m.State()))
  {
    log := SetMaterialFields(p, m);
    warned, raised := false, None;
    if m.useNodes {
      var found := FirstPrincipled(m.nodes);
      if found.Some? {
        var k := found.value;
        var bsdfLog;
        bsdfLog, warned, raised := SetPrincipledInputs(p, m, k);
        log := log + bsdfLog;
      }
    }
  }

  /** The nine material-level assignments, each logged when made. */
  method SetMaterialFields(p: Props, m: Material) returns (log: seq<LogEntry>)
    modifies m
    ensures m.State() == MaterialFields(p, old(m.State())) && log == MaterialLog(p)
  {
    var methods := SetSurfaceMethods(p, m);
    var culling := SetBackfaceCulling(p, m);
    var shadow := SetTransparentShadow(p, m);
    var display := SetViewportDisplay(p, m);
    log := methods + culling + shadow + display;
    MaterialLogParts(p);
  }

  /** The material-level log, grouped as the four helpers below write it. */
  lemma MaterialLogParts(p: Props)
    ensures MaterialLog(p) ==
            (LogIf(p, RenderMethodId) + LogIf(p, DisplacementMethodId)) +
            (LogIf(p, BackfaceCullingId) + LogIf(p, BackfaceCullingShadowId) + LogIf(p, BackfaceCullingLightprobeId)) +
            LogIf(p, TransparentShadowId) +
            (LogIf(p, DiffuseColorId) + LogIf(p, DisplayMetallicId) + LogIf(p, DisplayRoughnessId))
  {
    Regroup(LogIf(p, RenderMethodId), LogIf(p, DisplacementMethodId), LogIf(p, BackfaceCullingId),
            LogIf(p, BackfaceCullingShadowId), LogIf(p, BackfaceCullingLightprobeId), LogIf(p, TransparentShadowId),
            LogIf(p, DiffuseColorId), LogIf(p, DisplayMetallicId), LogIf(p, DisplayRoughnessId));
  }

  lemma Regroup(a: seq<LogEntry>, b: seq<LogEntry>, c: seq<LogEntry>, d: seq<LogEntry>, e: seq<LogEntry>,
                f: seq<LogEntry>, g: seq<LogEntry>, h: seq<LogEntry>, i: seq<LogEntry>)
    ensures a + b + c + d + e + f + g + h + i == (a + b) + (c + d + e) + f + (g + h + i)
  {
  }

  /** Surface render method and displacement method. */
  method SetSurfaceMethods(p: Props, m: Material) returns (log: seq<LogEntry>)
    modifies m
    ensures m.renderMethod == Pick(p.renderMethod, old(m.renderMethod))
    ensures m.displacementMethod == Pick(p.displacementMethod, old(m.displacementMethod))
    ensures m.backfaceCulling == old(m.backfaceCulling) && m.backfaceCullingShadow == old(m.backfaceCullingShadow)
    ensures m.backfaceCullingLightprobe == old(m.backfaceCullingLightprobe) && m.transparentShadow == old(m.transparentShadow)
    ensures m.diffuseColor == old(m.diffuseColor) && m.metallic == old(m.metallic) && m.roughness == old(m.roughness)
    ensures m.useNodes == old(m.useNodes) && m.nodes == old(m.nodes)
    ensures log == LogIf(p, RenderMethodId) + LogIf(p, DisplacementMethodId)
  {
    log := [];
    if p.renderMethod.enabled {
      m.renderMethod := p.renderMethod.value;
      log := log + [Entry(p, RenderMethodId)];
    }
    if p.displacementMethod.enabled {
      m.displacementMethod := p.displacementMethod.value;
      log := log + [Entry(p, DisplacementMethodId)];
    }
  }

  /** Backface culling for camera, shadow and light probe volume. */
  method SetBackfaceCulling(p: Props, m: Material) returns (log: seq<LogEntry>)
    modifies m
    ensures m.backfaceCulling == Pick(p.backfaceCulling, old(m.backfaceCulling))
    ensures m.backfaceCullingShadow == Pick(p.backfaceCullingShadow, old(m.backfaceCullingShadow))
    ensures m.backfaceCullingLightprobe == Pick(p.backfaceCullingLightprobe, old(m.backfaceCullingLightprobe))
    ensures m.renderMethod == old(m.renderMethod) && m.displacementMethod == old(m.displacementMethod)
    ensures m.transparentShadow == old(m.transparentShadow)
    ensures m.diffuseColor == old(m.diffuseColor) && m.metallic == old(m.metallic) && m.roughness == old(m.roughness)
    ensures m.useNodes == old(m.useNodes) && m.nodes == old(m.nodes)
    ensures log == LogIf(p, BackfaceCullingId) + LogIf(p, BackfaceCullingShadowId) + LogIf(p, BackfaceCullingLightprobeId)
  {
    log := [];
    if p.backfaceCulling.enabled {
      m.backfaceCulling := p.backfaceCulling.value;
      log := log + [Entry(p, BackfaceCullingId)];
    }
    if p.backfaceCullingShadow.enabled {
      m.backfaceCullingShadow := p.backfaceCullingShadow.value;
      log := log + [Entry(p, BackfaceCullingShadowId)];
    }
    if p.backfaceCullingLightprobe.enabled {
      m.backfaceCullingLightprobe := p.backfaceCullingLightprobe.value;
      log := log + [Entry(p, BackfaceCullingLightprobeId)];
    }
  }

  /** Transparent shadows. */
  method SetTransparentShadow(p: Props, m: Material) returns (log: seq<LogEntry>)
    modifies m
    ensures m.transparentShadow == Pick(p.transparentShadow, old(m.transparentShadow))
    ensures m.renderMethod == old(m.renderMethod) && m.displacementMethod == old(m.displacementMethod)
    ensures m.backfaceCulling == old(m.backfaceCulling) && m.backfaceCullingShadow == old(m.backfaceCullingShadow)
    ensures m.backfaceCullingLightprobe == old(m.backfaceCullingLightprobe)
    ensures m.diffuseColor == old(m.diffuseColor) && m.metallic == old(m.metallic) && m.roughness == old(m.roughness)
    ensures m.useNodes == old(m.useNodes) && m.nodes == old(m.nodes)
    ensures log == LogIf(p, TransparentShadowId)
  {
    log := [];
    if p.transparentShadow.enabled {
      m.transparentShadow := p.transparentShadow.value;
      log := [Entry(p, TransparentShadowId)];
    }
  }

  /** Viewport display color, metallic and roughness. */
  method SetViewportDisplay(p: Props, m: Material) returns (log: seq<LogEntry>)
    modifies m
    ensures m.diffuseColor == Pick(p.diffuseColor, old(m.diffuseColor))
    ensures m.metallic == Pick(p.displayMetallic, old(m.metallic))
    ensures m.roughness == Pick(p.displayRoughness, old(m.roughness))
    ensures m.renderMethod == old(m.renderMethod) && m.displacementMethod == old(m.displacementMethod)
    ensures m.backfaceCulling == old(m.backfaceCulling) && m.backfaceCullingShadow == old(m.backfaceCullingShadow)
    ensures m.backfaceCullingLightprobe == old(m.backfaceCullingLightprobe) && m.transparentShadow == old(m.transparentShadow)
    ensures m.useNodes == old(m.useNodes) && m.nodes == old(m.nodes)
    ensures log == LogIf(p, DiffuseColorId) + LogIf(p, DisplayMetallicId) + LogIf(p, DisplayRoughnessId)
  {
    log := [];
    if p.diffuseColor.enabled {
      m.diffuseColor := p.diffuseColor.value;
      log := log + [Entry(p, DiffuseColorId)];
    }
    if p.displayMetallic.enabled {
      m.metallic := p.displayMetallic.value;
      log := log + [Entry(p, DisplayMetallicId)];
    }
    if p.displayRoughness.enabled {
      m.roughness := p.displayRoughness.value;
      log := log + [Entry(p, DisplayRoughnessId)];
    }
  }

  /** `node_tree.nodes[k].inputs[j].default_value = v`. */
  method WriteInput(m: Material, k: nat, j: nat, v: SocketValue)
    requires k < |m.nodes| && j < |m.nodes[k].inputs|
    modifies m
    ensures m.State() == old(m.State()).(nodes := SetInput(old(m.nodes), k, j, v))
  {
    m.nodes := SetInput(m.nodes, k, j, v);
  }

  /** Once a lookup has raised, no later write does anything. */
  lemma RaisedPasses(p: Props, b: Bsdf)
    requires b.raised.Some?
    ensures SetIorLevel(p, b) == b
    ensures forall id :: SetNamed(p, b, id) == b
  {
  }

  /** `st` is `st0` with the inputs of node `k` replaced by `inputs`. */
  ghost predicate InputsNow(st: MatState, st0: MatState, k: nat, inputs: seq<Socket>)
  {
    k < |st0.nodes| && st == st0.(nodes := st0.nodes[k := st0.nodes[k].(inputs := inputs)])
  }

  /** Writing socket `j` of node `k` keeps the relation to `st0`. */
  lemma WriteNow(st: MatState, st0: MatState, k: nat, inputs: seq<Socket>, j: nat, v: SocketValue)
    requires InputsNow(st, st0, k, inputs) && j < |inputs|
    ensures k < |st.nodes| && j < |st.nodes[k].inputs|
    ensures InputsNow(st.(nodes := SetInput(st.nodes, k, j, v)), st0, k, WriteSocket(inputs, j, v))
  {
  }

  /** The writes to the inputs of node `k`, the first Principled BSDF node. */
  method SetPrincipledInputs(p: Props, m: Material, k: nat) returns (log: seq<LogEntry>, warned: bool, raised: Option<string>)
    requires k < |m.nodes|
    modifies m
    ensures var b := BsdfWrites(p, old(m.nodes[k].inputs));
            InputsNow(m.State(), old(m.State()), k, b.inputs) &&
            log == b.log && warned == b.warned && raised == b.raised
  {
    log, warned := [], false;
    ghost var st0, in0 := m.State(), m.nodes[k].inputs;
    ghost var b := Bsdf(in0, [], false, None);
    var logged;
    logged, raised, b := SetNamedInput(p, m, k, BaseColorId, st0, b);
    log := log + logged;
    if raised.Some? {
      RaisedPasses(p, b);
      return;
    }
    logged, raised, b := SetNamedInput(p, m, k, MetallicId, st0, b);
    log := log + logged;
    if raised.Some? {
      RaisedPasses(p, b);
      return;
    }
    logged, raised, b := SetNamedInput(p, m, k, RoughnessId, st0, b);
    log := log + logged;
    if raised.Some? {
      RaisedPasses(p, b);
      return;
    }
    logged, raised, b := SetNamedInput(p, m, k, IorId, st0, b);
    log := log + logged;
    if raised.Some? {
      RaisedPasses(p, b);
      return;
    }
    logged, raised, b := SetNamedInput(p, m, k, AlphaId, st0, b);
    log := log + logged;
    if raised.Some? {
      RaisedPasses(p, b);
      return;
    }
    logged, warned, b := SetIorLevelInput(p, m, k, st0, b);
    log := log + logged;
  }

  /** `inputs[name].default_value = value` for one of the five settings
      looked up by name, with its log entry; a missing name raises. The ghost
      `b` is the progress so far, `b'` the progress after this write. */
  method SetNamedInput(p: Props, m: Material, k: nat, id: SettingId, ghost st0: MatState, ghost b: Bsdf)
      returns (logged: seq<LogEntry>, raised: Option<string>, ghost b': Bsdf)
    requires id.Named() && b.raised.None? && InputsNow(m.State(), st0, k, b.inputs)
    modifies m
    ensures b' == SetNamed(p, b, id) && b'.log == b.log + logged && raised == b'.raised
    ensures InputsNow(m.State(), st0, k, b'.inputs)
  {
    logged, raised, b' := [], None, SetNamed(p, b, id);
    if Enabled(p, id) {
      var j := FindInput(m.nodes[k].inputs, InputName(id));
      if j.None? {
        raised := Some(InputName(id));
        return;
      }
      WriteNow(m.State(), st0, k, b.inputs, j.value, InputValue(p, id));
      WriteInput(m, k, j.value, InputValue(p, id));
      logged := [Entry(p, id)];
    }
  }

  lemma SetNamedWrites(p: Props, b: Bsdf, id: SettingId, j: nat)
    requires b.raised.None? && Enabled(p, id) && FindInput(b.inputs, InputName(id)) == Some(j)
    ensures j < |b.inputs|
    ensures SetNamed(p, b, id) ==
            b.(inputs := WriteSocket(b.inputs, j, InputValue(p, id)), log := b.log + [Entry(p, id)])
  {
  }

  lemma SetIorLevelWrites(p: Props, b: Bsdf, j: nat)
    requires b.raised.None? && p.iorLevel.enabled && IorLevelIndex(b.inputs) == Some(j)
    ensures j < |b.inputs|
    ensures SetIorLevel(p, b) ==
            b.(inputs := WriteSocket(b.inputs, j, Scalar(p.iorLevel.value)), log := b.log + [Entry(p, IorLevelId)])
  {
  }

  /** The "IOR Level" write: by name, else at position 13; when neither
      exists the lookup error is caught and only a warning is reported. */
  method SetIorLevelInput(p: Props, m: Material, k: nat, ghost st0: MatState, ghost b: Bsdf)
      returns (logged: seq<LogEntry>, warned: bool, ghost b': Bsdf)
    requires b.raised.None? && !b.warned && InputsNow(m.State(), st0, k, b.inputs)
    modifies m
    ensures b' == SetIorLevel(p, b) && b'.log == b.log + logged && warned == b'.warned
    ensures InputsNow(m.State(), st0, k, b'.inputs)
  {
    logged, warned, b' := [], false, SetIorLevel(p, b);
    if p.iorLevel.enabled {
      var byName := FindInput(m.nodes[k].inputs, IorLevelName);
      if byName.Some? {
        WriteNow(m.State(), st0, k, b.inputs, byName.value, Scalar(p.iorLevel.value));
        WriteInput(m, k, byName.value, Scalar(p.iorLevel.value));
        logged := [Entry(p, IorLevelId)];
        SetIorLevelWrites(p, b, byName.value);
      } else if IorLevelFallback < |m.nodes[k].inputs| {
        WriteNow(m.State(), st0, k, b.inputs, IorLevelFallback, Scalar(p.iorLevel.value));
        WriteInput(m, k, IorLevelFallback, Scalar(p.iorLevel.value));
        logged := [Entry(p, IorLevelId)];
        SetIorLevelWrites(p, b, IorLevelFallback);
      } else {
        warned := true;
      }
    }
  }
}
