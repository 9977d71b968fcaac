/** The part of the host's scene that the operator reads and writes:
    selected objects, their material slots, materials and the nodes of a
    material's shader graph. Materials are objects, so one material may sit in
    several slots; a material's nodes are values held in a sequence field that
    the operator reassigns. */
module Scene {
  import opened Props

  datatype Option<T> = None | Some(value: T)

  /** The value of a node input socket: a scalar or a four-channel color. */
  datatype SocketValue = Scalar(x: real) | Rgba(c: Color)

  datatype Socket = Socket(name: string, value: SocketValue)

  /** A shader node: its type tag and its ordered input sockets. */
  datatype Node = Node(kind: string, inputs: seq<Socket>)

  const PrincipledKind: string := "BSDF_PRINCIPLED"

  /** The fields of a material the operator reads or writes, as one value. */
  datatype MatState = MatState(
    renderMethod: RenderMethod,
    displacementMethod: DisplacementMethod,
    backfaceCulling: bool,
    backfaceCullingShadow: bool,
    backfaceCullingLightprobe: bool,
    transparentShadow: bool,
    diffuseColor: Color,
    metallic: real,
    roughness: real,
    useNodes: bool,
    nodes: seq<Node>)

  class Material {
    var renderMethod: RenderMethod
    var displacementMethod: DisplacementMethod
    var backfaceCulling: bool
    var backfaceCullingShadow: bool
    var backfaceCullingLightprobe: bool
    var transparentShadow: bool
    var diffuseColor: Color
    /** viewport display metallic */
    var metallic: real
    /** viewport display roughness */
    var roughness: real
    var useNodes: bool
    var nodes: seq<Node>

    function State(): MatState
      reads this
    {
      MatState(renderMethod, displacementMethod, backfaceCulling, backfaceCullingShadow,
               backfaceCullingLightprobe, transparentShadow, diffuseColor, metallic, roughness,
               useNodes, nodes)
    }

    constructor (st: MatState)
      ensures State() == st
    {
      renderMethod := st.renderMethod;
      displacementMethod := st.displacementMethod;
      backfaceCulling := st.backfaceCulling;
      backfaceCullingShadow := st.backfaceCullingShadow;
      backfaceCullingLightprobe := st.backfaceCullingLightprobe;
      transparentShadow := st.transparentShadow;
      diffuseColor := st.diffuseColor;
      metallic := st.metallic;
      roughness := st.roughness;
      useNodes := st.useNodes;
      nodes := st.nodes;
    }
  }

  /** A selected object: its material slots, each empty (null) or holding a
      material. An object type without slots has an empty sequence. */
  datatype SceneObject = SceneObject(slots: seq<Material?>)

  /** The first node whose type is Principled BSDF, in node order. */
  function FirstPrincipled(nodes: seq<Node>): (r: Option<nat>)
    ensures r.Some? ==> r.value < |nodes| && nodes[r.value].kind == PrincipledKind &&
                        forall i :: 0 <= i < r.value ==> nodes[i].kind != PrincipledKind
    ensures r.None? ==> forall i :: 0 <= i < |nodes| ==> nodes[i].kind != PrincipledKind
  {
    if nodes == [] then None
    else if nodes[0].kind == PrincipledKind then Some(0)
    else match FirstPrincipled(nodes[1..])
      case None => None
      case Some(i) => Some(i + 1)
  }

  /** Lookup of an input socket by name: the first socket with that name. */
  function FindInput(inputs: seq<Socket>, name: string): (r: Option<nat>)
    ensures r.Some? ==> r.value < |inputs| && inputs[r.value].name == name &&
                        forall i :: 0 <= i < r.value ==> inputs[i].name != name
    ensures r.None? ==> forall i :: 0 <= i < |inputs| ==> inputs[i].name != name
  {
    if inputs == [] then None
    else if inputs[0].name == name then Some(0)
    else match FindInput(inputs[1..], name)
      case None => None
      case Some(i) => Some(i + 1)
  }

  /** Position of the socket holding "IOR Level" in older graph versions. */
  const IorLevelFallback: nat := 13

  const IorLevelName: string := "IOR Level"

  /** The socket the operator writes for "IOR Level": the one carrying that
      name if there is one, else the socket at position 13 if it exists, else
      none. */
  function IorLevelIndex(inputs: seq<Socket>): (r: Option<nat>)
    ensures FindInput(inputs, IorLevelName).Some? ==> r == FindInput(inputs, IorLevelName)
    ensures FindInput(inputs, IorLevelName).None? && IorLevelFallback < |inputs| ==>
              r == Some(IorLevelFallback)
    ensures r.None? <==> FindInput(inputs, IorLevelName).None? && |inputs| <= IorLevelFallback
    ensures r.Some? ==> r.value < |inputs|
  {
    match FindInput(inputs, IorLevelName)
    case Some(j) => Some(j)
    case None => if IorLevelFallback < |inputs| then Some(IorLevelFallback) else None
  }

  /** Assigns the default value of input `j` of node `k`. */
  function SetInput(nodes: seq<Node>, k: nat, j: nat, v: SocketValue): (r: seq<Node>)
    requires k < |nodes| && j < |nodes[k].inputs|
    ensures |r| == |nodes| && r[k].kind == nodes[k].kind
    ensures |r[k].inputs| == |nodes[k].inputs| && r[k].inputs[j] == Socket(nodes[k].inputs[j].name, v)
    ensures forall i :: 0 <= i < |nodes| && i != k ==> r[i] == nodes[i]
    ensures forall i :: 0 <= i < |nodes[k].inputs| && i != j ==> r[k].inputs[i] == nodes[k].inputs[i]
  {
    nodes[k := nodes[k].(inputs := nodes[k].inputs[j := nodes[k].inputs[j].(value := v)])]
  }

  /** The non-null materials among the given slots. */
  ghost function Materials(slots: seq<Material?>): set<Material>
  {
    set m: Material | m in slots
  }

  /** Every slot of every selected object, in visiting order. */
  function AllSlots(objs: seq<SceneObject>): (vs: seq<Material?>)
    ensures forall m :: m in vs ==> exists i :: 0 <= i < |objs| && m in objs[i].slots
  {
    if objs == [] then [] else AllSlots(objs[..|objs| - 1]) + objs[|objs| - 1].slots
  }

  lemma {:induction false} AllSlotsAppend(a: seq<SceneObject>, b: seq<SceneObject>)
    ensures AllSlots(a + b) == AllSlots(a) + AllSlots(b)
    decreases |b|
  {
    if b == [] {
      assert a + b == a;
    } else {
      var b' := b[..|b| - 1];
      assert (a + b)[..|a + b| - 1] == a + b' && (a + b)[|a + b| - 1] == b[|b| - 1];
      assert AllSlots(a + b) == AllSlots(a + b') + b[|b| - 1].slots;
      AllSlotsAppend(a, b');
      assert AllSlots(b) == AllSlots(b') + b[|b| - 1].slots;
    }
  }

  /** A material reachable from the selection, or the slot is empty. */
  lemma {:induction false} AllSlotsMember(objs: seq<SceneObject>, i: nat, j: nat)
    requires i < |objs| && j < |objs[i].slots|
    ensures objs[i].slots[j] in AllSlots(objs)
    decreases |objs|
  {
    var pre, last := objs[..|objs| - 1], objs[|objs| - 1];
    assert AllSlots(objs) == AllSlots(pre) + last.slots;
    if i == |objs| - 1 {
      assert objs[i].slots[j] in last.slots;
    } else {
      assert pre[i] == objs[i];
      AllSlotsMember(pre, i, j);
    }
  }

  /** Two input lists with the same socket names, position by position. */
  ghost predicate SameNames(a: seq<Socket>, b: seq<Socket>)
  {
    |a| == |b| && forall j :: 0 <= j < |a| ==> a[j].name == b[j].name
  }

  /** Two node lists with the same node types, position by position. */
  ghost predicate SameKinds(a: seq<Node>, b: seq<Node>)
  {
    |a| == |b| && forall i :: 0 <= i < |a| ==> a[i].kind == b[i].kind
  }

  /** Lookup by name sees only the names of the sockets. */
  lemma {:induction false} FindInputByNames(a: seq<Socket>, b: seq<Socket>, name: string)
    requires SameNames(a, b)
    ensures FindInput(a, name) == FindInput(b, name)
  {
    if a != [] && a[0].name != name {
      FindInputByNames(a[1..], b[1..], name);
    }
  }

  /** The search for the Principled node sees only the node types. */
  lemma {:induction false} FirstPrincipledByKinds(a: seq<Node>, b: seq<Node>)
    requires SameKinds(a, b)
    ensures FirstPrincipled(a) == FirstPrincipled(b)
  {
    if a != [] && a[0].kind != PrincipledKind {
      FirstPrincipledByKinds(a[1..], b[1..]);
    }
  }
}
