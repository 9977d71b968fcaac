/** The settings record of the add-on (BatchMaterialProperties): one
    (value, enabled) pair per adjustable property, with the defaults the
    add-on declares. Floating-point values are only ever copied by the
    operator, so they are modelled as `real`. */
module Props {

  /** An RGBA color as stored by a four-component color property. */
  datatype Color = Color(r: real, g: real, b: real, a: real)

  /** Items of the "Render Method" enum property. */
  datatype RenderMethod = Dithered | Blended

  /** Items of the "Displacement Method" enum property. */
  datatype DisplacementMethod = Bump | Displacement | Both

  /** The identifier the host prints for an enum item. */
  function RenderMethodTag(m: RenderMethod): (t: string)
    ensures t == "DITHERED" <==> m == Dithered
    ensures t == "BLENDED" <==> m == Blended
  {
    match m
    case Dithered => "DITHERED"
    case Blended => "BLENDED"
  }

  function DisplacementMethodTag(m: DisplacementMethod): (t: string)
    ensures t == "BUMP" <==> m == Bump
    ensures t == "DISPLACEMENT" <==> m == Displacement
    ensures t == "BOTH" <==> m == Both
  {
    match m
    case Bump => "BUMP"
    case Displacement => "DISPLACEMENT"
    case Both => "BOTH"
  }

  /** A value together with its `use_*` checkbox. */
  datatype Setting<T> = Setting(value: T, enabled: bool)

  /** The fifteen (value, enabled) pairs, grouped as the panel groups them. */
  datatype Props = Props(
    // Principled BSDF inputs
    baseColor: Setting<Color>,
    metallic: Setting<real>,
    roughness: Setting<real>,
    ior: Setting<real>,
    alpha: Setting<real>,
    iorLevel: Setting<real>,
    // material settings
    renderMethod: Setting<RenderMethod>,
    displacementMethod: Setting<DisplacementMethod>,
    backfaceCulling: Setting<bool>,
    backfaceCullingShadow: Setting<bool>,
    backfaceCullingLightprobe: Setting<bool>,
    transparentShadow: Setting<bool>,
    // viewport display
    diffuseColor: Setting<Color>,
    displayMetallic: Setting<real>,
    displayRoughness: Setting<real>)

  /** True when no `use_*` checkbox is ticked. */
  predicate NoneEnabled(p: Props)
  {
    !p.baseColor.enabled && !p.metallic.enabled && !p.roughness.enabled &&
    !p.ior.enabled && !p.alpha.enabled && !p.iorLevel.enabled &&
    !p.renderMethod.enabled && !p.displacementMethod.enabled &&
    !p.backfaceCulling.enabled && !p.backfaceCullingShadow.enabled &&
    !p.backfaceCullingLightprobe.enabled && !p.transparentShadow.enabled &&
    !p.diffuseColor.enabled && !p.displayMetallic.enabled && !p.displayRoughness.enabled
  }

  predicate UnitColor(c: Color)
  {
    0.0 <= c.r <= 1.0 && 0.0 <= c.g <= 1.0 && 0.0 <= c.b <= 1.0 && 0.0 <= c.a <= 1.0
  }

  /** The [min, max] bounds the property declarations give each value; the
      host's property system enforces them, the operator never checks them. */
  predicate InBounds(p: Props)
  {
    UnitColor(p.baseColor.value) &&
    0.0 <= p.metallic.value <= 1.0 &&
    0.0 <= p.roughness.value <= 1.0 &&
    1.0 <= p.ior.value <= 1000.0 &&
    0.0 <= p.alpha.value <= 1.0 &&
    0.0 <= p.iorLevel.value <= 1.0 &&
    UnitColor(p.diffuseColor.value) &&
    0.0 <= p.displayMetallic.value <= 1.0 &&
    0.0 <= p.displayRoughness.value <= 1.0
  }

  /** The settings a freshly registered scene holds. */
  function Defaults(): (p: Props)
    ensures NoneEnabled(p) && InBounds(p)
    ensures p.renderMethod.value == Dithered && p.displacementMethod.value == Bump
    ensures !p.backfaceCulling.value && !p.backfaceCullingShadow.value
    ensures !p.backfaceCullingLightprobe.value && !p.transparentShadow.value
  {
    Props(
      baseColor := Setting(Color(1.0, 1.0, 1.0, 1.0), false),
      metallic := Setting(0.0, false),
      roughness := Setting(0.5, false),
      ior := Setting(1.45, false),
      alpha := Setting(1.0, false),
      iorLevel := Setting(0.5, false),
      renderMethod := Setting(Dithered, false),
      displacementMethod := Setting(Bump, false),
      backfaceCulling := Setting(false, false),
      backfaceCullingShadow := Setting(false, false),
      backfaceCullingLightprobe := Setting(false, false),
      transparentShadow := Setting(false, false),
      diffuseColor := Setting(Color(0.8, 0.8, 0.8, 1.0), false),
      displayMetallic := Setting(0.0, false),
      displayRoughness := Setting(0.5, false))
  }
}
