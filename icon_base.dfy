/**
 * Model of src/IconBase.ts: render a given definition with the caller's
 * `<svg>` props, `def` being written after the spread.
 */
module BaseIcon {
  import opened Cvg

  /** `IconBase(def, props)`: `CVG({ ...props, def })`. The root is the `<svg>`
      of `def`: its viewBox and decoded shapes come from `def`, whatever `def`
      the caller's props held, and every other caller prop is forwarded. */
  function IconBase(def: Definition, props: Props): (r: Node)
    ensures r.Element? && r.tag == "svg"
    ensures r.props.Keys == props.Keys + Overridden
    ensures r.props["viewBox"] == Str(ViewBox(def))
    ensures r.props["def"] == Undefined && r.props["alt"] == Undefined
    ensures forall k :: k in props && k !in Overridden ==> r.props[k] == props[k]
    ensures |r.children| == |def| && r.children[1..] == Hydrate(def)
  {
    CVG(props["def" := Def(def)])
  }

  /** A `def` among the caller's props is overridden by the argument. */
  lemma IconBaseOverridesDef(def: Definition, props: Props, v: Value)
    ensures IconBase(def, props["def" := v]) == IconBase(def, props)
  {
  }

  /** The title child is decided by the caller's `alt` alone. */
  lemma IconBaseTitle(def: Definition, props: Props)
    ensures var alt := Prop(props, "alt");
      Rendered(IconBase(def, props).children) == (if Truthy(alt) then [Title(alt)] else []) + Hydrate(def)
  {
  }
}
