/**
 * Model of src/Icon.ts: render the icon a `name` prop selects from the icon
 * manifest. The manifest (`IconDefinitions`) is a parameter: a finite map from
 * icon key to definition.
 */
module NamedIcon {
  import opened Wrappers
  import opened Cvg
  import BaseIcon

  type Manifest = map<string, Definition>

  /** What happens when `name` is not a key of the manifest: the lookup yields
      `undefined` (or, for a name inherited from `Object.prototype`, that
      member), and `CVG` throws, at `props.def[0]` or at `def.slice`. */
  datatype IconError = UndefinedDefinition(name: Value)

  /** `IconDefinitions[props.name]`. */
  function Lookup(manifest: Manifest, name: Value): Option<Definition> {
    if name.Str? && name.s in manifest then Some(manifest[name.s]) else None
  }

  /** The icon key a `name` prop holds, when it holds a manifest key. */
  predicate NamesIcon(manifest: Manifest, props: Props) {
    "name" in props && props["name"].Str? && props["name"].s in manifest
  }

  /** `Icon(props)`: `CVG({ ...props, def: IconDefinitions[props.name] })`. */
  function Icon(manifest: Manifest, props: Props): (r: Result<Node, IconError>)
    ensures r.Success? <==> NamesIcon(manifest, props)
    ensures r.Failure? ==> r.error == UndefinedDefinition(Prop(props, "name"))
    ensures r.Success? ==> var def := manifest[props["name"].s];
      && r.value.Element? && r.value.tag == "svg"
      && "viewBox" in r.value.props && r.value.props["viewBox"] == Str(ViewBox(def))
      && |r.value.children| == |def| && r.value.children[1..] == Hydrate(def)
  {
    var name := Prop(props, "name");
    match Lookup(manifest, name)
    case None => Failure(UndefinedDefinition(name))
    case Some(def) => Success(CVG(props["def" := Def(def)]))
  }

  /** A named icon is `IconBase` applied to the manifest entry for its name. */
  lemma IconIsIconBase(manifest: Manifest, props: Props)
    requires NamesIcon(manifest, props)
    ensures Icon(manifest, props) == Success(BaseIcon.IconBase(manifest[props["name"].s], props))
  {
  }

  /** The definition always comes from the manifest: a `def` the caller passes
      changes nothing. */
  lemma IconIgnoresCallerDef(manifest: Manifest, props: Props, v: Value)
    ensures Icon(manifest, props["def" := v]) == Icon(manifest, props)
  {
    var name := Prop(props, "name");
    assert Prop(props["def" := v], "name") == name;
    if Lookup(manifest, name).Some? {
      var def := Lookup(manifest, name).value;
      assert props["def" := v]["def" := Def(def)] == props["def" := Def(def)];
    }
  }

  /** Every caller prop other than `def`, `alt` and `viewBox` reaches the
      `<svg>` unchanged; in particular `name` is not stripped. */
  lemma IconForwardsProps(manifest: Manifest, props: Props)
    requires NamesIcon(manifest, props)
    ensures var svg := Icon(manifest, props).value;
      && (forall k :: k !in Overridden ==> (k in svg.props <==> k in props))
      && (forall k :: k in props && k !in Overridden ==> svg.props[k] == props[k])
      && "name" in svg.props && svg.props["name"] == props["name"]
  {
  }

  /** The caller's `alt` decides the title, as for `CVG`. */
  lemma IconTitle(manifest: Manifest, props: Props)
    requires NamesIcon(manifest, props)
    ensures var alt, def := Prop(props, "alt"), manifest[props["name"].s];
      Rendered(Icon(manifest, props).value.children) == (if Truthy(alt) then [Title(alt)] else []) + Hydrate(def)
  {
  }
}
