/**
 * Model of src/CVG.ts: the "Compressed Vector Graphics" encoding, the decoder
 * `hydrateCVG` that turns a definition into SVG child nodes, and the `CVG`
 * component that wraps them in the root `<svg>` node.
 *
 * The host framework's `createElement` is a plain constructor (`Node.Element`);
 * component props are a map from property name to a JavaScript value.
 */
module Cvg {

  /** A shape of a definition: a bare string (the `d` of a `<path>`), or a
      `[tag, attributes]` tuple for any other SVG element. */
  datatype Shape =
    | Path(d: string)
    | Tuple(tag: string, attrs: map<string, string>)

  /** `[string, ...CVGShape[]]`: a non-empty array whose head is the viewBox.
      The head is a bare string, which is the `Path` variant of an entry. */
  type Definition = d: seq<Shape> | |d| >= 1 && d[0].Path? witness [Path("0 0 32 32")]

  /** The JavaScript values a prop can hold. Attribute values other than
      strings and definitions are uninterpreted (`Obj`). */
  datatype Value =
    | Undefined
    | Null
    | Bool(b: bool)
    | Num(n: int)
    | Str(s: string)
    | Def(def: Definition)
    | Obj(id: nat)

  type Props = map<string, Value>

  /** What `createElement` builds: an element with its props and children, or a
      primitive child (text, `null`, ...) passed where a child is expected. */
  datatype Node =
    | Element(tag: string, props: Props, children: seq<Node>)
    | Leaf(value: Value)

  /** Reading `obj.key`: an absent key reads as `undefined`. */
  function Prop(props: Props, key: string): Value {
    if key in props then props[key] else Undefined
  }

  /** JavaScript truthiness, as used by `props.alt ? ... : null`. */
  predicate Truthy(v: Value) {
    match v
    case Undefined => false
    case Null => false
    case Bool(b) => b
    case Num(n) => n != 0
    case Str(s) => s != ""
    case Def(_) => true
    case Obj(_) => true
  }

  /** The children React renders nothing for: `null`, `undefined` and booleans. */
  predicate IsEmptyChild(n: Node) {
    n.Leaf? && (n.value.Null? || n.value.Undefined? || n.value.Bool?)
  }

  /** The children that are rendered, in order. */
  function Rendered(children: seq<Node>): (r: seq<Node>)
    ensures |r| <= |children|
    ensures forall n :: n in r ==> n in children && !IsEmptyChild(n)
  {
    if children == [] then []
    else if IsEmptyChild(children[0]) then Rendered(children[1..])
    else [children[0]] + Rendered(children[1..])
  }

  /** The viewBox string, the head of a definition. */
  function ViewBox(def: Definition): string {
    def[0].d
  }

  /** A string-valued attribute record as props. */
  function StringProps(attrs: map<string, string>): (p: Props)
    ensures p.Keys == attrs.Keys
    ensures forall k :: k in attrs ==> p[k] == Str(attrs[k])
  {
    map k | k in attrs :: Str(attrs[k])
  }

  /** The callback of `hydrateCVG`'s `map`: one shape to one node. */
  function HydrateShape(shape: Shape): Node {
    match shape
    case Path(d) => Element("path", map["d" := Str(d), "fill" := Str("currentColor")], [])
    case Tuple(tag, attrs) => Element(tag, StringProps(attrs), [])
  }

  /** `shapes.map(HydrateShape)`. */
  function HydrateAll(shapes: seq<Shape>): (r: seq<Node>)
    ensures |r| == |shapes|
    ensures forall i :: 0 <= i < |r| ==> r[i] == HydrateShape(shapes[i])
  {
    if shapes == [] then [] else [HydrateShape(shapes[0])] + HydrateAll(shapes[1..])
  }

  /** `hydrateCVG(def)`: the shapes after the viewBox head, decoded in order. */
  function Hydrate(def: Definition): (r: seq<Node>)
    ensures |r| == |def| - 1
    ensures forall i :: 0 <= i < |r| ==> r[i] == HydrateShape(def[i + 1])
  {
    HydrateAll(def[1..])
  }

  /** The keys the component writes after spreading the caller's props. */
  const Overridden: set<string> := {"viewBox", "def", "alt"}

  /** `{ ...props, viewBox: def[0], def: undefined, alt: undefined }`. */
  function SvgProps(props: Props, def: Definition): (r: Props)
    ensures r.Keys == props.Keys + Overridden
    ensures r["viewBox"] == Str(ViewBox(def))
    ensures r["def"] == Undefined && r["alt"] == Undefined
    ensures forall k :: k in props && k !in Overridden ==> r[k] == props[k]
  {
    props["viewBox" := Str(ViewBox(def))]["def" := Undefined]["alt" := Undefined]
  }

  /** `createElement("title", null, alt)`. */
  function Title(alt: Value): Node {
    Element("title", map[], [Leaf(alt)])
  }

  /** The `CVGProps` type: a definition under `def`. */
  predicate HasDefinition(props: Props) {
    "def" in props && props["def"].Def?
  }

  /** An attribute the rendered `<svg>` carries with a defined value. */
  predicate Defined(props: Props, key: string) {
    key in props && props[key] != Undefined
  }

  /** The `CVG` component: the root `<svg>` node for `props.def`. Its `viewBox`
      is the definition's head, whatever the caller passed; `def` and `alt`
      never reach it with a defined value; every other caller prop reaches it
      exactly when the caller defined it, with the caller's value. What it
      renders is a `<title>` holding `alt` exactly when `alt` is truthy, then
      every decoded shape in order. */
  function CVG(props: Props): (r: Node)
    requires HasDefinition(props)
    ensures r.Element? && r.tag == "svg"
    ensures Defined(r.props, "viewBox") && r.props["viewBox"] == Str(ViewBox(props["def"].def))
    ensures !Defined(r.props, "def") && !Defined(r.props, "alt")
    ensures forall k :: k !in Overridden ==>
      (Defined(r.props, k) <==> Defined(props, k)) && (k in props ==> k in r.props && r.props[k] == props[k])
    ensures var alt, def := Prop(props, "alt"), props["def"].def;
      && Rendered(r.children) == (if Truthy(alt) then [Title(alt)] else []) + Hydrate(def)
      && |Rendered(r.children)| == (if Truthy(alt) then 1 else 0) + |def| - 1
  {
    var def := props["def"].def;
    var alt := Prop(props, "alt");
    var shapes := Hydrate(def);
    var children := [if Truthy(alt) then Title(alt) else Leaf(Null)] + shapes;
    assert children[1..] == HydrateAll(def[1..]);
    RenderedHydrateAll(def[1..]);
    Element("svg", SvgProps(props, def), children)
  }

  // ---------------------------------------------------------------------------
  // Properties of the decoder

  /** A string shape becomes a `<path>` with exactly `d` and `fill="currentColor"`. */
  lemma HydratePathShape(def: Definition, i: nat)
    requires i < |def| - 1 && def[i + 1].Path?
    ensures Hydrate(def)[i].Element? && Hydrate(def)[i].tag == "path"
    ensures Hydrate(def)[i].props.Keys == {"d", "fill"}
    ensures Hydrate(def)[i].props["d"] == Str(def[i + 1].d)
    ensures Hydrate(def)[i].props["fill"] == Str("currentColor")
    ensures Hydrate(def)[i].children == []
  {
  }

  /** A tuple shape becomes an element with its tag and exactly its attributes:
      no `fill` or any other key is added. */
  lemma HydrateTupleShape(def: Definition, i: nat)
    requires i < |def| - 1 && def[i + 1].Tuple?
    ensures Hydrate(def)[i].Element? && Hydrate(def)[i].tag == def[i + 1].tag
    ensures Hydrate(def)[i].props.Keys == def[i + 1].attrs.Keys
    ensures forall k :: k in def[i + 1].attrs ==> Hydrate(def)[i].props[k] == Str(def[i + 1].attrs[k])
    ensures Hydrate(def)[i].children == []
  {
  }

  /** Decoding is compositional: concatenated shape lists decode to the
      concatenation of their decodings. */
  lemma HydrateAllAppend(a: seq<Shape>, b: seq<Shape>)
    ensures HydrateAll(a + b) == HydrateAll(a) + HydrateAll(b)
  {
  }

  /** The tuple a string shape abbreviates. */
  function Expanded(shape: Shape): (t: Shape)
    ensures t.Tuple?
  {
    match shape
    case Path(d) => Tuple("path", map["d" := d, "fill" := "currentColor"])
    case Tuple(_, _) => shape
  }

  /** Two shapes decode to the same node exactly when they are the same tuple
      once a bare string is read as its `["path", {d, fill: "currentColor"}]`
      tuple: the string form is a pure abbreviation, and nothing else collides. */
  lemma HydrateShapeInjective(s1: Shape, s2: Shape)
    ensures HydrateShape(s1) == HydrateShape(s2) <==> Expanded(s1) == Expanded(s2)
  {
    assert forall s :: HydrateShape(s) == HydrateShape(Expanded(s)) by {
      forall d: string ensures HydrateShape(Path(d)) == HydrateShape(Expanded(Path(d))) {
        var m := map["d" := d, "fill" := "currentColor"];
        assert StringProps(m) == map["d" := Str(d), "fill" := Str("currentColor")];
      }
    }
    var t1, t2 := Expanded(s1), Expanded(s2);
    if HydrateShape(s1) == HydrateShape(s2) {
      var p1, p2 := StringProps(t1.attrs), StringProps(t2.attrs);
      assert p1 == HydrateShape(t1).props == HydrateShape(t2).props == p2;
      forall k | k in t1.attrs ensures k in t2.attrs && t1.attrs[k] == t2.attrs[k] {
        assert p1[k] == p2[k];
      }
      assert t1.attrs == t2.attrs;
    }
  }

  /** Decoded shapes are elements, so all of them are rendered. */
  lemma {:induction false} RenderedHydrateAll(shapes: seq<Shape>)
    ensures Rendered(HydrateAll(shapes)) == HydrateAll(shapes)
  {
    if shapes != [] {
      var r := HydrateAll(shapes);
      assert r[1..] == HydrateAll(shapes[1..]);
      RenderedHydrateAll(shapes[1..]);
    }
  }

  // ---------------------------------------------------------------------------
  // Properties of the component

  /** A caller-supplied `viewBox` has no effect: the definition's head wins. */
  lemma CVGViewBoxWins(props: Props, v: Value)
    requires HasDefinition(props)
    ensures CVG(props["viewBox" := v]) == CVG(props)
  {
  }

  /** `alt` only decides the first child; the `<svg>` attributes and the decoded
      shapes do not depend on it. */
  lemma CVGAltOnlyTitle(props: Props, v: Value)
    requires HasDefinition(props)
    ensures CVG(props["alt" := v]).props == CVG(props).props
    ensures CVG(props["alt" := v]).children[1..] == CVG(props).children[1..]
  {
  }
}
