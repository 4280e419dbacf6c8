# CVG icon rendering, modelled in Dafny

This project models the core of `react-carbon-icons`, an icon library for React.
The library stores each SVG in a compact "Compressed Vector Graphics" (CVG) form.
A definition is an array whose head is the `viewBox` string.
The rest of the array is a list of shapes.
A shape is either a bare string, which is the `d` data of a `<path>`, or a `[tag, attributes]` tuple.
Three pieces are modelled:

- `hydrateCVG` decodes the shapes into SVG child nodes (module `Cvg`, file `cvg.dfy`).
- The `CVG` component builds the root `<svg>` node (module `Cvg`).
- Two wrappers pick the definition: `IconBase` takes it as an argument (module `BaseIcon`, file `icon_base.dfy`), and `Icon` looks it up by `name` in the icon manifest (module `NamedIcon`, file `icon.dfy`).

Modelling choices:

- React's `createElement(tag, props, ...children)` is the constructor `Node.Element(tag, props, children)`.
- A primitive value passed as a child is a `Node.Leaf`: the `alt` text inside `<title>`, or the `null` that `CVG` passes when there is no title.
- Component props are a `map<string, Value>`.
  `Value` is a small sum of JavaScript values, and reading an absent key yields `Undefined` (`Prop`).
- `CVG` writes `def: undefined` and `alt: undefined` after the spread.
  The model keeps both keys, mapped to `Undefined`, so it does not remove them.
  The properties say that the two keys never carry a *defined* value (`Defined`).
- `CVG` always passes a first child, either the `<title>` or `null`.
  So the raw child list is one longer than the number of shapes.
  The title and child-count properties are stated over `Rendered`, which drops the children React renders nothing for (`null`, `undefined`, booleans).
- The manifest `IconDefinitions` is a parameter of type `map<string, Definition>`.
- A `name` that is not a manifest key makes the lookup yield `undefined`, or a member inherited from `Object.prototype` for names such as `toString` or `__proto__`.
  `CVG` then throws, at `props.def[0]` for `undefined` and at `def.slice` for an inherited member.
  The model returns `Failure(UndefinedDefinition(name))` for this case.
  The TypeScript type `IconKey` rules the case out statically.
- The TypeScript prop types are the only preconditions.
  `CVG` requires a definition under `def`, and a `Definition` is a non-empty sequence whose head is the string form.
- All members are functions, so equal inputs give equal outputs by construction.

## Model

| member | source | states |
|---|---|---|
| `Cvg.StringProps` | src/CVG.ts:31 | a tuple shape's attribute record becomes props with the same keys and the same string values |
| `Cvg.HydrateAll` | src/CVG.ts:28-32 | mapping shapes gives one node per shape, the i-th node being the decoding of the i-th shape |
| `Cvg.Hydrate` | src/CVG.ts:27-33 | `hydrateCVG(def)` has exactly one node fewer than `def` has entries, and node i is the decoding of `def[i+1]` (the head is skipped, order kept) |
| `Cvg.HydratePathShape` | src/CVG.ts:29-30 | a string shape becomes a `path` element whose attributes are exactly `d` = the string and `fill` = `currentColor`, with no children |
| `Cvg.HydrateTupleShape` | src/CVG.ts:31 | a tuple shape becomes an element with its tag and exactly its attribute keys and values; no `fill` is added |
| `Cvg.HydrateAllAppend` | src/CVG.ts:28 | decoding is compositional: concatenated shape lists decode to the concatenated decodings |
| `Cvg.HydrateShapeInjective` | src/CVG.ts:29-31 | two shapes decode to the same node iff they are equal once a string is read as its `["path", {d, fill: "currentColor"}]` tuple |
| `Cvg.RenderedHydrateAll` | src/CVG.ts:28-32 | every decoded shape is an element, so none of them is dropped when rendered |
| `Cvg.SvgProps` | src/CVG.ts:63-68 | the merged props hold every caller key plus `viewBox`, `def` and `alt`; `viewBox` is `def[0]`, `def` and `alt` are `undefined`, every other caller value is kept |
| `Cvg.CVG` | src/CVG.ts:62-76 | the root is an `svg` element; its `viewBox` is defined and equals `def[0]` whatever the caller passed; `def` and `alt` are never defined on it; any other key is defined on it iff the caller defined it, with the caller's value; the rendered children are a `<title>` holding `alt` iff `alt` is truthy, then the decoded shapes in order, so their number is the number of shapes plus one when `alt` is truthy |
| `Cvg.CVGViewBoxWins` | src/CVG.ts:64-65 | a caller-supplied `viewBox` has no effect on the result |
| `Cvg.CVGAltOnlyTitle` | src/CVG.ts:66-74 | changing `alt` changes neither the `svg` attributes nor the decoded shape children |
| `BaseIcon.IconBase` | src/IconBase.ts:5-7 | the result is an `svg` whose `viewBox` is `def[0]` and whose shapes are `hydrateCVG(def)`; every caller prop other than `viewBox`, `def` and `alt` is forwarded unchanged |
| `BaseIcon.IconBaseOverridesDef` | src/IconBase.ts:6 | a `def` in the caller's props is overridden by the `def` argument |
| `BaseIcon.IconBaseTitle` | src/IconBase.ts:5-7 | the caller's `alt` alone decides whether the title is rendered |
| `NamedIcon.Icon` | src/Icon.ts:25-30 | the icon renders iff `name` is a manifest key; it then renders with that entry's `viewBox` and shapes, and otherwise fails with the undefined definition |
| `NamedIcon.IconIsIconBase` | src/Icon.ts:26-29 | a named icon equals `IconBase` applied to the manifest entry for its name and the same props |
| `NamedIcon.IconIgnoresCallerDef` | src/Icon.ts:27-28 | a `def` passed by the caller never changes the result |
| `NamedIcon.IconForwardsProps` | src/Icon.ts:26-29 | every caller prop other than `def`, `alt` and `viewBox` reaches the `svg` unchanged, `name` included |
| `NamedIcon.IconTitle` | src/Icon.ts:26-29 | the caller's `alt` decides the title exactly as for `CVG` |

## Left out

- React's `createElement` internals are not modelled: the special handling of the `key`, `ref` and `children` props, element identity, rendering and the DOM.
- The `ComponentProps<"svg">` typing is not modelled. Attribute values pass through uninterpreted (`Value.Obj`).
- Numbers are integers in `Value.Num`. Floating-point values, including `NaN` and its falsiness, are not modelled.
- The contents of the manifest module (`IconDefinitions`, `IconKey`) are not part of this model. The manifest is a parameter.
- `NamedIcon.Lookup`: a non-string `name` is treated as "not a key". JavaScript's coercion of such a value to a property key is not modelled.
- `NamedIcon.Lookup`: names inherited from `Object.prototype` are not keys of the manifest map. They fail like an absent name, which matches the source, where such a lookup also ends in a thrown error.
- The viewBox string and the SVG path data are copied verbatim and never parsed.
- The unused `useMemo` import in `src/Icon.ts` has no behaviour to model.
