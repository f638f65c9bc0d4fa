# KML Model parser

A Dafny model of `plugin.file.kml.KMLModelParser`, the part of OpenSphere's KML
reader that pulls a 3D `<Model>` out of a placemark. Given a placemark element
and the caller's object, `parseModel`:

- scans the placemark's children from last to first and stops at the first
  `Model` it meets, so the last `Model` in document order wins;
- walks that model's children in order and sends each one, by local tag name,
  to one of five extractors. `Location` writes `geometry` on the caller's
  object. `Orientation`, `Scale`, `altitudeMode` and `Link` write into a fresh
  model record. Any other tag is ignored;
- copies every entry of the placemark's `assetMap` whose filename does not end
  in `.dae` into `Images`, and stores the record under `Model`.

Files:

- `wrappers.dfy`: `Option`.
- `dom.dfy` (module `Dom`): the XML element and the asset map of opaque
  payloads; `LastIndex`, the last child with a given local name, with its
  characterising lemmas; JavaScript's `endsWith`.
- `jsvalue.dfy` (module `JsValue`): the JavaScript values the parser stores,
  and `JsObject`, the mutable property bag (`props: map<string, Value>`). A key
  that is absent is kept distinct from a key holding `Undefined`.
- `kmlmodelparser.dfy` (module `KmlModelParser`): the parser's methods, the
  specification functions they are proved against, and the lemmas.

Each source function is a method that assigns properties of the object
passed in as the source does, with the source's loops where it has them. Its
`ensures` ties the object's new `props` to a specification function of the
old ones: `LocationPoint`, `AssignFields` (the loop that
`parseOrientation` and `parseScale` share, driven by a tag-to-property table),
`LinkOf`, `Dispatch` (the walk over the model's children) and `ParseModelOf`.
The lemmas then state what the source promises about those functions.

The source throws a `TypeError` in two places: reading `textContent` of the
missing first child of a childless `Link` (line 79), and indexing or calling
`Object.keys` on an undefined `assetMap` (lines 80 and 36). These throws are
modelled as an `Outcome` rather than excluded by a precondition. When a throw
happens, the caller's object keeps whatever was already written (for example
a `geometry` from an earlier `Location`), and `Model` is not written.

`parseFloat` is a parameter of type `string -> Number`, where `Number` is a
64-bit IEEE-754 bit pattern. Every property is proved for every such function.

When the filename a `Link` names is not in the asset map, `parseLink` still
assigns `collada` (line 81): the key is present and holds `undefined`
(`Undefined` here, see `LinkOfSpec` and `ParseModelRecord`).

## Model

| member | source | states |
|---|---|---|
| `Dom.LastIndex` | src/plugin/file/kml/kmlmodelparser.js:18-20 | A returned index is in range and names a child with the wanted local name |
| `Dom.LastIndexSpec` | src/plugin/file/kml/kmlmodelparser.js:18-20 | No later child has that name; no index is returned exactly when no child has it |
| `Dom.LastIndexUnique` | src/plugin/file/kml/kmlmodelparser.js:18-20 | A matching child is the one found exactly when no later child matches, which is where the reverse scan stops first |
| `Dom.LastIndexIgnoresEarlier` | src/plugin/file/kml/kmlmodelparser.js:18-47 | Replacing any child before a later match does not change which child is found |
| `Dom.EndsWithIsSuffix` | src/plugin/file/kml/kmlmodelparser.js:40 | The `.dae` test holds exactly when the filename is some string followed by the suffix (case-sensitive) |
| `JsValue.JsObject.constructor` | src/plugin/file/kml/kmlmodelparser.js:21 | A new object literal has no properties |
| `KmlModelParser.ParseModel` | src/plugin/file/kml/kmlmodelparser.js:17-50 | The reverse scan with `break`, the forward walk and the `Images` step, with the thrown errors, leave the caller's object as `ParseModelOf` says |
| `KmlModelParser.ParseModelChild` | src/plugin/file/kml/kmlmodelparser.js:22-34 | One child goes to `Location`, `Orientation`, `Scale`, `altitudeMode` or `Link` handling by exact tag, and any other tag changes nothing |
| `KmlModelParser.CollectImages` | src/plugin/file/kml/kmlmodelparser.js:36-43 | `Images` holds exactly the assets whose filename does not end in `.dae`, each with its own payload, whatever order the keys are visited in |
| `KmlModelParser.ParseAltMode` | src/plugin/file/kml/kmlmodelparser.js:59-68 | `altitudeMode` is always written, and nothing else changes |
| `KmlModelParser.AltitudeModeCollapse` | src/plugin/file/kml/kmlmodelparser.js:62-65 | `RELATIVE_TO_GROUND` exactly for the text `relativeToGround`; `absolute` and `clampToGround` both give `CLAMP_TO_GROUND` |
| `KmlModelParser.ParseLink` | src/plugin/file/kml/kmlmodelparser.js:78-82 | The filename comes from the link's first child and is looked up in the placemark's asset map, not the Model element's |
| `KmlModelParser.LinkOfSpec` | src/plugin/file/kml/kmlmodelparser.js:78-81 | A link throws exactly when it has no child or the asset map is undefined. Otherwise `collada` is always written, as the payload or as undefined for a missing name, and nothing else changes |
| `KmlModelParser.ParseLocation` | src/plugin/file/kml/kmlmodelparser.js:91-107 | Only `geometry` changes; it becomes the point of `LocationPoint` |
| `KmlModelParser.LastParsedFromLastChild` | src/plugin/file/kml/kmlmodelparser.js:96-104 | A scan that parses every child of a name ends with the last such child's value, and undefined when there is none |
| `KmlModelParser.LocationCoordinates` | src/plugin/file/kml/kmlmodelparser.js:91-106 | The point has three coordinates in the order longitude, latitude, altitude. Each comes from the last child of that name and is undefined (not zero) when there is none |
| `KmlModelParser.ParseOrientation` | src/plugin/file/kml/kmlmodelparser.js:116-126 | The loop leaves the object as `AssignFields` with the `heading`/`tilt`/`roll` table says |
| `KmlModelParser.ParseScale` | src/plugin/file/kml/kmlmodelparser.js:135-145 | The loop leaves the object as `AssignFields` with the `x`/`y`/`z` to `scaleX`/`scaleY`/`scaleZ` table says |
| `KmlModelParser.AssignFieldsLastWins` | src/plugin/file/kml/kmlmodelparser.js:117-125 | Only properties named in the table change; each takes the last matching child's parse, or stays as it was without one |
| `KmlModelParser.OrientationLastWins` | src/plugin/file/kml/kmlmodelparser.js:116-126 | Only `heading`, `tilt` and `roll` change; each is absent or unchanged without a matching child, the last duplicate wins, and unknown tags are ignored |
| `KmlModelParser.ScaleLastWins` | src/plugin/file/kml/kmlmodelparser.js:135-145 | Only `scaleX`, `scaleY` and `scaleZ` change, from the last `x`, `y` and `z` child, and none changes without its child |
| `KmlModelParser.DispatchFrame` | src/plugin/file/kml/kmlmodelparser.js:22-34 | The walk over the model's children changes the caller's object at `geometry` only |
| `KmlModelParser.DispatchOutcome` | src/plugin/file/kml/kmlmodelparser.js:31-32 | The walk completes exactly when every `Link` child has a child and, if any `Link` exists, the asset map is defined |
| `KmlModelParser.DispatchGeometry` | src/plugin/file/kml/kmlmodelparser.js:23-24 | Without a `Location` child, `geometry` is untouched. After a normal walk it is the point of the last `Location` |
| `KmlModelParser.DispatchChildRecord` | src/plugin/file/kml/kmlmodelparser.js:25-33 | One child adds only record fields. `altitudeMode` changes only for an `altitudeMode` child and `collada` only for a `Link` |
| `KmlModelParser.DispatchAltitudeMode` | src/plugin/file/kml/kmlmodelparser.js:29-30 | After a normal walk, `altitudeMode` comes from the text of the last `altitudeMode` child |
| `KmlModelParser.DispatchCollada` | src/plugin/file/kml/kmlmodelparser.js:31-32 | After a normal walk, `collada` is the asset named by the last `Link` |
| `KmlModelParser.DispatchChildField` | src/plugin/file/kml/kmlmodelparser.js:25-28 | A child other than `Orientation` (or `Scale`) leaves that element's properties alone; such a child sets each from its own last matching child |
| `KmlModelParser.DispatchFields` | src/plugin/file/kml/kmlmodelparser.js:25-28 | After a normal walk, each orientation and scale property comes from the last `Orientation` (or `Scale`) child when it has a matching child, and is untouched without such a child |
| `KmlModelParser.DispatchRecordKeys` | src/plugin/file/kml/kmlmodelparser.js:22-34 | The walk adds no property outside the eight orientation, scale, altitude-mode and link fields |
| `KmlModelParser.NoModelLeavesObjectUnchanged` | src/plugin/file/kml/kmlmodelparser.js:17-49 | With no `Model` child the call returns normally and the caller's object is exactly as before |
| `KmlModelParser.EarlierModelIgnored` | src/plugin/file/kml/kmlmodelparser.js:18-47 | Anything before a later `Model`, including an earlier `Model`, can be replaced without changing the effect |
| `KmlModelParser.ParseModelFrame` | src/plugin/file/kml/kmlmodelparser.js:22-46 | Only the keys `Model` and `geometry` of the caller's object can change |
| `KmlModelParser.ParseModelOutcome` | src/plugin/file/kml/kmlmodelparser.js:31-36 | With a `Model`, the call returns normally exactly when the asset map is defined and every `Link` of the model has a child |
| `KmlModelParser.ParseModelGeometry` | src/plugin/file/kml/kmlmodelparser.js:23-24 | `geometry` is written only when the model has a `Location` child; after a normal return it holds the last one's point |
| `KmlModelParser.ParseModelRecord` | src/plugin/file/kml/kmlmodelparser.js:36-46 | After a normal return, `Model` holds the record: the non-`.dae` assets as `Images` whatever the link names, `altitudeMode` and `collada` from the last such child (absent without one), and no other key outside the record fields |
| `KmlModelParser.ParseModelFields` | src/plugin/file/kml/kmlmodelparser.js:22-46 | After a normal return, each of `heading`/`tilt`/`roll`/`scaleX`/`scaleY`/`scaleZ` in the record comes from the last `Orientation` (or `Scale`) child when it has a matching child, and is absent when the model has no such child |

## Left out

- The numeric behaviour of `parseFloat`, NaN included: it is an arbitrary function parameter, and only which text reaches which field is modelled.
- DOM semantics of `localName` and `textContent` (namespace stripping, concatenating descendant text, whitespace). Both are plain strings on the element.
- `ol.geom.Point` internals: the point is its coordinate sequence `[lon, lat, alt]` of optional numbers.
- `os.webgl.AltitudeMode`: a two-constructor datatype; its runtime values are not modelled.
- `goog.provide`/`goog.require` and the empty constructor (lines 1-9): module plumbing with no behaviour.
- Payload contents and how the KMZ reader fills `assetMap`: payloads are opaque byte sequences.
- JavaScript's prototype chain: `assetMap[name]` for names such as `constructor`, and storing a key named `__proto__`. The asset map is a plain finite map.
- The key order of `Object.keys` and of the resulting `Images` object: `CollectImages` draws keys from the key set in an unspecified order, with the same result for every order.
- `ParseModel`: the record stored under `Model` by reference is modelled as its value at the time of storing. Nothing in this component changes it afterwards.
- `ParseModel`: the dispatch chain (lines 22-34) and the `Images` loop (lines 36-43) are written as the helper methods `ParseModelChild` and `CollectImages`.
- `ParseModelRecord`: characterises `Images`, `altitudeMode`, `collada` and the set of record keys; `ParseModelFields` adds `heading`/`tilt`/`roll`/`scale*`.
- `ParseModelFields`: when the last `Orientation` (or `Scale`) child lacks a matching child, the property comes from an earlier element of that kind; this case is covered only by the per-step `DispatchChildField`.
- Errors other than the two modelled `TypeError`s, such as a placemark whose `children` is undefined, cannot arise for DOM elements and are not modelled.
- The placemark parser that calls `parseModel` and owns the object is not part of this model.
