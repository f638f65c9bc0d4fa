/**
 * The KML `<Model>` parser of a placemark: it finds the placemark's last
 * `Model` child, reads that model's location, orientation, scale, altitude
 * mode and link, splits the placemark's asset map into images and COLLADA
 * files, and stores the result on the caller's object.
 *
 * Each operation is a method written as the source writes it (index loops
 * that assign properties of the object passed in); each is proved against a
 * specification function, and the lemmas at the end state what the parser
 * promises in terms of those functions.
 */
module KmlModelParser {
  import opened Wrappers
  import opened Dom
  import opened JsValue

  /** How a call ends: normally, or by the TypeError the source throws. */
  datatype Outcome = Normal | TypeError(cause: Cause)

  datatype Cause =
    | LinkWithoutChild    // `el.children[0]` is undefined, so reading `textContent` throws
    | AssetMapUndefined   // indexing or `Object.keys` of an undefined `assetMap` throws

  /** The caller's object after a call, and how the call ended. */
  datatype Effect = Effect(outcome: Outcome, obj: Props)

  /** The state of `parseModel` while it walks the model's children. */
  datatype State = State(outcome: Outcome, obj: Props, model: Props)

  /** True when `a` and `b` agree on key `k`: both lack it, or both hold the same value. */
  predicate Agrees(a: Props, b: Props, k: string) {
    (k in a <==> k in b) && (k in a ==> a[k] == b[k])
  }

  // ---------------------------------------------------------------------
  // Specification functions
  // ---------------------------------------------------------------------

  /**
   * What a forward scan that parses every child named `name` leaves behind:
   * the parse of the last such child's text, or undefined when there is none.
   */
  function LastParsed(cs: seq<Element>, name: string, parseFloat: FloatParser): (v: Option<Number>) {
    match LastIndex(cs, name)
    case None => None
    case Some(i) => Some(parseFloat(cs[i].textContent))
  }

  /** Sets `key` to the number when one was found; otherwise the key is left as it was. */
  function SetIfFound(props: Props, key: string, v: Option<Number>): (r: Props) {
    if v.Some? then props[key := Num(v.value)] else props
  }

  /** The point built from a `Location` element's children, coordinates `[longitude, latitude, altitude]`. */
  function LocationPoint(cs: seq<Element>, parseFloat: FloatParser): (point: Value) {
    Point([LastParsed(cs, "longitude", parseFloat),
           LastParsed(cs, "latitude", parseFloat),
           LastParsed(cs, "altitude", parseFloat)])
  }

  /** Tag name to property name, for the children of an `Orientation` element. */
  const OrientationFields: map<string, string> := map["heading" := "heading", "tilt" := "tilt", "roll" := "roll"]

  /** Tag name to property name, for the children of a `Scale` element. */
  const ScaleFields: map<string, string> := map["x" := "scaleX", "y" := "scaleY", "z" := "scaleZ"]

  /**
   * The forward loop shared by `parseOrientation` and `parseScale`: every
   * child whose tag is in `fields` overwrites the property the tag maps to
   * with the parse of its text; other children are ignored.
   */
  function AssignFields(cs: seq<Element>, fields: map<string, string>, parseFloat: FloatParser, props: Props): (r: Props)
    decreases |cs|
  {
    if |cs| == 0 then props
    else
      var p := AssignFields(cs[..|cs| - 1], fields, parseFloat, props);
      var c := cs[|cs| - 1];
      if c.localName in fields then p[fields[c.localName] := Num(parseFloat(c.textContent))] else p
  }

  /** The altitude mode named by an `altitudeMode` element's text. */
  function AltitudeModeOf(text: string): (mode: AltitudeMode) {
    if text == "relativeToGround" then RelativeToGround else ClampToGround
  }

  /**
   * What `parseLink` does to the model record, given the placemark's asset
   * map: `collada` is always written, with `Undefined` for a dangling name.
   */
  function LinkOf(assetMap: Option<AssetMap>, link: Element, props: Props): (r: Effect)
  {
    if |link.children| == 0 then Effect(TypeError(LinkWithoutChild), props)
    else if assetMap.None? then Effect(TypeError(AssetMapUndefined), props)
    else
      Effect(Normal, props["collada" := ColladaOf(assetMap.value, link.children[0].textContent)])
  }

  /** The value `assetMap[name]` has in JavaScript: the payload, or undefined for a missing name. */
  function ColladaOf(assetMap: AssetMap, name: string): (collada: Value) {
    if name in assetMap then Asset(assetMap[name]) else Undefined
  }

  /** One step of the walk over the model's children: dispatch on the child's tag. */
  function DispatchChild(assetMap: Option<AssetMap>, c: Element, parseFloat: FloatParser, s: State): (u: State) {
    if c.localName == "Location" then s.(obj := s.obj["geometry" := LocationPoint(c.children, parseFloat)])
    else if c.localName == "Orientation" then s.(model := AssignFields(c.children, OrientationFields, parseFloat, s.model))
    else if c.localName == "Scale" then s.(model := AssignFields(c.children, ScaleFields, parseFloat, s.model))
    else if c.localName == "altitudeMode" then s.(model := s.model["altitudeMode" := Mode(AltitudeModeOf(c.textContent))])
    else if c.localName == "Link" then
      var e := LinkOf(assetMap, c, s.model);
      State(e.outcome, s.obj, e.obj)
    else s
  }

  /** The walk over the children `cs` in order; it stops at the first thrown error. */
  function Dispatch(assetMap: Option<AssetMap>, cs: seq<Element>, parseFloat: FloatParser, s: State): (t: State)
    decreases |cs|
  {
    if |cs| == 0 then s
    else
      var t := Dispatch(assetMap, cs[..|cs| - 1], parseFloat, s);
      if t.outcome.Normal? then DispatchChild(assetMap, cs[|cs| - 1], parseFloat, t) else t
  }

  /** The `Images` object: every asset whose filename does not end in `.dae`. */
  function ImagesOf(assetMap: AssetMap): (images: Props) {
    map k | k in assetMap && !EndsWith(k, ".dae") :: Asset(assetMap[k])
  }

  /** What `parseModel` does to the caller's object. */
  function ParseModelOf(el: Element, parseFloat: FloatParser, props: Props): (r: Effect) {
    match LastIndex(el.children, "Model")
    case None => Effect(Normal, props)
    case Some(i) =>
      var s := Dispatch(el.assetMap, el.children[i].children, parseFloat, State(Normal, props, map[]));
      if !s.outcome.Normal? then Effect(s.outcome, s.obj)
      else if el.assetMap.None? then Effect(TypeError(AssetMapUndefined), s.obj)
      else
        var record := s.model["Images" := Dict(ImagesOf(el.assetMap.value))];
        Effect(Normal, s.obj["Model" := Dict(record)])
  }

  // ---------------------------------------------------------------------
  // The parser's operations
  // ---------------------------------------------------------------------

  /**
   * Scans the placemark's children from the last to the first; at the first
   * `Model` met, builds its record, stores it under `Model` and stops.
   */
  method ParseModel(el: Element, obj: JsObject, parseFloat: FloatParser) returns (outcome: Outcome)
    modifies obj
    ensures Effect(outcome, obj.props) == ParseModelOf(el, parseFloat, old(obj.props))
  {
    outcome := Normal;
    var i := |el.children| - 1;
    while i >= 0
      invariant -1 <= i < |el.children|
      invariant forall k :: i < k < |el.children| ==> el.children[k].localName != "Model"
      invariant obj.props == old(obj.props)
    {
      if el.children[i].localName == "Model" {
        assert LastIndex(el.children, "Model") == Some(i) by {
          LastIndexUnique(el.children, "Model", i);
        }
        var modelElement := el.children[i];
        var modelObject := new JsObject();
        var j := 0;
        while j < |modelElement.children|
          invariant 0 <= j <= |modelElement.children|
          invariant outcome == Normal
          invariant Dispatch(el.assetMap, modelElement.children[..j], parseFloat, State(Normal, old(obj.props), map[]))
                    == State(Normal, obj.props, modelObject.props)
        {
          var child := modelElement.children[j];
          outcome := ParseModelChild(el, child, obj, modelObject, parseFloat);
          DispatchExtend(el.assetMap, modelElement.children, j, parseFloat, State(Normal, old(obj.props), map[]));
          if !outcome.Normal? {
            DispatchStaysFailed(el.assetMap, modelElement.children, j + 1, parseFloat, State(Normal, old(obj.props), map[]));
            return;
          }
          j := j + 1;
        }
        assert modelElement.children[..j] == modelElement.children;
        if el.assetMap.None? {
          outcome := TypeError(AssetMapUndefined);
          return;
        }
        var imagesObject := CollectImages(el.assetMap.value);
        assert imagesObject == ImagesOf(el.assetMap.value);
        modelObject.props := modelObject.props["Images" := Dict(imagesObject)];
        obj.props := obj.props["Model" := Dict(modelObject.props)];
        break;
      }
      i := i - 1;
    }
  }

  /**
   * The body of `parseModel`'s loop over the model's children: dispatch on the
   * child's tag to the extractor that writes the caller's object (`Location`)
   * or the model record (the others); any other tag is ignored.
   */
  method ParseModelChild(el: Element, child: Element, obj: JsObject, modelObject: JsObject, parseFloat: FloatParser)
    returns (outcome: Outcome)
    requires obj != modelObject
    modifies obj, modelObject
    ensures State(outcome, obj.props, modelObject.props) ==
      DispatchChild(el.assetMap, child, parseFloat, State(Normal, old(obj.props), old(modelObject.props)))
  {
    outcome := Normal;
    if child.localName == "Location" {
      ParseLocation(child, obj, parseFloat);
    } else if child.localName == "Orientation" {
      ParseOrientation(child, modelObject, parseFloat);
    } else if child.localName == "Scale" {
      ParseScale(child, modelObject, parseFloat);
    } else if child.localName == "altitudeMode" {
      ParseAltMode(child, modelObject);
    } else if child.localName == "Link" {
      outcome := ParseLink(el, child, modelObject);
    }
  }

  /**
   * The `Images` loop of `parseModel`: copies every asset whose filename does
   * not end in `.dae`, visiting the keys in an unspecified order.
   */
  method CollectImages(assetMap: AssetMap) returns (imagesObject: Props)
    ensures forall k :: k in imagesObject <==> k in assetMap && !EndsWith(k, ".dae")
    ensures forall k :: k in imagesObject ==> imagesObject[k] == Asset(assetMap[k])
  {
    var keys := assetMap.Keys;
    imagesObject := map[];
    while keys != {}
      invariant keys <= assetMap.Keys
      invariant forall k :: k in imagesObject <==> k in assetMap && k !in keys && !EndsWith(k, ".dae")
      invariant forall k :: k in imagesObject ==> imagesObject[k] == Asset(assetMap[k])
      decreases keys
    {
      var key :| key in keys;
      if !EndsWith(key, ".dae") {
        imagesObject := imagesObject[key := Asset(assetMap[key])];
      }
      keys := keys - {key};
    }
  }

  /** Reads `altitudeMode` from the element's text; the property is always written. */
  method ParseAltMode(el: Element, obj: JsObject)
    modifies obj
    ensures obj.props == old(obj.props)["altitudeMode" := Mode(AltitudeModeOf(el.textContent))]
  {
    var altModeText := el.textContent;
    var altMode := ClampToGround;
    if altModeText == "relativeToGround" {
      altMode := RelativeToGround;
    }
    obj.props := obj.props["altitudeMode" := Mode(altMode)];
  }

  /**
   * Looks the text of the link's first child up in the placemark's asset map
   * and stores what it finds (possibly undefined) under `collada`.
   */
  method ParseLink(placemark: Element, el: Element, obj: JsObject) returns (outcome: Outcome)
    modifies obj
    ensures Effect(outcome, obj.props) == LinkOf(placemark.assetMap, el, old(obj.props))
  {
    if |el.children| == 0 {
      return TypeError(LinkWithoutChild);
    }
    var colladaFileName := el.children[0].textContent;
    if placemark.assetMap.None? {
      return TypeError(AssetMapUndefined);
    }
    var colladaData := ColladaOf(placemark.assetMap.value, colladaFileName);
    obj.props := obj.props["collada" := colladaData];
    outcome := Normal;
  }

  /** Reads longitude, latitude and altitude and stores the point under `geometry`. */
  method ParseLocation(el: Element, obj: JsObject, parseFloat: FloatParser)
    modifies obj
    ensures obj.props == old(obj.props)["geometry" := LocationPoint(el.children, parseFloat)]
  {
    var lat: Option<Number> := None;
    var lon: Option<Number> := None;
    var alt: Option<Number> := None;
    for i := 0 to |el.children|
      invariant lon == LastParsed(el.children[..i], "longitude", parseFloat)
      invariant lat == LastParsed(el.children[..i], "latitude", parseFloat)
      invariant alt == LastParsed(el.children[..i], "altitude", parseFloat)
      invariant obj.props == old(obj.props)
    {
      LastIndexExtend(el.children, "longitude", i);
      LastIndexExtend(el.children, "latitude", i);
      LastIndexExtend(el.children, "altitude", i);
      if el.children[i].localName == "longitude" {
        lon := Some(parseFloat(el.children[i].textContent));
      } else if el.children[i].localName == "latitude" {
        lat := Some(parseFloat(el.children[i].textContent));
      } else if el.children[i].localName == "altitude" {
        alt := Some(parseFloat(el.children[i].textContent));
      }
    }
    assert el.children[..|el.children|] == el.children;
    obj.props := obj.props["geometry" := Point([lon, lat, alt])];
  }

  /** Sets `heading`, `tilt` and `roll` from the matching children; the last duplicate wins. */
  method ParseOrientation(el: Element, obj: JsObject, parseFloat: FloatParser)
    modifies obj
    ensures obj.props == AssignFields(el.children, OrientationFields, parseFloat, old(obj.props))
  {
    for i := 0 to |el.children|
      invariant obj.props == AssignFields(el.children[..i], OrientationFields, parseFloat, old(obj.props))
    {
      assert el.children[..i + 1][..i] == el.children[..i];
      if el.children[i].localName == "heading" {
        obj.props := obj.props["heading" := Num(parseFloat(el.children[i].textContent))];
      } else if el.children[i].localName == "tilt" {
        obj.props := obj.props["tilt" := Num(parseFloat(el.children[i].textContent))];
      } else if el.children[i].localName == "roll" {
        obj.props := obj.props["roll" := Num(parseFloat(el.children[i].textContent))];
      }
    }
    assert el.children[..|el.children|] == el.children;
  }

  /** Sets `scaleX`, `scaleY` and `scaleZ` from the children `x`, `y` and `z`; the last duplicate wins. */
  method ParseScale(el: Element, obj: JsObject, parseFloat: FloatParser)
    modifies obj
    ensures obj.props == AssignFields(el.children, ScaleFields, parseFloat, old(obj.props))
  {
    for i := 0 to |el.children|
      invariant obj.props == AssignFields(el.children[..i], ScaleFields, parseFloat, old(obj.props))
    {
      assert el.children[..i + 1][..i] == el.children[..i];
      if el.children[i].localName == "x" {
        obj.props := obj.props["scaleX" := Num(parseFloat(el.children[i].textContent))];
      } else if el.children[i].localName == "y" {
        obj.props := obj.props["scaleY" := Num(parseFloat(el.children[i].textContent))];
      } else if el.children[i].localName == "z" {
        obj.props := obj.props["scaleZ" := Num(parseFloat(el.children[i].textContent))];
      }
    }
    assert el.children[..|el.children|] == el.children;
  }

  // ---------------------------------------------------------------------
  // Lemmas
  // ---------------------------------------------------------------------

  /** One step of the walk: the next child is dispatched unless an earlier one threw. */
  lemma DispatchExtend(assetMap: Option<AssetMap>, cs: seq<Element>, j: nat, parseFloat: FloatParser, s: State)
    requires j < |cs|
    ensures Dispatch(assetMap, cs[..j + 1], parseFloat, s) ==
      var t := Dispatch(assetMap, cs[..j], parseFloat, s);
      if t.outcome.Normal? then DispatchChild(assetMap, cs[j], parseFloat, t) else t
  {
    assert cs[..j + 1][..j] == cs[..j];
  }

  /** Once the walk has thrown, the children after the throw change nothing. */
  lemma {:induction false} DispatchStaysFailed(assetMap: Option<AssetMap>, cs: seq<Element>, n: nat,
                                               parseFloat: FloatParser, s: State)
    requires n <= |cs|
    requires !Dispatch(assetMap, cs[..n], parseFloat, s).outcome.Normal?
    ensures Dispatch(assetMap, cs, parseFloat, s) == Dispatch(assetMap, cs[..n], parseFloat, s)
    decreases |cs|
  {
    if n < |cs| {
      assert cs[..|cs| - 1][..n] == cs[..n];
      DispatchStaysFailed(assetMap, cs[..|cs| - 1], n, parseFloat, s);
    } else {
      assert cs[..n] == cs;
    }
  }

  // --- the extractors ---

  /**
   * `v` is what a forward scan that overwrites on every child named `name`
   * leaves: undefined exactly when no child has that name, and otherwise the
   * parse of the text of the last child that does.
   */
  ghost predicate FromLastChild(v: Option<Number>, cs: seq<Element>, name: string, parseFloat: FloatParser) {
    && (v.None? <==> forall j :: 0 <= j < |cs| ==> cs[j].localName != name)
    && (forall i :: 0 <= i < |cs| && cs[i].localName == name && IsLastNamed(cs, name, i) ==>
          v == Some(parseFloat(cs[i].textContent)))
  }

  lemma LastParsedFromLastChild(cs: seq<Element>, name: string, parseFloat: FloatParser)
    ensures FromLastChild(LastParsed(cs, name, parseFloat), cs, name, parseFloat)
  {
    LastIndexSpec(cs, name);
    forall i | 0 <= i < |cs| && cs[i].localName == name && IsLastNamed(cs, name, i)
      ensures LastIndex(cs, name) == Some(i)
    {
      LastIndexUnique(cs, name, i);
    }
  }

  /**
   * The point `parseLocation` stores has the coordinates longitude, latitude
   * and altitude in that order, each from the last child of that name and
   * undefined (not zero) when there is none.
   */
  lemma LocationCoordinates(cs: seq<Element>, parseFloat: FloatParser)
    ensures LocationPoint(cs, parseFloat).Point?
    ensures var c := LocationPoint(cs, parseFloat).coordinates;
      && |c| == 3
      && FromLastChild(c[0], cs, "longitude", parseFloat)
      && FromLastChild(c[1], cs, "latitude", parseFloat)
      && FromLastChild(c[2], cs, "altitude", parseFloat)
  {
    LastParsedFromLastChild(cs, "longitude", parseFloat);
    LastParsedFromLastChild(cs, "latitude", parseFloat);
    LastParsedFromLastChild(cs, "altitude", parseFloat);
  }

  /**
   * `parseLink` throws unless the link has a child and the placemark has an
   * asset map; otherwise it always writes `collada` (undefined for a dangling
   * name) and nothing else.
   */
  lemma LinkOfSpec(assetMap: Option<AssetMap>, link: Element, props: Props)
    ensures var r := LinkOf(assetMap, link, props);
      && (r.outcome.Normal? <==> |link.children| > 0 && assetMap.Some?)
      && (r.outcome == TypeError(LinkWithoutChild) <==> |link.children| == 0)
      && (r.outcome.Normal? ==>
        var name := link.children[0].textContent;
        && "collada" in r.obj
        && (name in assetMap.value ==> r.obj["collada"] == Asset(assetMap.value[name]))
        && (name !in assetMap.value ==> r.obj["collada"] == Undefined))
      && (forall k :: k != "collada" ==> Agrees(r.obj, props, k))
      && (!r.outcome.Normal? ==> r.obj == props)
  {
  }

  /** No two tags of `fields` write the same property. */
  ghost predicate Injective(fields: map<string, string>) {
    forall t, u :: t in fields && u in fields && t != u ==> fields[t] != fields[u]
  }

  /**
   * The shared loop of `parseOrientation` and `parseScale` writes only the
   * properties `fields` names, and each of those ends up as the parse of the
   * last child with its tag, or as it was when there is no such child.
   */
  lemma {:induction false} AssignFieldsLastWins(cs: seq<Element>, fields: map<string, string>, parseFloat: FloatParser, props: Props)
    requires Injective(fields)
    ensures var r := AssignFields(cs, fields, parseFloat, props);
      && (forall k :: k !in fields.Values ==> Agrees(r, props, k))
      && (forall t :: t in fields ==> Agrees(r, SetIfFound(props, fields[t], LastParsed(cs, t, parseFloat)), fields[t]))
    decreases |cs|
  {
    if |cs| > 0 {
      var n := |cs| - 1;
      AssignFieldsLastWins(cs[..n], fields, parseFloat, props);
      forall t | t in fields
        ensures LastParsed(cs, t, parseFloat) ==
          if cs[n].localName == t then Some(parseFloat(cs[n].textContent)) else LastParsed(cs[..n], t, parseFloat)
      {
        LastIndexExtend(cs, t, n);
        assert cs[..n + 1] == cs;
      }
    }
  }

  /**
   * `parseOrientation` writes `heading`, `tilt` and `roll` only; each is the
   * parse of the last child of that name, and is left alone when there is none.
   */
  lemma OrientationLastWins(cs: seq<Element>, parseFloat: FloatParser, props: Props)
    ensures var r := AssignFields(cs, OrientationFields, parseFloat, props);
      && (forall k :: k != "heading" && k != "tilt" && k != "roll" ==> Agrees(r, props, k))
      && Agrees(r, SetIfFound(props, "heading", LastParsed(cs, "heading", parseFloat)), "heading")
      && Agrees(r, SetIfFound(props, "tilt", LastParsed(cs, "tilt", parseFloat)), "tilt")
      && Agrees(r, SetIfFound(props, "roll", LastParsed(cs, "roll", parseFloat)), "roll")
  {
    assert forall v :: v in OrientationFields.Values ==> v == "heading" || v == "tilt" || v == "roll";
    AssignFieldsLastWins(cs, OrientationFields, parseFloat, props);
    assert "heading" in OrientationFields && "tilt" in OrientationFields && "roll" in OrientationFields;
  }

  /**
   * `parseScale` writes `scaleX`, `scaleY` and `scaleZ` only, from the last
   * child named `x`, `y` and `z` respectively, and leaves each alone when there
   * is no such child.
   */
  lemma ScaleLastWins(cs: seq<Element>, parseFloat: FloatParser, props: Props)
    ensures var r := AssignFields(cs, ScaleFields, parseFloat, props);
      && (forall k :: k != "scaleX" && k != "scaleY" && k != "scaleZ" ==> Agrees(r, props, k))
      && Agrees(r, SetIfFound(props, "scaleX", LastParsed(cs, "x", parseFloat)), "scaleX")
      && Agrees(r, SetIfFound(props, "scaleY", LastParsed(cs, "y", parseFloat)), "scaleY")
      && Agrees(r, SetIfFound(props, "scaleZ", LastParsed(cs, "z", parseFloat)), "scaleZ")
  {
    assert forall v :: v in ScaleFields.Values ==> v == "scaleX" || v == "scaleY" || v == "scaleZ";
    AssignFieldsLastWins(cs, ScaleFields, parseFloat, props);
    assert "x" in ScaleFields && "y" in ScaleFields && "z" in ScaleFields;
  }

  /**
   * Only the exact text `relativeToGround` selects `RELATIVE_TO_GROUND`; KML's
   * `absolute` is folded into `CLAMP_TO_GROUND` together with `clampToGround`.
   */
  lemma AltitudeModeCollapse(text: string)
    ensures AltitudeModeOf(text) == RelativeToGround <==> text == "relativeToGround"
    ensures AltitudeModeOf("absolute") == AltitudeModeOf("clampToGround") == ClampToGround
  {
  }

  // --- the walk over the model's children ---

  /** The walk changes the caller's object at `geometry` only. */
  lemma {:induction false} DispatchFrame(assetMap: Option<AssetMap>, cs: seq<Element>, parseFloat: FloatParser, s: State)
    ensures forall k :: k != "geometry" ==> Agrees(Dispatch(assetMap, cs, parseFloat, s).obj, s.obj, k)
    decreases |cs|
  {
    if |cs| > 0 {
      var n := |cs| - 1;
      DispatchFrame(assetMap, cs[..n], parseFloat, s);
      var t := Dispatch(assetMap, cs[..n], parseFloat, s);
      var u := Dispatch(assetMap, cs, parseFloat, s);
      assert u.obj == t.obj || u.obj == t.obj["geometry" := LocationPoint(cs[n].children, parseFloat)];
      forall k | k != "geometry" ensures Agrees(u.obj, s.obj, k) {
        assert Agrees(t.obj, s.obj, k);
      }
    }
  }

  /**
   * The walk completes normally exactly when every `Link` child has a child
   * and, if there is a `Link` at all, the asset map is defined.
   */
  lemma {:induction false} DispatchOutcome(assetMap: Option<AssetMap>, cs: seq<Element>, parseFloat: FloatParser, s: State)
    requires s.outcome.Normal?
    ensures Dispatch(assetMap, cs, parseFloat, s).outcome.Normal? <==>
      forall j :: 0 <= j < |cs| && cs[j].localName == "Link" ==> |cs[j].children| > 0 && assetMap.Some?
    decreases |cs|
  {
    if |cs| > 0 {
      var n := |cs| - 1;
      DispatchOutcome(assetMap, cs[..n], parseFloat, s);
      assert forall j :: 0 <= j < n ==> cs[..n][j] == cs[j];
    }
  }

  /**
   * After a walk that completed normally, `geometry` holds the point of the
   * last `Location` child; with no `Location` child it is as it was, whatever
   * the outcome.
   */
  lemma {:induction false} DispatchGeometry(assetMap: Option<AssetMap>, cs: seq<Element>, parseFloat: FloatParser, s: State)
    ensures var t := Dispatch(assetMap, cs, parseFloat, s);
      match LastIndex(cs, "Location")
      case None => Agrees(t.obj, s.obj, "geometry")
      case Some(i) => t.outcome.Normal? ==>
        "geometry" in t.obj && t.obj["geometry"] == LocationPoint(cs[i].children, parseFloat)
    decreases |cs|
  {
    if |cs| > 0 {
      var n := |cs| - 1;
      DispatchGeometry(assetMap, cs[..n], parseFloat, s);
      var t := Dispatch(assetMap, cs[..n], parseFloat, s);
      if !t.outcome.Normal? {
        assert Dispatch(assetMap, cs, parseFloat, s) == t;
      }
      if LastIndex(cs, "Location").Some? && cs[n].localName != "Location" {
        assert cs[..n][LastIndex(cs, "Location").value] == cs[LastIndex(cs, "Location").value];
      }
    }
  }

  /** The properties the walk may add to the model record. */
  const RecordFields: set<string> :=
    {"heading", "tilt", "roll", "scaleX", "scaleY", "scaleZ", "altitudeMode", "collada"}

  /** `AssignFields` leaves alone every property that `fields` does not name. */
  lemma {:induction false} AssignFieldsFrame(cs: seq<Element>, fields: map<string, string>, parseFloat: FloatParser,
                                             props: Props, k: string)
    requires k !in fields.Values
    ensures Agrees(AssignFields(cs, fields, parseFloat, props), props, k)
    decreases |cs|
  {
    if |cs| > 0 {
      AssignFieldsFrame(cs[..|cs| - 1], fields, parseFloat, props, k);
    }
  }

  /**
   * One child's effect on the model record: it adds nothing outside
   * `RecordFields`; `altitudeMode` changes only for an `altitudeMode` child
   * and `collada` only for a `Link` child.
   */
  lemma DispatchChildRecord(assetMap: Option<AssetMap>, c: Element, parseFloat: FloatParser, t: State)
    requires t.outcome.Normal?
    ensures var u := DispatchChild(assetMap, c, parseFloat, t);
      && (forall k :: k in u.model ==> k in t.model || k in RecordFields)
      && (c.localName != "altitudeMode" ==> Agrees(u.model, t.model, "altitudeMode"))
      && (c.localName == "altitudeMode" ==>
            "altitudeMode" in u.model && u.model["altitudeMode"] == Mode(AltitudeModeOf(c.textContent)))
      && (c.localName != "Link" ==> Agrees(u.model, t.model, "collada"))
      && (c.localName == "Link" && u.outcome.Normal? ==>
            && assetMap.Some? && |c.children| > 0
            && "collada" in u.model && u.model["collada"] == ColladaOf(assetMap.value, c.children[0].textContent))
  {
    var u := DispatchChild(assetMap, c, parseFloat, t);
    if c.localName == "Orientation" || c.localName == "Scale" {
      var fields := if c.localName == "Orientation" then OrientationFields else ScaleFields;
      assert u.model == AssignFields(c.children, fields, parseFloat, t.model);
      assert forall v :: v in fields.Values ==> v in RecordFields - {"altitudeMode", "collada"};
      forall k | k in u.model ensures k in t.model || k in RecordFields {
        if k !in RecordFields {
          AssignFieldsFrame(c.children, fields, parseFloat, t.model, k);
        }
      }
      AssignFieldsFrame(c.children, fields, parseFloat, t.model, "altitudeMode");
      AssignFieldsFrame(c.children, fields, parseFloat, t.model, "collada");
    }
  }

  /** After a walk that completed normally, `altitudeMode` comes from the last `altitudeMode` child. */
  lemma {:induction false} DispatchAltitudeMode(assetMap: Option<AssetMap>, cs: seq<Element>, parseFloat: FloatParser, s: State)
    ensures var t := Dispatch(assetMap, cs, parseFloat, s);
      match LastIndex(cs, "altitudeMode")
      case None => Agrees(t.model, s.model, "altitudeMode")
      case Some(i) => t.outcome.Normal? ==>
        "altitudeMode" in t.model && t.model["altitudeMode"] == Mode(AltitudeModeOf(cs[i].textContent))
    decreases |cs|
  {
    if |cs| > 0 {
      var n := |cs| - 1;
      DispatchAltitudeMode(assetMap, cs[..n], parseFloat, s);
      var t := Dispatch(assetMap, cs[..n], parseFloat, s);
      if t.outcome.Normal? {
        DispatchChildRecord(assetMap, cs[n], parseFloat, t);
      }
      if LastIndex(cs, "altitudeMode").Some? && cs[n].localName != "altitudeMode" {
        assert cs[..n][LastIndex(cs, "altitudeMode").value] == cs[LastIndex(cs, "altitudeMode").value];
      }
    }
  }

  /**
   * After a walk that completed normally, `collada` is the asset named by the
   * last `Link` child's first child (undefined when the name is missing).
   */
  lemma {:induction false} DispatchCollada(assetMap: Option<AssetMap>, cs: seq<Element>, parseFloat: FloatParser, s: State)
    ensures var t := Dispatch(assetMap, cs, parseFloat, s);
      match LastIndex(cs, "Link")
      case None => Agrees(t.model, s.model, "collada")
      case Some(i) => t.outcome.Normal? ==>
        && assetMap.Some? && |cs[i].children| > 0
        && "collada" in t.model && t.model["collada"] == ColladaOf(assetMap.value, cs[i].children[0].textContent)
    decreases |cs|
  {
    if |cs| > 0 {
      var n := |cs| - 1;
      DispatchCollada(assetMap, cs[..n], parseFloat, s);
      var t := Dispatch(assetMap, cs[..n], parseFloat, s);
      if t.outcome.Normal? {
        DispatchChildRecord(assetMap, cs[n], parseFloat, t);
      }
      if LastIndex(cs, "Link").Some? && cs[n].localName != "Link" {
        assert cs[..n][LastIndex(cs, "Link").value] == cs[LastIndex(cs, "Link").value];
      }
    }
  }

  /** The walk adds to the model record no property outside `RecordFields`. */
  lemma {:induction false} DispatchRecordKeys(assetMap: Option<AssetMap>, cs: seq<Element>, parseFloat: FloatParser, s: State)
    ensures forall k :: k in Dispatch(assetMap, cs, parseFloat, s).model ==> k in s.model || k in RecordFields
    decreases |cs|
  {
    if |cs| > 0 {
      var n := |cs| - 1;
      DispatchRecordKeys(assetMap, cs[..n], parseFloat, s);
      var t := Dispatch(assetMap, cs[..n], parseFloat, s);
      if t.outcome.Normal? {
        DispatchChildRecord(assetMap, cs[n], parseFloat, t);
      }
    }
  }

  /** The two element kinds whose children are read through a tag-to-property table. */
  predicate FieldTable(tag: string, fields: map<string, string>) {
    (tag == "Orientation" && fields == OrientationFields) || (tag == "Scale" && fields == ScaleFields)
  }

  /**
   * One child's effect on a property of an `Orientation` or `Scale` table:
   * a child of another kind leaves it alone, and a child of that kind sets it
   * from its own last child of the matching tag, if there is one.
   */
  lemma DispatchChildField(assetMap: Option<AssetMap>, c: Element, parseFloat: FloatParser, t: State,
                           tag: string, fields: map<string, string>, name: string)
    requires t.outcome.Normal? && FieldTable(tag, fields) && name in fields
    ensures var u := DispatchChild(assetMap, c, parseFloat, t);
      && (c.localName != tag ==> Agrees(u.model, t.model, fields[name]))
      && (c.localName == tag ==>
            Agrees(u.model, SetIfFound(t.model, fields[name], LastParsed(c.children, name, parseFloat)), fields[name]))
  {
    var key := fields[name];
    var u := DispatchChild(assetMap, c, parseFloat, t);
    if c.localName == tag {
      assert u.model == AssignFields(c.children, fields, parseFloat, t.model);
      FieldTablesInjective(tag, fields);
      AssignFieldsLastWins(c.children, fields, parseFloat, t.model);
    } else if c.localName == "Orientation" {
      assert key !in OrientationFields.Values;
      AssignFieldsFrame(c.children, OrientationFields, parseFloat, t.model, key);
    } else if c.localName == "Scale" {
      assert key !in ScaleFields.Values;
      AssignFieldsFrame(c.children, ScaleFields, parseFloat, t.model, key);
    } else {
      assert key != "altitudeMode" && key != "collada";
    }
  }

  /** Both tables map distinct tags to distinct properties. */
  lemma FieldTablesInjective(tag: string, fields: map<string, string>)
    requires FieldTable(tag, fields)
    ensures Injective(fields)
  {
  }

  /**
   * After a walk that completed normally, each `heading`/`tilt`/`roll` and
   * `scaleX`/`scaleY`/`scaleZ` property comes from the last `Orientation`
   * (or `Scale`) child when that child has a matching child, and is left
   * alone when the model has no such element.
   */
  lemma {:induction false} DispatchFields(assetMap: Option<AssetMap>, cs: seq<Element>, parseFloat: FloatParser, s: State,
                                          tag: string, fields: map<string, string>, name: string)
    requires FieldTable(tag, fields) && name in fields
    ensures var t := Dispatch(assetMap, cs, parseFloat, s);
      match LastIndex(cs, tag)
      case None => Agrees(t.model, s.model, fields[name])
      case Some(i) => t.outcome.Normal? && LastParsed(cs[i].children, name, parseFloat).Some? ==>
        && fields[name] in t.model
        && t.model[fields[name]] == Num(LastParsed(cs[i].children, name, parseFloat).value)
    decreases |cs|
  {
    if |cs| > 0 {
      var n := |cs| - 1;
      DispatchFields(assetMap, cs[..n], parseFloat, s, tag, fields, name);
      LastIndexExtend(cs, tag, n);
      assert cs[..n + 1] == cs;
      var t := Dispatch(assetMap, cs[..n], parseFloat, s);
      if t.outcome.Normal? {
        DispatchChildField(assetMap, cs[n], parseFloat, t, tag, fields, name);
      }
      if LastIndex(cs, tag).Some? && cs[n].localName != tag {
        assert cs[..n][LastIndex(cs, tag).value] == cs[LastIndex(cs, tag).value];
      }
    }
  }

  // --- parseModel ---

  /** Without a `Model` child the caller's object is left exactly as it was. */
  lemma NoModelLeavesObjectUnchanged(el: Element, parseFloat: FloatParser, props: Props)
    requires forall i :: 0 <= i < |el.children| ==> el.children[i].localName != "Model"
    ensures ParseModelOf(el, parseFloat, props) == Effect(Normal, props)
  {
  }

  /**
   * Only the last `Model` child counts: whatever stands at an index before
   * a later `Model` can be replaced by anything without changing the effect.
   */
  lemma EarlierModelIgnored(el: Element, parseFloat: FloatParser, props: Props, i: nat, j: nat, e: Element)
    requires i < j < |el.children| && el.children[j].localName == "Model"
    ensures ParseModelOf(el.(children := el.children[i := e]), parseFloat, props) == ParseModelOf(el, parseFloat, props)
  {
    LastIndexIgnoresEarlier(el.children, "Model", i, j, e);
    LastIndexSpec(el.children, "Model");
    var r := LastIndex(el.children, "Model").value;
    assert i < r;
    assert el.children[i := e][r] == el.children[r];
  }

  /** `parseModel` changes the caller's object at `Model` and `geometry` only. */
  lemma ParseModelFrame(el: Element, parseFloat: FloatParser, props: Props)
    ensures forall k :: k != "Model" && k != "geometry" ==> Agrees(ParseModelOf(el, parseFloat, props).obj, props, k)
  {
    var m := LastIndex(el.children, "Model");
    if m.Some? {
      var s0 := State(Normal, props, map[]);
      DispatchFrame(el.assetMap, el.children[m.value].children, parseFloat, s0);
      var t := Dispatch(el.assetMap, el.children[m.value].children, parseFloat, s0);
      var r := ParseModelOf(el, parseFloat, props);
      assert r.obj == t.obj || r.obj == t.obj["Model" := r.obj["Model"]];
      forall k | k != "Model" && k != "geometry" ensures Agrees(r.obj, props, k) {
        assert Agrees(t.obj, props, k);
      }
    }
  }

  /**
   * Once a `Model` is found, `parseModel` returns normally exactly when the
   * placemark has an asset map and every `Link` of the model has a child;
   * otherwise it throws.
   */
  lemma ParseModelOutcome(el: Element, parseFloat: FloatParser, props: Props, i: nat)
    requires LastIndex(el.children, "Model") == Some(i)
    ensures var cs := el.children[i].children;
      ParseModelOf(el, parseFloat, props).outcome.Normal? <==>
        el.assetMap.Some? && forall j :: 0 <= j < |cs| && cs[j].localName == "Link" ==> |cs[j].children| > 0
  {
    DispatchOutcome(el.assetMap, el.children[i].children, parseFloat, State(Normal, props, map[]));
  }

  /**
   * `geometry` is written only when the model has a `Location` child, and
   * after a normal return holds the point of the last one.
   */
  lemma ParseModelGeometry(el: Element, parseFloat: FloatParser, props: Props, i: nat)
    requires LastIndex(el.children, "Model") == Some(i)
    ensures var r := ParseModelOf(el, parseFloat, props);
      var cs := el.children[i].children;
      match LastIndex(cs, "Location")
      case None => Agrees(r.obj, props, "geometry")
      case Some(l) => r.outcome.Normal? ==>
        "geometry" in r.obj && r.obj["geometry"] == LocationPoint(cs[l].children, parseFloat)
  {
    var s := Dispatch(el.assetMap, el.children[i].children, parseFloat, State(Normal, props, map[]));
    DispatchGeometry(el.assetMap, el.children[i].children, parseFloat, State(Normal, props, map[]));
  }

  /**
   * After a normal return with a `Model`, the caller's object holds the model
   * record under `Model`: its `Images` are the non-`.dae` assets, its
   * `altitudeMode` and `collada` come from the last child of that kind (and
   * are absent without one), and it has no other properties than these and
   * the orientation and scale fields.
   */
  lemma ParseModelRecord(el: Element, parseFloat: FloatParser, props: Props, i: nat)
    requires LastIndex(el.children, "Model") == Some(i)
    requires ParseModelOf(el, parseFloat, props).outcome.Normal?
    ensures var r := ParseModelOf(el, parseFloat, props);
      && el.assetMap.Some?
      && "Model" in r.obj && r.obj["Model"].Dict?
      && var record := r.obj["Model"].entries;
      var cs := el.children[i].children;
      && "Images" in record && record["Images"] == Dict(ImagesOf(el.assetMap.value))
      && (forall k :: k in record ==> k == "Images" || k in RecordFields)
      && (match LastIndex(cs, "altitudeMode")
          case None => "altitudeMode" !in record
          case Some(a) => "altitudeMode" in record && record["altitudeMode"] == Mode(AltitudeModeOf(cs[a].textContent)))
      && (match LastIndex(cs, "Link")
          case None => "collada" !in record
          case Some(l) =>
            && |cs[l].children| > 0 && "collada" in record
            && record["collada"] == ColladaOf(el.assetMap.value, cs[l].children[0].textContent))
  {
    var cs := el.children[i].children;
    var s0 := State(Normal, props, map[]);
    DispatchRecordKeys(el.assetMap, cs, parseFloat, s0);
    DispatchAltitudeMode(el.assetMap, cs, parseFloat, s0);
    DispatchCollada(el.assetMap, cs, parseFloat, s0);
  }

  /**
   * After a normal return, each orientation and scale property of the record
   * comes from the model's last `Orientation` (or `Scale`) child when that
   * child has a matching child, and is absent when the model has no such child.
   */
  lemma ParseModelFields(el: Element, parseFloat: FloatParser, props: Props, i: nat,
                         tag: string, fields: map<string, string>, name: string)
    requires LastIndex(el.children, "Model") == Some(i)
    requires ParseModelOf(el, parseFloat, props).outcome.Normal?
    requires FieldTable(tag, fields) && name in fields
    ensures var r := ParseModelOf(el, parseFloat, props);
      && "Model" in r.obj && r.obj["Model"].Dict?
      && var record := r.obj["Model"].entries;
      var cs := el.children[i].children;
      match LastIndex(cs, tag)
      case None => fields[name] !in record
      case Some(o) => LastParsed(cs[o].children, name, parseFloat).Some? ==>
        && fields[name] in record
        && record[fields[name]] == Num(LastParsed(cs[o].children, name, parseFloat).value)
  {
    DispatchFields(el.assetMap, el.children[i].children, parseFloat, State(Normal, props, map[]), tag, fields, name);
    assert fields[name] != "Images";
  }
}
