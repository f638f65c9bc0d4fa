/**
 * The read-only XML tree the parser walks: every element exposes its local
 * (namespace-stripped) tag name, its text content and its element children,
 * and the placemark element may carry the asset map of its KMZ archive.
 */
module Dom {
  import opened Wrappers

  /** An archived file (COLLADA model, texture image, ...); its bytes are never inspected. */
  datatype Payload = Payload(bytes: seq<bv8>)

  /** Filename (with extension) to archived payload. */
  type AssetMap = map<string, Payload>

  /**
   * `localName` and `textContent` are taken as given; `assetMap` is `None`
   * when the element has no such property (undefined in the source).
   */
  datatype Element = Element(
    localName: string,
    textContent: string,
    children: seq<Element>,
    assetMap: Option<AssetMap>)

  /**
   * The index of the last element of `cs` whose local name is `name`: the
   * element a reverse scan meets first, and the one whose value survives a
   * forward scan that overwrites on every match.
   */
  function LastIndex(cs: seq<Element>, name: string): (r: Option<nat>)
    ensures r.Some? ==> r.value < |cs| && cs[r.value].localName == name
    decreases |cs|
  {
    if |cs| == 0 then None
    else if cs[|cs| - 1].localName == name then Some(|cs| - 1)
    else LastIndex(cs[..|cs| - 1], name)
  }

  /** No element after index `i` is named `name`. */
  ghost predicate IsLastNamed(cs: seq<Element>, name: string, i: nat) {
    forall j :: i < j < |cs| ==> cs[j].localName != name
  }

  /** `LastIndex` finds a match with no match after it, and finds none only when there is none. */
  lemma {:induction false} LastIndexSpec(cs: seq<Element>, name: string)
    ensures var r := LastIndex(cs, name);
      && (r.Some? ==> IsLastNamed(cs, name, r.value))
      && (r.None? <==> forall j :: 0 <= j < |cs| ==> cs[j].localName != name)
    decreases |cs|
  {
    if |cs| > 0 {
      var n := |cs| - 1;
      LastIndexSpec(cs[..n], name);
      assert forall j :: 0 <= j < n ==> cs[..n][j] == cs[j];
    }
  }

  /** Extending a prefix by one element: a scan step either finds a new last match or keeps the old one. */
  lemma LastIndexExtend(cs: seq<Element>, name: string, i: nat)
    requires i < |cs|
    ensures LastIndex(cs[..i + 1], name) ==
      if cs[i].localName == name then Some(i) else LastIndex(cs[..i], name)
  {
    assert cs[..i + 1][..i] == cs[..i];
  }

  /** A match at `i` is the last one exactly when nothing after it matches. */
  lemma LastIndexUnique(cs: seq<Element>, name: string, i: nat)
    requires i < |cs| && cs[i].localName == name
    ensures LastIndex(cs, name) == Some(i) <==> IsLastNamed(cs, name, i)
  {
    LastIndexSpec(cs, name);
    var r := LastIndex(cs, name);
    if IsLastNamed(cs, name, i) {
      assert r.Some?;
      if r.value < i {
        assert false;
      }
    }
  }

  /**
   * Replacing an element that lies before a later match changes nothing
   * about which index is the last match.
   */
  lemma {:induction false} LastIndexIgnoresEarlier(cs: seq<Element>, name: string, i: nat, j: nat, e: Element)
    requires i < j < |cs| && cs[j].localName == name
    ensures LastIndex(cs[i := e], name) == LastIndex(cs, name)
  {
    LastIndexSpec(cs, name);
    var r := LastIndex(cs, name);
    var cs' := cs[i := e];
    assert r.Some? && j <= r.value;
    LastIndexUnique(cs', name, r.value);
  }

  /** JavaScript's `String.prototype.endsWith`: a case-sensitive suffix test. */
  predicate EndsWith(s: string, suffix: string) {
    |suffix| <= |s| && s[|s| - |suffix|..] == suffix
  }

  /** `EndsWith` holds exactly when `s` is some string followed by `suffix`. */
  lemma EndsWithIsSuffix(s: string, suffix: string)
    ensures EndsWith(s, suffix) <==> exists prefix :: prefix + suffix == s
  {
    if EndsWith(s, suffix) {
      var prefix := s[..|s| - |suffix|];
      assert prefix + suffix == s;
    }
    if exists prefix :: prefix + suffix == s {
      var prefix :| prefix + suffix == s;
      assert s[|s| - |suffix|..] == suffix;
    }
  }
}
