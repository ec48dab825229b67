// Change detection for one record: internal/domain/product/transition.go and the field comparison of
// internal/domain/product/fingerprint.go.
module Transition {
  import opened Prelude

  // The fields a fingerprint covers, after brand and attribute keys have been folded.
  datatype Payload = Payload(
    canonicalName: string, description: string, brand: string, originCountry: string,
    attributes: map<string, string>)

  // A stored fingerprint either carries the current prefix, and then stands for exactly one payload
  // (the hash is taken to be injective), or was written by an older algorithm.
  datatype Fingerprint = V1(payload: Payload) | Legacy(text: string)

  // Display fields as stored, with the payload they canonicalize to. Nothing relates the two here, so
  // every result holds whatever the canonicalization does.
  datatype Content = Content(
    canonicalName: string, description: string, brand: string, originCountry: string,
    attributes: map<string, string>, canonical: Payload)

  datatype Version = Version(
    id: Id, productId: Id, number: nat, fingerprint: Fingerprint, content: Content,
    runId: Option<Id>, createdAt: Time)

  datatype Snapshot = Snapshot(
    productSourceId: Id, productId: Id, currentVersionId: Option<Id>, currentFingerprint: Fingerprint,
    lastSourceUpdatedAt: Option<Time>, lastReceivedAt: Time, storedVersion: Option<Version>)

  datatype Identity = Identity(sourceId: string, externalId: string)

  datatype Record = Record(
    rawId: Id, identity: Identity, content: Content, fingerprint: Fingerprint,
    sourceUpdatedAt: Option<Time>, receivedAt: Time, runId: Option<Id>)

  // Field names in their alphabetical order.
  datatype Field = Attributes | Brand | CanonicalName | Description | OriginCountry

  datatype Transition =
    | New
    | Changed(fields: seq<Field>)
    | Unchanged
    | Stale
    | VersionMismatch

  function FingerprintFromVersion(v: Version): Fingerprint {
    V1(v.content.canonical)
  }

  function Differs(f: Field, a: Payload, b: Payload): bool {
    match f
    case Attributes => a.attributes != b.attributes
    case Brand => a.brand != b.brand
    case CanonicalName => a.canonicalName != b.canonicalName
    case Description => a.description != b.description
    case OriginCountry => a.originCountry != b.originCountry
  }

  function Only(f: Field, a: Payload, b: Payload): seq<Field> {
    if Differs(f, a, b) then [f] else []
  }

  // The names of the differing fields, in alphabetical order.
  function FieldChanges(a: Payload, b: Payload): (r: seq<Field>)
    ensures forall f :: f in r <==> Differs(f, a, b)
    ensures |r| <= 5
  {
    Only(Attributes, a, b) + Only(Brand, a, b) + Only(CanonicalName, a, b) + Only(Description, a, b)
    + Only(OriginCountry, a, b)
  }

  // A change row lists no field exactly when the two contents have one fingerprint.
  lemma NoFieldChangesIffSameFingerprint(a: Payload, b: Payload)
    ensures FieldChanges(a, b) == [] <==> V1(a) == V1(b)
  {
    if FieldChanges(a, b) == [] {
      assert !Differs(Attributes, a, b) && !Differs(Brand, a, b) && !Differs(CanonicalName, a, b);
      assert !Differs(Description, a, b) && !Differs(OriginCountry, a, b);
    } else {
      assert FieldChanges(a, b)[0] in FieldChanges(a, b);
    }
  }

  // The attribute comparison: equal sizes, then every key looked up in the other map, stopping at the
  // first difference. Map iteration order is arbitrary.
  method AttributesDiffer(a: map<string, string>, b: map<string, string>) returns (changed: bool)
    ensures changed <==> a != b
  {
    changed := false;
    if |a| != |b| {
      return true;
    }
    var keys := a.Keys;
    while keys != {}
      invariant keys <= a.Keys
      invariant forall k :: k in a.Keys - keys ==> k in b && a[k] == b[k]
      decreases keys
    {
      var k :| k in keys;
      keys := keys - {k};
      if k !in b || a[k] != b[k] {
        return true;
      }
    }
    SameSizeSubsetIsEqual(a.Keys, b.Keys);
    assert a == b;
  }

  lemma SameSizeSubsetIsEqual<T>(a: set<T>, b: set<T>)
    requires a <= b && |a| == |b|
    ensures a == b
  {
    assert |b - a| == |b| - |a|;
  }

  method DetectFieldChanges(current: Version, next: Content) returns (diffs: seq<Field>)
    ensures diffs == FieldChanges(current.content.canonical, next.canonical)
  {
    var a, b := current.content.canonical, next.canonical;
    var attrs := AttributesDiffer(a.attributes, b.attributes);
    diffs := if attrs then [Attributes] else [];
    assert diffs == Only(Attributes, a, b);
    if a.brand != b.brand { diffs := diffs + [Brand]; }
    assert diffs == Only(Attributes, a, b) + Only(Brand, a, b);
    if a.canonicalName != b.canonicalName { diffs := diffs + [CanonicalName]; }
    assert diffs == Only(Attributes, a, b) + Only(Brand, a, b) + Only(CanonicalName, a, b);
    if a.description != b.description { diffs := diffs + [Description]; }
    assert diffs == Only(Attributes, a, b) + Only(Brand, a, b) + Only(CanonicalName, a, b) + Only(Description, a, b);
    if a.originCountry != b.originCountry { diffs := diffs + [OriginCountry]; }
  }

  // A record is out of order when the source says it is older, or, when the source does not say or
  // ties, when it was received earlier.
  predicate IsStale(cur: Snapshot, sourceUpdatedAt: Option<Time>, receivedAt: Time) {
    match (sourceUpdatedAt, cur.lastSourceUpdatedAt)
    case (Some(t), Some(last)) => t < last || (t == last && receivedAt < cur.lastReceivedAt)
    case _ => receivedAt < cur.lastReceivedAt
  }

  function DecideTransition(current: Option<Snapshot>, r: Record): Transition {
    if current.None? then New
    else
      var cur := current.value;
      if IsStale(cur, r.sourceUpdatedAt, r.receivedAt) then Stale
      else if cur.currentFingerprint.Legacy? && cur.storedVersion.Some?
              && FingerprintFromVersion(cur.storedVersion.value) == r.fingerprint then VersionMismatch
      else if cur.currentFingerprint == r.fingerprint then Unchanged
      else if cur.storedVersion.Some? then
        Changed(FieldChanges(cur.storedVersion.value.content.canonical, r.content.canonical))
      else Changed([])
  }
}
