/**
 The fingerprint that binds an action: the digest of the canonical text of its tool, arguments,
 identities and context.
 */
module ActionFingerprint {
  import opened CanonicalText
  import opened CanonicalTree

  /** SHA-256 taken as collision-free: a digest is told apart by its input. */
  datatype Digest = Sha256(preimage: Text)

  datatype FingerprintInput = FingerprintInput(
    toolName: Text,
    validatedArguments: Tree,
    sessionId: Text,
    userId: Text,
    vehicleId: Text,
    contextSnapshotId: Text,
    contextVersion: Numeral)

  function Ascii(s: string): Text {
    seq(|s|, i requires 0 <= i < |s| => if s[i] as int < 128 then s[i] as int else 0)
  }

  function FingerprintMembers(x: FingerprintInput): seq<Member> {
    [Entry(Ascii("toolName"), String(x.toolName)),
     Entry(Ascii("validatedArguments"), x.validatedArguments),
     Entry(Ascii("sessionId"), String(x.sessionId)),
     Entry(Ascii("userId"), String(x.userId)),
     Entry(Ascii("vehicleId"), String(x.vehicleId)),
     Entry(Ascii("contextSnapshotId"), String(x.contextSnapshotId)),
     Entry(Ascii("contextVersion"), Numeric(Decimal(x.contextVersion)))]
  }

  /** createActionFingerprint on arguments that can be serialized. */
  function Fingerprint(x: FingerprintInput): Digest {
    Sha256(Serialize(Object(FingerprintMembers(x))))
  }

  /** Equal except that arguments may differ in key order and the sign of zero. */
  predicate SameInput(x: FingerprintInput, y: FingerprintInput) {
    x == y.(validatedArguments := x.validatedArguments) && SameTree(x.validatedArguments, y.validatedArguments)
  }

  lemma FingerprintKeysDistinct(x: FingerprintInput)
    ensures DistinctKeys(FingerprintMembers(x))
  {
    assert Ascii("toolName")[0] == 116 && Ascii("vehicleId")[0] == 118 && Ascii("sessionId")[0] == 115;
  }

  /** Members with equal keys stand in the same place. */
  lemma SamePlace(a: seq<Member>, b: seq<Member>, i: nat)
    requires |a| == |b| && i < |a| && DistinctKeys(a) && DistinctKeys(b)
    requires forall k :: 0 <= k < |a| ==> a[k].key == b[k].key
    ensures FoundIn(a[i], b) <==> SameTree(a[i].value, b[i].value)
    ensures FoundFor(a, b[i]) <==> SameTree(a[i].value, b[i].value)
  {
    if FoundIn(a[i], b) {
      var j :| 0 <= j < |b| && SameMember(a[i], b[j]);
      assert a[j].key == a[i].key;
    }
    if FoundFor(a, b[i]) {
      var j :| 0 <= j < |a| && SameMember(a[j], b[i]);
      assert b[j].key == b[i].key;
    }
    if SameTree(a[i].value, b[i].value) {
      assert SameMember(a[i], b[i]);
    }
  }

  /** Values standing in the same place are the same trees. */
  predicate SameValues(a: seq<Member>, b: seq<Member>)
    requires |a| == |b|
  {
    forall i :: 0 <= i < |a| ==> SameTree(a[i].value, b[i].value)
  }

  lemma AlignedObjects(a: seq<Member>, b: seq<Member>)
    requires |a| == |b| && DistinctKeys(a) && DistinctKeys(b) && forall k :: 0 <= k < |a| ==> a[k].key == b[k].key
    ensures SameTree(Object(a), Object(b)) <==> SameValues(a, b)
  {
    forall i | 0 <= i < |a|
      ensures FoundIn(a[i], b) <==> SameTree(a[i].value, b[i].value)
      ensures FoundFor(a, b[i]) <==> SameTree(a[i].value, b[i].value)
    {
      SamePlace(a, b, i);
    }
  }

  lemma SameInputValues(x: FingerprintInput, y: FingerprintInput)
    ensures SameInput(x, y) <==> SameValues(FingerprintMembers(x), FingerprintMembers(y))
  {
    var a, b := FingerprintMembers(x), FingerprintMembers(y);
    if SameValues(a, b) {
      assert SameTree(a[0].value, b[0].value) && SameTree(a[1].value, b[1].value) && SameTree(a[2].value, b[2].value);
      assert SameTree(a[3].value, b[3].value) && SameTree(a[4].value, b[4].value) && SameTree(a[5].value, b[5].value);
      assert SameTree(a[6].value, b[6].value);
    }
  }

  lemma FingerprintKeysAlike(x: FingerprintInput, y: FingerprintInput)
    ensures var a, b := FingerprintMembers(x), FingerprintMembers(y);
            forall k :: 0 <= k < |a| ==> a[k].key == b[k].key
  {
  }

  lemma FingerprintProper(x: FingerprintInput)
    requires Proper(x.validatedArguments)
    ensures Proper(Object(FingerprintMembers(x)))
  {
    FingerprintKeysDistinct(x);
  }

  /** A fingerprint binds exactly the tool, the identities, the context and the arguments as a tree. */
  lemma FingerprintBinds(x: FingerprintInput, y: FingerprintInput)
    requires Proper(x.validatedArguments) && Proper(y.validatedArguments)
    ensures Fingerprint(x) == Fingerprint(y) <==> SameInput(x, y)
  {
    hide SameInput, SameValues, SameTree, Serialize, Proper, DistinctKeys;
    var a, b := FingerprintMembers(x), FingerprintMembers(y);
    FingerprintProper(x);
    FingerprintProper(y);
    FingerprintKeysDistinct(x);
    FingerprintKeysDistinct(y);
    FingerprintKeysAlike(x, y);
    SerializeInjective(Object(a), Object(b));
    AlignedObjects(a, b);
    SameInputValues(x, y);
  }
}
