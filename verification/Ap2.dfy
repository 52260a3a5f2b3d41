/**
 Evidence bundles exported as three-layer payment mandates and read back, and the digest that
 protects a mandate.

 A mandate is a JSON dictionary. `str` of a list or a dictionary is left open (`repr`).
 */
module Ap2 {
  import opened Text
  import opened Sorting
  import opened CanonicalJson
  import opened Schemas

  const AP2_VERSION := "agents-to-payments/ap2-mandate/v1"

  // ----- Python dictionaries and values -----

  function Lookup(fields: seq<Field>, key: string): Option<Json>
  {
    if fields == [] then None
    else if fields[0].key == key then Some(fields[0].value)
    else Lookup(fields[1..], key)
  }

  /** `d.get(key, default)`. */
  function GetOr(fields: seq<Field>, key: string, default: Json): Json
  {
    var v := Lookup(fields, key);
    if v.Some? then v.value else default
  }

  /** `d[key] = v`. */
  function SetKey(fields: seq<Field>, key: string, v: Json): seq<Field>
  {
    if fields == [] then [Field(key, v)]
    else if fields[0].key == key then [Field(key, v)] + fields[1..]
    else [fields[0]] + SetKey(fields[1..], key, v)
  }

  predicate Truthy(v: Json)
  {
    match v
    case Null => false
    case Bool(b) => b
    case Num(n) => n != 0
    case Str(s) => s != ""
    case Arr(items) => items != []
    case Obj(fields) => fields != []
  }

  function PyStr(v: Json, repr: Json -> string): string
  {
    match v
    case Null => "None"
    case Bool(b) => if b then "True" else "False"
    case Num(n) => Decimal(n)
    case Str(s) => s
    case _ => repr(v)
  }

  /** `v or w`. */
  function Or(v: Json, w: Json): Json
  {
    if Truthy(v) then v else w
  }

  function Chars(s: string): seq<Json>
  {
    if s == [] then [] else [Str([s[0]])] + Chars(s[1..])
  }

  function Keys(fields: seq<Field>): seq<Json>
  {
    if fields == [] then [] else [Str(fields[0].key)] + Keys(fields[1..])
  }

  /** `list(v or [])`; `None` where Python raises. */
  function PyList(v: Json): Option<seq<Json>>
  {
    if !Truthy(v) then Some([])
    else
      match v
      case Arr(items) => Some(items)
      case Str(s) => Some(Chars(s))
      case Obj(fields) => Some(Keys(fields))
      case _ => None
  }

  lemma {:induction false} LookupFinds(fields: seq<Field>, key: string)
    ensures Lookup(fields, key).Some? ==> Field(key, Lookup(fields, key).value) in fields
    ensures Lookup(fields, key).None? ==> forall f :: f in fields ==> f.key != key
  {
    if fields != [] {
      assert fields == [fields[0]] + fields[1..];
      LookupFinds(fields[1..], key);
    }
  }

  lemma LookupMember(fields: seq<Field>, f: Field)
    requires DistinctKeys(fields) && f in fields
    ensures Lookup(fields, f.key) == Some(f.value)
  {
    LookupFinds(fields, f.key);
  }

  lemma LookupZip(keys: seq<string>, values: seq<Json>, i: nat)
    requires DistinctStrings(keys) && i < |values| <= |keys|
    ensures Lookup(Zip(keys, values), keys[i]) == Some(values[i])
  {
    var fields := Zip(keys, values);
    assert fields[i] in fields;
    LookupMember(fields, fields[i]);
  }

  /** Equal dictionaries hold equal values under every key. */
  lemma SameLookup(fs: seq<Field>, gs: seq<Field>, key: string)
    requires DistinctKeys(fs) && DistinctKeys(gs) && Same(Obj(fs), Obj(gs))
    ensures SameUnder(fs, gs, key)
  {
    LookupFinds(fs, key);
    LookupFinds(gs, key);
    if Lookup(fs, key).Some? {
      var i :| 0 <= i < |fs| && fs[i] == Field(key, Lookup(fs, key).value);
      assert Matched(fs, gs, i);
      var j :| 0 <= j < |gs| && gs[j].key == fs[i].key && Same(fs[i].value, gs[j].value);
      LookupMember(gs, gs[j]);
    } else if Lookup(gs, key).Some? {
      SameKeysBack(fs, gs, key);
    }
  }

  predicate SameUnder(fs: seq<Field>, gs: seq<Field>, key: string)
  {
    match (Lookup(fs, key), Lookup(gs, key))
    case (Some(v), Some(w)) => Same(v, w)
    case (None, None) => true
    case _ => false
  }

  function KeySeq(fields: seq<Field>): (keys: seq<string>)
    ensures |keys| == |fields| && forall i :: 0 <= i < |fields| ==> keys[i] == fields[i].key
  {
    if fields == [] then [] else [fields[0].key] + KeySeq(fields[1..])
  }

  /** A key of the second dictionary is one of the first: they have equally many. */
  lemma SameKeysBack(fs: seq<Field>, gs: seq<Field>, key: string)
    requires DistinctKeys(fs) && Same(Obj(fs), Obj(gs)) && Lookup(gs, key).Some?
    ensures Lookup(fs, key).Some?
  {
    var ks, ls := KeySeq(fs), KeySeq(gs);
    forall k | k in ks ensures k in ls {
      var i :| 0 <= i < |fs| && ks[i] == k;
      assert Matched(fs, gs, i);
      var j :| 0 <= j < |gs| && gs[j].key == fs[i].key && Same(fs[i].value, gs[j].value);
      assert ls[j] == k;
    }
    DistinctInside(ks, ls);
    SameElements(ks, ls);
    LookupFinds(gs, key);
    var j :| 0 <= j < |gs| && gs[j] == Field(key, Lookup(gs, key).value);
    assert ls[j] in ls;
    var i :| 0 <= i < |ks| && ks[i] == key;
    LookupFinds(fs, key);
    assert fs[i] in fs;
  }

  // ----- the digest of a mandate -----

  const DIGEST_KEY := "mandate_digest"
  const SIGNATURE_KEY := "mandate_signature"

  /** Keys the digest leaves out. */
  predicate Skipped(key: string)
  {
    key == SIGNATURE_KEY || key == DIGEST_KEY
  }

  function Kept(fields: seq<Field>): seq<Field>
  {
    if fields == [] then []
    else (if Skipped(fields[0].key) then [] else [fields[0]]) + Kept(fields[1..])
  }

  function Payload(mandate: seq<Field>): seq<Field>
  {
    Kept(SortBy(mandate, FieldLe))
  }

  function MandateDigest(h: Hasher, mandate: seq<Field>): (digest: string)
    ensures IsHex64(digest)
  {
    h(Encode(Obj(Payload(mandate))))
  }

  lemma {:induction false} KeptCounts(fields: seq<Field>, f: Field)
    ensures multiset(Kept(fields))[f] == if Skipped(f.key) then 0 else multiset(fields)[f]
  {
    hide Skipped;
    if fields != [] {
      assert fields == [fields[0]] + fields[1..];
      KeptCounts(fields[1..], f);
    }
  }

  lemma {:induction false} KeptMembers(fields: seq<Field>)
    ensures forall f :: f in Kept(fields) <==> f in fields && !Skipped(f.key)
    ensures DistinctKeys(fields) ==> DistinctKeys(Kept(fields))
  {
    hide Skipped;
    if fields != [] {
      assert fields == [fields[0]] + fields[1..];
      KeptMembers(fields[1..]);
    }
  }

  /** The digest is over the mandate without its two own fields, whatever their order. */
  lemma PayloadText(mandate: seq<Field>)
    requires DistinctKeys(mandate)
    ensures Encode(Obj(Payload(mandate))) == Encode(Obj(Kept(mandate)))
  {
    hide Encode, Skipped;
    SortPermutes(mandate, FieldLe);
    forall f ensures multiset(Payload(mandate))[f] == multiset(Kept(mandate))[f] {
      KeptCounts(mandate, f);
      KeptCounts(SortBy(mandate, FieldLe), f);
    }
    KeptMembers(mandate);
    EncodeIgnoresInsertionOrder(Kept(mandate), Payload(mandate));
  }

  lemma {:induction false} SetSkipped(mandate: seq<Field>, key: string, v: Json)
    requires Skipped(key)
    ensures Kept(SetKey(mandate, key, v)) == Kept(mandate)
  {
    hide Skipped;
    if mandate != [] {
      var next := SetKey(mandate, key, v);
      if mandate[0].key == key {
        assert next[1..] == mandate[1..];
      } else {
        SetSkipped(mandate[1..], key, v);
        assert next[1..] == SetKey(mandate[1..], key, v);
      }
    } else {
      assert Kept([Field(key, v)]) == Kept([Field(key, v)][1..]);
    }
  }

  lemma {:induction false} SetKeyLookup(fields: seq<Field>, key: string, v: Json, k: string)
    ensures Lookup(SetKey(fields, key, v), k) == if k == key then Some(v) else Lookup(fields, k)
  {
    if fields != [] && fields[0].key != key {
      SetKeyLookup(fields[1..], key, v, k);
      assert SetKey(fields, key, v)[1..] == SetKey(fields[1..], key, v);
    }
  }

  lemma {:induction false} SetKeyDistinct(fields: seq<Field>, key: string, v: Json)
    requires DistinctKeys(fields)
    ensures DistinctKeys(SetKey(fields, key, v))
    ensures forall f :: f in SetKey(fields, key, v) ==> f in fields || f == Field(key, v)
  {
    if fields != [] {
      assert fields == [fields[0]] + fields[1..];
      if fields[0].key != key {
        SetKeyDistinct(fields[1..], key, v);
        var rest := SetKey(fields[1..], key, v);
        forall j | 0 <= j < |rest| ensures rest[j].key != fields[0].key {
          assert rest[j] in rest;
        }
      }
    }
  }

  // ----- checking a mandate -----

  datatype Detail = Consistent | BundleDigestMismatch | MandateDigestMismatch

  function Declared(mandate: seq<Field>, repr: Json -> string): string
  {
    PyStr(GetOr(mandate, DIGEST_KEY, Str("")), repr)
  }

  function Expected(mandate: seq<Field>, repr: Json -> string): string
  {
    PyStr(GetOr(mandate, "karma_evidence_digest", Str("")), repr)
  }

  function VerifyDigest(h: Hasher, mandate: seq<Field>, bundle: Option<EvidenceBundle>, repr: Json -> string): Detail
  {
    if bundle.Some? && h(BundleBytes(bundle.value)) != Lower(Expected(mandate, repr)) then BundleDigestMismatch
    else
      var declared := Declared(mandate, repr);
      if declared != "" && MandateDigest(h, mandate) != Lower(declared) then MandateDigestMismatch
      else Consistent
  }

  /** Adding or changing the signature changes nothing the check looks at. */
  lemma SignatureIsDetached(h: Hasher, mandate: seq<Field>, v: Json, bundle: Option<EvidenceBundle>, repr: Json -> string)
    requires DistinctKeys(mandate)
    ensures MandateDigest(h, SetKey(mandate, SIGNATURE_KEY, v)) == MandateDigest(h, mandate)
    ensures VerifyDigest(h, SetKey(mandate, SIGNATURE_KEY, v), bundle, repr) == VerifyDigest(h, mandate, bundle, repr)
  {
    hide Encode, BundleBytes, Payload;
    var signed := SetKey(mandate, SIGNATURE_KEY, v);
    SetKeyDistinct(mandate, SIGNATURE_KEY, v);
    SetSkipped(mandate, SIGNATURE_KEY, v);
    PayloadText(mandate);
    PayloadText(signed);
    SetKeyLookup(mandate, SIGNATURE_KEY, v, DIGEST_KEY);
    SetKeyLookup(mandate, SIGNATURE_KEY, v, "karma_evidence_digest");
    assert |SIGNATURE_KEY| == 17 && |DIGEST_KEY| == 14 && |"karma_evidence_digest"| == 21;
  }

  /** A mandate whose digest field is missing or empty passes whatever its other fields say, but for
      the evidence digest when a bundle is given to compare with. */
  lemma UndeclaredPasses(h: Hasher, mandate: seq<Field>, bundle: Option<EvidenceBundle>, repr: Json -> string)
    requires Lookup(mandate, DIGEST_KEY).None? || Lookup(mandate, DIGEST_KEY) == Some(Str(""))
    ensures VerifyDigest(h, mandate, bundle, repr) == Consistent
      <==> bundle.None? || h(BundleBytes(bundle.value)) == Lower(Expected(mandate, repr))
  {
    hide MandateDigest, BundleBytes, Lower, Expected;
  }

  /** Given a mandate that declares the digest of `original`, the check passes exactly when it is
      `original`, signature aside, or its text and that of `original` collide. */
  lemma DeclaredBinds(h: Hasher, mandate: seq<Field>, original: seq<Field>, repr: Json -> string)
    requires WellFormed(Obj(mandate)) && WellFormed(Obj(original))
    requires Lower(Declared(mandate, repr)) == MandateDigest(h, original)
    ensures VerifyDigest(h, mandate, None, repr) == Consistent
      <==> Same(Obj(Kept(mandate)), Obj(Kept(original)))
           || Collide(h, Encode(Obj(Kept(mandate))), Encode(Obj(Kept(original))))
  {
    hide Encode, Same, Payload;
    KeptWellFormed(mandate);
    KeptWellFormed(original);
    PayloadText(mandate);
    PayloadText(original);
    EncodeIdentifies(Obj(Kept(mandate)), Obj(Kept(original)));
    assert |MandateDigest(h, original)| == 64;
  }

  lemma KeptWellFormed(mandate: seq<Field>)
    requires WellFormed(Obj(mandate))
    ensures WellFormed(Obj(Kept(mandate)))
  {
    var kept := Kept(mandate);
    KeptMembers(mandate);
    forall i | 0 <= i < |kept| ensures WellFormed(kept[i].value) {
      assert kept[i] in mandate;
      var j :| 0 <= j < |mandate| && mandate[j] == kept[i];
    }
  }

  lemma {:induction false} KeptLookup(mandate: seq<Field>, key: string)
    requires !Skipped(key)
    ensures Lookup(Kept(mandate), key) == Lookup(mandate, key)
  {
    hide Skipped;
    if mandate != [] {
      KeptLookup(mandate[1..], key);
      if Skipped(mandate[0].key) {
        assert Kept(mandate) == Kept(mandate[1..]);
      } else {
        assert Kept(mandate)[1..] == Kept(mandate[1..]);
      }
    }
  }

  /** A mandate that passes while declaring the digest of `original` has the value of `original`
      under every key but the two skipped ones, or the two texts collide. */
  lemma TamperedFieldFails(h: Hasher, mandate: seq<Field>, original: seq<Field>, key: string, repr: Json -> string)
    requires WellFormed(Obj(mandate)) && WellFormed(Obj(original)) && !Skipped(key)
    requires Lower(Declared(mandate, repr)) == MandateDigest(h, original)
    requires VerifyDigest(h, mandate, None, repr) == Consistent
    ensures SameUnder(mandate, original, key)
         || Collide(h, Encode(Obj(Kept(mandate))), Encode(Obj(Kept(original))))
  {
    hide Encode, Same, VerifyDigest, MandateDigest;
    DeclaredBinds(h, mandate, original, repr);
    if Same(Obj(Kept(mandate)), Obj(Kept(original))) {
      KeptMembers(mandate);
      KeptMembers(original);
      SameLookup(Kept(mandate), Kept(original), key);
      KeptLookup(mandate, key);
      KeptLookup(original, key);
    }
  }

  // ----- export -----

  /** The parties and terms of the payment; the optional ids override the derived ones. */
  datatype Order = Order(
    payer: string,
    payee: string,
    token: string,
    amount: string,
    chainId: int,
    policyId: string,
    merchantRef: string,
    expiresAt: string,
    intentId: Option<string>,
    cartId: Option<string>,
    paymentMandateId: Option<string>,
    userGoalHash: Option<string>)

  /** The keys of a mandate; an exported one carries all but the last. */
  function TopKeys(): (keys: seq<string>)
    ensures |keys| == 10 && keys[8] == DIGEST_KEY && keys[9] == SIGNATURE_KEY
  {
    [ "ap2_version", "intent_mandate", "cart_mandate", "payment_mandate", "karma_evidence_digest",
      "karma_bundle_id", "karma_task_id", "karma_schema_version", DIGEST_KEY, SIGNATURE_KEY ]
  }

  function IntentKeys(): (keys: seq<string>)
    ensures |keys| == 4
  {
    ["intent_id", "user_goal_hash", "created_at", "human_present"]
  }

  function CartKeys(): (keys: seq<string>)
    ensures |keys| == 4
  {
    ["cart_id", "merchant_ref", "line_item_hashes", "task_contract_hash"]
  }

  function PaymentKeys(): (keys: seq<string>)
    ensures |keys| == 8
  {
    ["payment_mandate_id", "payer", "payee", "token", "amount", "chain_id", "policy_id", "expires_at"]
  }

  lemma TopKeysDistinct()
    ensures DistinctStrings(TopKeys())
  {
    CodesTellApart(TopKeys(), [11050, 14116, 12114, 15121, 21114, 15114, 13114, 20114, 14110, 17110]);
  }

  lemma IntentKeysDistinct()
    ensures DistinctStrings(IntentKeys())
  {
    CodesTellApart(IntentKeys(), [9116, 14101, 10101, 13109]);
  }

  lemma CartKeysDistinct()
    ensures DistinctStrings(CartKeys())
  {
    CodesTellApart(CartKeys(), [7114, 12114, 16110, 18115]);
  }

  /** Payer and payee differ only in their last character. */
  lemma PaymentKeysDistinct()
    ensures DistinctStrings(PaymentKeys())
  {
    var keys := PaymentKeys();
    forall i, j | 0 <= i < j < |keys| ensures keys[i] != keys[j] {
      if |keys[i]| == |keys[j]| {
        var last := |keys[i]| - 1;
        assert keys[i][last] != keys[j][last];
      }
    }
  }

  function Head16(s: string): string
  {
    if |s| <= 16 then s else s[..16]
  }

  function BundleName(b: EvidenceBundle): string
  {
    if b.bundleId != "" then b.bundleId else b.taskId
  }

  function IntentId(b: EvidenceBundle, o: Order): (id: string)
    ensures id != ""
  {
    OrElse(o.intentId, "intent-" + Head16(BundleName(b)))
  }

  function CartId(b: EvidenceBundle, o: Order): (id: string)
    ensures id != ""
  {
    OrElse(o.cartId, "cart-" + Head16(BundleName(b)))
  }

  function PaymentId(b: EvidenceBundle, o: Order): (id: string)
    ensures id != ""
  {
    OrElse(o.paymentMandateId, "pay-" + Head16(BundleName(b)))
  }

  function IntentValues(h: Hasher, b: EvidenceBundle, o: Order, now: string): (vs: seq<Json>)
    ensures |vs| == 4 && forall i :: 0 <= i < 4 ==> Flat(vs[i])
  {
    [ Str(IntentId(b, o)), Str(OrElse(o.userGoalHash, h(b.taskId))),
      Str(Either(b.createdAt, now)), Bool(false) ]
  }

  function CartValues(b: EvidenceBundle, o: Order): (vs: seq<Json>)
    ensures |vs| == 4 && forall i :: 0 <= i < 4 ==> Flat(vs[i])
  {
    [ Str(CartId(b, o)), Str(o.merchantRef), StrList(b.receiptHashes),
      Str(b.taskContractHash) ]
  }

  function PaymentValues(b: EvidenceBundle, o: Order): (vs: seq<Json>)
    ensures |vs| == 8 && forall i :: 0 <= i < 8 ==> Flat(vs[i])
  {
    [ Str(PaymentId(b, o)), Str(o.payer), Str(o.payee), Str(o.token),
      Str(o.amount), Num(o.chainId), Str(o.policyId), Str(o.expiresAt) ]
  }

  /** The values under the first eight keys; `now` is the clock, read if the bundle has no time. */
  function MandateValues(h: Hasher, b: EvidenceBundle, o: Order, now: string): (vs: seq<Json>)
    ensures |vs| == 8
  {
    [ Str(AP2_VERSION), Obj(Zip(IntentKeys(), IntentValues(h, b, o, now))), Obj(Zip(CartKeys(), CartValues(b, o))),
      Obj(Zip(PaymentKeys(), PaymentValues(b, o))), Str(h(BundleBytes(b))), Str(BundleName(b)), Str(b.taskId),
      Str(b.schemaVersion) ]
  }

  function ToMandate(h: Hasher, b: EvidenceBundle, o: Order, now: string): seq<Field>
  {
    var values := MandateValues(h, b, o, now);
    Zip(TopKeys(), values + [Str(MandateDigest(h, Zip(TopKeys(), values)))])
  }

  lemma ToMandateAt(h: Hasher, b: EvidenceBundle, o: Order, now: string, i: nat)
    requires i < 9
    ensures Lookup(ToMandate(h, b, o, now), TopKeys()[i])
      == Some(if i < 8 then MandateValues(h, b, o, now)[i]
              else Str(MandateDigest(h, Zip(TopKeys(), MandateValues(h, b, o, now)))))
  {
    hide MandateValues, MandateDigest, TopKeys, DistinctStrings;
    var values := MandateValues(h, b, o, now);
    TopKeysDistinct();
    LookupZip(TopKeys(), values + [Str(MandateDigest(h, Zip(TopKeys(), values)))], i);
  }

  lemma {:induction false} KeptAll(fields: seq<Field>)
    requires forall i :: 0 <= i < |fields| ==> !Skipped(fields[i].key)
    ensures Kept(fields) == fields
  {
    hide Skipped;
    if fields != [] {
      KeptAll(fields[1..]);
    }
  }

  lemma {:induction false} KeptConcat(a: seq<Field>, b: seq<Field>)
    ensures Kept(a + b) == Kept(a) + Kept(b)
  {
    hide Skipped;
    if a == [] {
      assert a + b == b;
    } else {
      assert (a + b)[1..] == a[1..] + b;
      KeptConcat(a[1..], b);
    }
  }

  lemma ZipDistinct(keys: seq<string>, values: seq<Json>)
    requires DistinctStrings(keys) && |values| <= |keys|
    ensures DistinctKeys(Zip(keys, values))
  {}

  /** The digest leaves an exported mandate's digest field out. */
  lemma KeptOfExport(values: seq<Json>, v: Json)
    requires |values| == 8
    ensures DistinctKeys(Zip(TopKeys(), values)) && DistinctKeys(Zip(TopKeys(), values + [v]))
    ensures Kept(Zip(TopKeys(), values)) == Zip(TopKeys(), values)
    ensures Kept(Zip(TopKeys(), values + [v])) == Zip(TopKeys(), values)
  {
    hide TopKeys, DistinctKeys, DistinctStrings;
    var body, full := Zip(TopKeys(), values), Zip(TopKeys(), values + [v]);
    TopKeysDistinct();
    ZipDistinct(TopKeys(), values);
    ZipDistinct(TopKeys(), values + [v]);
    KeptAll(body);
    assert full == body + [Field(DIGEST_KEY, v)];
    KeptConcat(body, [Field(DIGEST_KEY, v)]);
    assert Kept([Field(DIGEST_KEY, v)]) == Kept([Field(DIGEST_KEY, v)][1..]);
  }

  /** The declared digest is the digest of the mandate that declares it. */
  lemma DigestOfExport(h: Hasher, values: seq<Json>, v: Json)
    requires |values| == 8
    ensures MandateDigest(h, Zip(TopKeys(), values + [v])) == MandateDigest(h, Zip(TopKeys(), values))
  {
    hide Encode, Kept, TopKeys, DistinctKeys;
    KeptOfExport(values, v);
    PayloadText(Zip(TopKeys(), values));
    PayloadText(Zip(TopKeys(), values + [v]));
  }

  lemma KeyNames()
    ensures var keys := TopKeys();
      && keys[0] == "ap2_version" && keys[1] == "intent_mandate" && keys[2] == "cart_mandate"
      && keys[3] == "payment_mandate" && keys[4] == "karma_evidence_digest" && keys[5] == "karma_bundle_id"
      && keys[6] == "karma_task_id" && keys[7] == "karma_schema_version"
  {}

  lemma ExportEvidence(h: Hasher, b: EvidenceBundle, o: Order, now: string, repr: Json -> string)
    ensures Expected(ToMandate(h, b, o, now), repr) == h(BundleBytes(b))
  {
    hide MandateDigest, BundleBytes, ToMandate, IntentValues, CartValues, PaymentValues, Zip, Lookup, TopKeys;
    KeyNames();
    ToMandateAt(h, b, o, now, 4);
  }

  lemma ExportDeclares(h: Hasher, b: EvidenceBundle, o: Order, now: string, repr: Json -> string)
    ensures var m := ToMandate(h, b, o, now);
      && DistinctKeys(m)
      && Lookup(m, DIGEST_KEY) == Some(Str(MandateDigest(h, m)))
      && Declared(m, repr) == MandateDigest(h, m)
  {
    hide MandateDigest, DistinctKeys, Kept, TopKeys, MandateValues, Zip, Lookup;
    var values := MandateValues(h, b, o, now);
    ToMandateAt(h, b, o, now, 8);
    KeptOfExport(values, Str(MandateDigest(h, Zip(TopKeys(), values))));
    DigestOfExport(h, values, Str(MandateDigest(h, Zip(TopKeys(), values))));
  }

  /** An exported mandate passes, with or without the bundle it was made from and however signed;
      with another bundle it fails, unless the two bundles' texts collide. */
  lemma ExportPasses(h: Hasher, b: EvidenceBundle, o: Order, now: string, v: Json, c: EvidenceBundle, repr: Json -> string)
    ensures var m := ToMandate(h, b, o, now);
      && VerifyDigest(h, m, None, repr) == Consistent
      && VerifyDigest(h, m, Some(b), repr) == Consistent
      && VerifyDigest(h, SetKey(m, SIGNATURE_KEY, v), Some(b), repr) == Consistent
      && (VerifyDigest(h, m, Some(c), repr) == Consistent <==> b == c || Collide(h, BundleBytes(b), BundleBytes(c)))
  {
    hide MandateDigest, BundleBytes, ToMandate, Declared, Expected, DistinctKeys, SetKey;
    var m := ToMandate(h, b, o, now);
    ExportDeclares(h, b, o, now, repr);
    ExportEvidence(h, b, o, now, repr);
    LowerOfHex(MandateDigest(h, m));
    LowerOfHex(h(BundleBytes(b)));
    SignatureIsDetached(h, m, v, Some(b), repr);
    if BundleBytes(b) == BundleBytes(c) {
      BundleBytesInjective(b, c);
    }
  }

  lemma NestedWellFormed(keys: seq<string>, values: seq<Json>)
    requires DistinctStrings(keys) && |values| <= |keys| && forall i :: 0 <= i < |values| ==> WellFormed(values[i])
    ensures WellFormed(Obj(Zip(keys, values)))
  {}

  lemma FlatWellFormed(keys: seq<string>, values: seq<Json>)
    requires DistinctStrings(keys) && |values| <= |keys| && forall i :: 0 <= i < |values| ==> Flat(values[i])
    ensures WellFormed(Obj(Zip(keys, values)))
  {
    forall i | 0 <= i < |values| ensures WellFormed(values[i]) {}
    NestedWellFormed(keys, values);
  }

  lemma ExportWellFormed(h: Hasher, b: EvidenceBundle, o: Order, now: string)
    ensures WellFormed(Obj(ToMandate(h, b, o, now)))
  {
    hide MandateDigest, BundleBytes, DistinctStrings, Flat, IntentValues, CartValues, PaymentValues,
         IntentKeys, CartKeys, PaymentKeys, TopKeys, Zip;
    IntentKeysDistinct();
    CartKeysDistinct();
    PaymentKeysDistinct();
    TopKeysDistinct();
    FlatWellFormed(IntentKeys(), IntentValues(h, b, o, now));
    FlatWellFormed(CartKeys(), CartValues(b, o));
    FlatWellFormed(PaymentKeys(), PaymentValues(b, o));
    var values := MandateValues(h, b, o, now);
    NestedWellFormed(TopKeys(), values + [Str(MandateDigest(h, Zip(TopKeys(), values)))]);
  }

  /** Any mandate that still declares an exported mandate's digest and differs from it under some
      key but the signature is rejected, unless the two texts collide. */
  lemma TamperedExportFails(h: Hasher, b: EvidenceBundle, o: Order, now: string, mandate: seq<Field>, key: string,
                            repr: Json -> string)
    requires WellFormed(Obj(mandate)) && !Skipped(key)
    requires Lookup(mandate, DIGEST_KEY) == Lookup(ToMandate(h, b, o, now), DIGEST_KEY)
    requires !SameUnder(mandate, ToMandate(h, b, o, now), key)
    ensures VerifyDigest(h, mandate, None, repr) == MandateDigestMismatch
         || Collide(h, Encode(Obj(Kept(mandate))), Encode(Obj(Kept(ToMandate(h, b, o, now)))))
  {
    hide Encode, MandateDigest, ToMandate, WellFormed, Lookup, Kept, SameUnder, Skipped, BundleBytes, DistinctKeys;
    var m := ToMandate(h, b, o, now);
    ExportDeclares(h, b, o, now, repr);
    ExportWellFormed(h, b, o, now);
    LowerOfHex(MandateDigest(h, m));
    if VerifyDigest(h, mandate, None, repr) == Consistent {
      TamperedFieldFails(h, mandate, m, key, repr);
    }
  }

  // ----- import -----

  /** What `int(s, 16)` reads, on ASCII text: blanks around, a sign, a `0x`, single underscores between digits. */
  predicate ReadsBase16(s: string)
  {
    var t := Strip(s);
    var u := if t != "" && (t[0] == '+' || t[0] == '-') then t[1..] else t;
    if |u| >= 2 && u[0] == '0' && (u[1] == 'x' || u[1] == 'X')
    then HexRun(if |u| >= 3 && u[2] == '_' then u[3..] else u[2..])
    else HexRun(u)
  }

  predicate IsHexChar(c: char)
  {
    IsHexLower(LowerChar(c))
  }

  predicate HexRun(s: string)
  {
    && s != "" && IsHexChar(s[0]) && IsHexChar(s[|s| - 1])
    && (forall i :: 0 <= i < |s| ==> IsHexChar(s[i]) || s[i] == '_')
    && forall i :: 0 <= i < |s| - 1 ==> s[i] != '_' || s[i + 1] != '_'
  }

  predicate PassesAsHex64(s: string)
  {
    |s| == 64 && ReadsBase16(s) && s == Lower(s)
  }

  lemma HexIsStripped(s: string)
    requires IsHex64(s)
    ensures Strip(s) == s
  {
    StripStripped(s);
  }

  /** Every digest passes; so do some texts that are not 64 hexadecimal digits. */
  lemma PassesAsHex64Lenient(s: string)
    ensures IsHex64(s) ==> PassesAsHex64(s)
    ensures PassesAsHex64("0x" + seq(62, i => 'a')) && !IsHex64("0x" + seq(62, i => 'a'))
  {
    if IsHex64(s) {
      HexIsStripped(s);
      LowerOfHex(s);
      assert s[1] != 'x' && s[1] != 'X';
    }
    var t := "0x" + seq(62, i => 'a');
    StripStripped(t);
    assert t[2..] == seq(62, i => 'a');
    assert !IsHexLower(t[1]);
  }

  /** The characters `int` reads over: blanks, signs, separators and the base marker. */
  predicate ReadOver(c: char)
  {
    IsSpace(c) || c in "+-_xX"
  }

  /** A text without such characters is read as one run of digits. */
  lemma PlainRun(s: string)
    requires |s| == 64 && forall i :: 0 <= i < |s| ==> !ReadOver(s[i])
    ensures ReadsBase16(s) <==> HexRun(s)
  {
    hide HexRun;
    assert !ReadOver(s[0]) && !ReadOver(s[1]) && !ReadOver(s[63]);
    StripStripped(s);
  }

  lemma RunIsHex(s: string)
    requires |s| == 64 && s == Lower(s) && HexRun(s) && forall i :: 0 <= i < |s| ==> !ReadOver(s[i])
    ensures IsHex64(s)
  {
    forall i | 0 <= i < |s| ensures IsHexLower(s[i]) {
      assert !ReadOver(s[i]) && Lower(s)[i] == LowerChar(s[i]);
    }
  }

  lemma HexIsPlain(s: string)
    requires IsHex64(s)
    ensures forall i :: 0 <= i < |s| ==> !ReadOver(s[i])
  {}

  /** What passes is a digest exactly when it holds none of the characters `int` reads over. */
  lemma PassesAsHex64Iff(s: string)
    requires PassesAsHex64(s)
    ensures IsHex64(s) <==> forall i :: 0 <= i < |s| ==> !ReadOver(s[i])
  {
    hide ReadOver, HexRun, ReadsBase16, IsHex64, Lower;
    if forall i :: 0 <= i < |s| ==> !ReadOver(s[i]) {
      PlainRun(s);
      RunIsHex(s);
    }
    if IsHex64(s) {
      HexIsPlain(s);
    }
  }

  datatype ImportError =
    | MissingKeys(part: string, keys: seq<string>)
    | NotADict(part: string)
    | BadDigest
    | NotAList

  datatype Import = Raised(error: ImportError) | Imported(fields: ImportedFields)

  /** The fields read back; list entries are whatever JSON the mandate holds. */
  datatype ImportedFields = ImportedFields(
    bundleId: string,
    taskId: string,
    taskContractHash: string,
    receiptHashes: seq<Json>,
    finalResultHash: Json,
    createdAt: string,
    signer: string,
    signature: string,
    schemaVersion: string,
    evidenceDigest: string,
    payment: seq<Field>,
    merchantRef: string)

  function MissingFrom(required: seq<string>, fields: seq<Field>): seq<string>
  {
    if required == [] then []
    else (if Lookup(fields, required[0]).None? then [required[0]] else []) + MissingFrom(required[1..], fields)
  }

  const REQUIRED_TOP: seq<string> :=
    ["ap2_version", "cart_mandate", "intent_mandate", "karma_evidence_digest", "payment_mandate"]

  const REQUIRED_INTENT: seq<string> := ["created_at", "intent_id", "user_goal_hash"]

  const REQUIRED_CART: seq<string> := ["cart_id", "line_item_hashes", "merchant_ref"]

  const REQUIRED_PAYMENT: seq<string> :=
    ["amount", "chain_id", "expires_at", "payee", "payer", "payment_mandate_id", "policy_id", "token"]

  function CheckPart(part: string, required: seq<string>, v: Json): Option<ImportError>
  {
    if !v.Obj? then Some(NotADict(part))
    else if MissingFrom(required, v.fields) != [] then Some(MissingKeys(part, MissingFrom(required, v.fields)))
    else None
  }

  function CheckParts(mandate: seq<Field>): Option<ImportError>
  {
    if MissingFrom(REQUIRED_TOP, mandate) != [] then Some(MissingKeys("AP2 mandate", MissingFrom(REQUIRED_TOP, mandate)))
    else
      var intent := CheckPart("intent_mandate", REQUIRED_INTENT, GetOr(mandate, "intent_mandate", Null));
      var cart := CheckPart("cart_mandate", REQUIRED_CART, GetOr(mandate, "cart_mandate", Null));
      var payment := CheckPart("payment_mandate", REQUIRED_PAYMENT, GetOr(mandate, "payment_mandate", Null));
      if intent.Some? then intent else if cart.Some? then cart else payment
  }

  function PartOf(mandate: seq<Field>, part: string): seq<Field>
  {
    var v := GetOr(mandate, part, Null);
    if v.Obj? then v.fields else []
  }

  function FromMandate(h: Hasher, mandate: seq<Field>, now: string, repr: Json -> string): Import
  {
    var error := CheckParts(mandate);
    var digest := Expected(mandate, repr);
    if error.Some? then Raised(error.value)
    else if !PassesAsHex64(digest) then Raised(BadDigest)
    else
      ReadParts(h, mandate, PartOf(mandate, "intent_mandate"), PartOf(mandate, "cart_mandate"),
                PartOf(mandate, "payment_mandate"), digest, now, repr)
  }

  /** The values looked up in a mandate, with `dict.get`'s defaults. */
  datatype Raw = Raw(
    bundleId: Json,
    cartId: Json,
    taskId: Json,
    intentId: Json,
    contractHash: Json,
    lineItems: Json,
    created: Json,
    payer: Json,
    signature: Json,
    schema: Json,
    merchant: Json)

  function ReadParts(h: Hasher, mandate: seq<Field>, intent: seq<Field>, cart: seq<Field>, payment: seq<Field>,
                     digest: string, now: string, repr: Json -> string): Import
  {
    var empty := Str("");
    var raw := Raw(
      GetOr(mandate, "karma_bundle_id", Null), GetOr(cart, "cart_id", empty), GetOr(mandate, "karma_task_id", Null),
      GetOr(intent, "intent_id", empty), GetOr(cart, "task_contract_hash", Null), GetOr(cart, "line_item_hashes", Null),
      GetOr(intent, "created_at", Null), GetOr(payment, "payer", empty), GetOr(mandate, SIGNATURE_KEY, Null),
      GetOr(mandate, "karma_schema_version", Null), GetOr(cart, "merchant_ref", empty));
    Assemble(h, raw, payment, digest, now, repr)
  }

  function Assemble(h: Hasher, raw: Raw, payment: seq<Field>, digest: string, now: string, repr: Json -> string): Import
  {
    var taskId := PyStr(Or(raw.taskId, raw.intentId), repr);
    var items := PyList(raw.lineItems);
    if items.None? then Raised(NotAList)
    else
      Imported(ImportedFields(
        PyStr(Or(raw.bundleId, raw.cartId), repr), taskId, PyStr(Or(raw.contractHash, Str(h(taskId))), repr),
        items.value, if items.value != [] then items.value[|items.value| - 1] else Str(digest),
        PyStr(Or(raw.created, Str(now)), repr), PyStr(raw.payer, repr), PyStr(Or(raw.signature, Str("")), repr),
        PyStr(Or(raw.schema, Str(BUNDLE_SCHEMA)), repr), digest, payment, PyStr(raw.merchant, repr)))
  }

  // ----- round trip -----

  lemma {:induction false} NoneMissing(required: seq<string>, keys: seq<string>, values: seq<Json>, at: seq<nat>)
    requires DistinctStrings(keys) && |values| <= |keys| && |at| == |required|
    requires forall i :: 0 <= i < |at| ==> at[i] < |values| && required[i] == keys[at[i]]
    ensures MissingFrom(required, Zip(keys, values)) == []
  {
    if required != [] {
      NoneMissing(required[1..], keys, values, at[1..]);
      LookupZip(keys, values, at[0]);
    }
  }

  lemma IntentComplete(values: seq<Json>)
    requires |values| == 4
    ensures MissingFrom(REQUIRED_INTENT, Zip(IntentKeys(), values)) == []
  {
    IntentKeysDistinct();
    NoneMissing(REQUIRED_INTENT, IntentKeys(), values, [2, 0, 1]);
  }

  lemma CartComplete(values: seq<Json>)
    requires |values| == 4
    ensures MissingFrom(REQUIRED_CART, Zip(CartKeys(), values)) == []
  {
    CartKeysDistinct();
    NoneMissing(REQUIRED_CART, CartKeys(), values, [0, 2, 1]);
  }

  lemma PaymentComplete(values: seq<Json>)
    requires |values| == 8
    ensures MissingFrom(REQUIRED_PAYMENT, Zip(PaymentKeys(), values)) == []
  {
    PaymentKeysDistinct();
    NoneMissing(REQUIRED_PAYMENT, PaymentKeys(), values, [4, 5, 7, 2, 1, 0, 6, 3]);
  }

  lemma {:induction false} NoneMissingOf(required: seq<string>, fields: seq<Field>)
    requires forall i :: 0 <= i < |required| ==> Lookup(fields, required[i]).Some?
    ensures MissingFrom(required, fields) == []
  {
    if required != [] {
      NoneMissingOf(required[1..], fields);
    }
  }

  lemma TopComplete(values: seq<Json>)
    requires |values| == 9
    ensures MissingFrom(REQUIRED_TOP, Zip(TopKeys(), values)) == []
  {
    hide TopKeys, DistinctStrings, Zip, Lookup;
    var fields := Zip(TopKeys(), values);
    TopKeysDistinct();
    KeyNames();
    LookupZip(TopKeys(), values, 0);
    LookupZip(TopKeys(), values, 1);
    LookupZip(TopKeys(), values, 2);
    LookupZip(TopKeys(), values, 3);
    LookupZip(TopKeys(), values, 4);
    NoneMissingOf(REQUIRED_TOP, fields);
  }

  lemma ExportParts(h: Hasher, b: EvidenceBundle, o: Order, now: string)
    ensures var m := ToMandate(h, b, o, now);
      && GetOr(m, "intent_mandate", Null) == Obj(Zip(IntentKeys(), IntentValues(h, b, o, now)))
      && GetOr(m, "cart_mandate", Null) == Obj(Zip(CartKeys(), CartValues(b, o)))
      && GetOr(m, "payment_mandate", Null) == Obj(Zip(PaymentKeys(), PaymentValues(b, o)))
      && GetOr(m, "karma_bundle_id", Null) == Str(BundleName(b))
      && GetOr(m, "karma_task_id", Null) == Str(b.taskId)
      && GetOr(m, "karma_schema_version", Null) == Str(b.schemaVersion)
  {
    hide MandateDigest, BundleBytes, ToMandate, IntentValues, CartValues, PaymentValues, Zip, Lookup, IntentKeys,
         CartKeys, PaymentKeys, BundleName, TopKeys;
    KeyNames();
    ToMandateAt(h, b, o, now, 1);
    ToMandateAt(h, b, o, now, 2);
    ToMandateAt(h, b, o, now, 3);
    ToMandateAt(h, b, o, now, 5);
    ToMandateAt(h, b, o, now, 6);
    ToMandateAt(h, b, o, now, 7);
  }

  lemma ExportUnsigned(h: Hasher, b: EvidenceBundle, o: Order, now: string)
    ensures Lookup(ToMandate(h, b, o, now), SIGNATURE_KEY).None?
  {
    hide MandateDigest, MandateValues, TopKeys;
    var m := ToMandate(h, b, o, now);
    LookupFinds(m, SIGNATURE_KEY);
    TopKeysDistinct();
    forall f | f in m ensures f.key != SIGNATURE_KEY {
      var i :| 0 <= i < |m| && m[i] == f;
      assert TopKeys()[i] != TopKeys()[9];
    }
  }

  lemma ExportChecks(h: Hasher, b: EvidenceBundle, o: Order, now: string)
    ensures CheckParts(ToMandate(h, b, o, now)).None?
  {
    hide MandateDigest, MandateValues, IntentValues, CartValues, PaymentValues, Zip, Lookup, IntentKeys, CartKeys,
         PaymentKeys, TopKeys, MissingFrom;
    var values := MandateValues(h, b, o, now);
    TopComplete(values + [Str(MandateDigest(h, Zip(TopKeys(), values)))]);
    ExportParts(h, b, o, now);
    IntentComplete(IntentValues(h, b, o, now));
    CartComplete(CartValues(b, o));
    PaymentComplete(PaymentValues(b, o));
  }

  lemma CartReads(b: EvidenceBundle, o: Order)
    ensures var cart := Zip(CartKeys(), CartValues(b, o));
      && GetOr(cart, "cart_id", Str("")) == Str(CartId(b, o))
      && GetOr(cart, "merchant_ref", Str("")) == Str(o.merchantRef)
      && GetOr(cart, "line_item_hashes", Null) == StrList(b.receiptHashes)
      && GetOr(cart, "task_contract_hash", Null) == Str(b.taskContractHash)
  {
    hide Zip, Lookup, IntentId, CartId, PaymentId, BundleName, DistinctStrings;
    CartKeysDistinct();
    LookupZip(CartKeys(), CartValues(b, o), 0);
    LookupZip(CartKeys(), CartValues(b, o), 1);
    LookupZip(CartKeys(), CartValues(b, o), 2);
    LookupZip(CartKeys(), CartValues(b, o), 3);
  }

  lemma IntentReads(h: Hasher, b: EvidenceBundle, o: Order, now: string)
    ensures var intent := Zip(IntentKeys(), IntentValues(h, b, o, now));
      && GetOr(intent, "intent_id", Str("")) == Str(IntentId(b, o))
      && GetOr(intent, "created_at", Null) == Str(Either(b.createdAt, now))
  {
    hide Zip, Lookup, IntentId, CartId, PaymentId, BundleName, DistinctStrings;
    IntentKeysDistinct();
    LookupZip(IntentKeys(), IntentValues(h, b, o, now), 0);
    LookupZip(IntentKeys(), IntentValues(h, b, o, now), 2);
  }

  lemma PaymentReads(b: EvidenceBundle, o: Order)
    ensures GetOr(Zip(PaymentKeys(), PaymentValues(b, o)), "payer", Str("")) == Str(o.payer)
  {
    hide Zip, Lookup, IntentId, CartId, PaymentId, BundleName, DistinctStrings;
    PaymentKeysDistinct();
    LookupZip(PaymentKeys(), PaymentValues(b, o), 1);
  }

  lemma ReachParts(h: Hasher, b: EvidenceBundle, o: Order, now: string, later: string, repr: Json -> string)
    ensures var m := ToMandate(h, b, o, now);
      FromMandate(h, m, later, repr)
        == ReadParts(h, m, Zip(IntentKeys(), IntentValues(h, b, o, now)), Zip(CartKeys(), CartValues(b, o)),
                     Zip(PaymentKeys(), PaymentValues(b, o)), h(BundleBytes(b)), later, repr)
  {
    hide Zip, Lookup, ToMandate, CheckParts, Expected, PassesAsHex64, IntentKeys, CartKeys, PaymentKeys,
         IntentValues, CartValues, PaymentValues, BundleBytes, TopKeys, GetOr, ReadParts;
    ExportChecks(h, b, o, now);
    ExportEvidence(h, b, o, now, repr);
    PassesAsHex64Lenient(h(BundleBytes(b)));
    ExportParts(h, b, o, now);
  }

  lemma ExportNames(h: Hasher, b: EvidenceBundle, o: Order, now: string)
    ensures var m := ToMandate(h, b, o, now);
      && GetOr(m, "karma_bundle_id", Null) == Str(BundleName(b))
      && GetOr(m, "karma_task_id", Null) == Str(b.taskId)
      && GetOr(m, "karma_schema_version", Null) == Str(b.schemaVersion)
      && GetOr(m, SIGNATURE_KEY, Null) == Null
  {
    hide Lookup, ToMandate, TopKeys, BundleName, Zip, IntentValues, CartValues, PaymentValues;
    ExportParts(h, b, o, now);
    ExportUnsigned(h, b, o, now);
  }

  /** Python's `a or b` on strings. */
  function Either(a: string, b: string): string
  {
    if a != "" then a else b
  }

  lemma OrOfStrings(a: string, b: string, repr: Json -> string)
    ensures PyStr(Or(Str(a), Str(b)), repr) == Either(a, b)
  {}

  lemma ListOfStrings(hashes: seq<string>)
    ensures PyList(StrList(hashes)) == Some(StrList(hashes).items)
  {}

  /** What reading an exported mandate back gives, field by field. */
  ghost function ReadBackFields(h: Hasher, b: EvidenceBundle, o: Order, now: string, later: string): ImportedFields
  {
    var taskId := Either(b.taskId, IntentId(b, o));
    var hashes := StrList(b.receiptHashes).items;
    ImportedFields(
      Either(BundleName(b), CartId(b, o)), taskId,
      Either(b.taskContractHash, h(taskId)),
      hashes, if hashes != [] then hashes[|hashes| - 1] else Str(h(BundleBytes(b))),
      Either(Either(b.createdAt, now), later), o.payer, "", Either(b.schemaVersion, BUNDLE_SCHEMA),
      h(BundleBytes(b)), Zip(PaymentKeys(), PaymentValues(b, o)), o.merchantRef)
  }

  lemma ReadBack(h: Hasher, b: EvidenceBundle, o: Order, now: string, later: string, repr: Json -> string)
    ensures FromMandate(h, ToMandate(h, b, o, now), later, repr) == Imported(ReadBackFields(h, b, o, now, later))
  {
    hide Zip, IntentId, CartId, PaymentId, BundleName, ToMandate, FromMandate, IntentKeys, CartKeys, PaymentKeys, IntentValues,
         CartValues, PaymentValues, BundleBytes, GetOr, Assemble, ReadBackFields;
    ReachParts(h, b, o, now, later, repr);
    ExportNames(h, b, o, now);
    CartReads(b, o);
    IntentReads(h, b, o, now);
    PaymentReads(b, o);
    AssembleExport(h, b, o, now, later, repr);
  }

  /** The values looked up in an exported mandate. */
  ghost function RawOf(b: EvidenceBundle, o: Order, now: string): Raw
  {
    Raw(Str(BundleName(b)), Str(CartId(b, o)), Str(b.taskId),
        Str(IntentId(b, o)), Str(b.taskContractHash), StrList(b.receiptHashes),
        Str(Either(b.createdAt, now)), Str(o.payer), Null, Str(b.schemaVersion), Str(o.merchantRef))
  }

  lemma AssembleExport(h: Hasher, b: EvidenceBundle, o: Order, now: string, later: string, repr: Json -> string)
    ensures Assemble(h, RawOf(b, o, now), Zip(PaymentKeys(), PaymentValues(b, o)), h(BundleBytes(b)), later, repr)
      == Imported(ReadBackFields(h, b, o, now, later))
  {
    hide Zip, IntentId, CartId, PaymentId, BundleName, PaymentKeys, PaymentValues, BundleBytes, Or, PyList, Either, StrList, IsHex64;
    OrOfStrings(BundleName(b), CartId(b, o), repr);
    OrOfStrings(b.taskId, IntentId(b, o), repr);
    OrOfStrings(b.taskContractHash, h(Either(b.taskId, IntentId(b, o))), repr);
    OrOfStrings(Either(b.createdAt, now), later, repr);
    OrOfStrings(b.schemaVersion, BUNDLE_SCHEMA, repr);
    OrOfNull(repr);
    ListOfStrings(b.receiptHashes);
  }

  lemma OrOfNull(repr: Json -> string)
    ensures PyStr(Or(Null, Str("")), repr) == ""
  {}

  /** Which fields of a bundle come back. */
  ghost predicate ComesBack(fields: ImportedFields, b: EvidenceBundle, digest: string)
  {
    && TextsBack(fields, b)
    && Arr(fields.receiptHashes) == StrList(b.receiptHashes)
    && (fields.finalResultHash == Str(b.finalResultHash) <==> b.finalResultHash == LastHash(b, digest))
    && fields.evidenceDigest == digest
  }

  ghost predicate TextsBack(fields: ImportedFields, b: EvidenceBundle)
  {
    && (fields.bundleId == b.bundleId <==> b.bundleId != "")
    && (fields.taskId == b.taskId <==> b.taskId != "")
    && (fields.taskContractHash == b.taskContractHash <==> b.taskContractHash != "")
    && (fields.createdAt == b.createdAt <==> b.createdAt != "")
    && (fields.schemaVersion == b.schemaVersion <==> b.schemaVersion != "")
  }

  /** The final result hash a mandate stands for: the last line item, or the evidence digest without any. */
  function LastHash(b: EvidenceBundle, digest: string): string
  {
    if b.receiptHashes != [] then b.receiptHashes[|b.receiptHashes| - 1] else digest
  }

  /** An exported mandate reads back; each field of the bundle comes back exactly when it is not
      empty, the receipt hashes always, the final result hash if it is the last of them (or, without
      receipts, the bundle's own digest). */
  lemma RoundTrip(h: Hasher, b: EvidenceBundle, o: Order, now: string, later: string, repr: Json -> string)
    requires now != ""
    ensures FromMandate(h, ToMandate(h, b, o, now), later, repr).Imported?
    ensures ComesBack(FromMandate(h, ToMandate(h, b, o, now), later, repr).fields, b, h(BundleBytes(b)))
  {
    hide ToMandate, FromMandate, BundleBytes, ReadBackFields, ComesBack;
    ReadBack(h, b, o, now, later, repr);
    ReadBackComesBack(h, b, o, now, later);
  }

  lemma EitherKeeps(a: string, b: string)
    requires b != ""
    ensures Either(a, b) == a <==> a != ""
  {}

  lemma NameKept(b: EvidenceBundle, cartId: string)
    requires cartId != ""
    ensures Either(BundleName(b), cartId) == b.bundleId <==> b.bundleId != ""
  {}

  lemma TimesKept(created: string, now: string, later: string)
    requires now != ""
    ensures Either(Either(created, now), later) == created <==> created != ""
  {}

  lemma ReadBackTexts(h: Hasher, b: EvidenceBundle, o: Order, now: string, later: string)
    requires now != ""
    ensures TextsBack(ReadBackFields(h, b, o, now, later), b)
  {
    hide Zip, IntentId, CartId, PaymentId, BundleName, PaymentKeys, PaymentValues, BundleBytes, Either, IsHex64, StrList;
    HasherNonEmpty(h, Either(b.taskId, IntentId(b, o)));
    NameKept(b, CartId(b, o));
    EitherKeeps(b.taskId, IntentId(b, o));
    EitherKeeps(b.taskContractHash, h(Either(b.taskId, IntentId(b, o))));
    TimesKept(b.createdAt, now, later);
    EitherKeeps(b.schemaVersion, BUNDLE_SCHEMA);
  }

  lemma ReadBackComesBack(h: Hasher, b: EvidenceBundle, o: Order, now: string, later: string)
    requires now != ""
    ensures ComesBack(ReadBackFields(h, b, o, now, later), b, h(BundleBytes(b)))
  {
    hide Zip, IntentId, CartId, BundleName, PaymentKeys, PaymentValues, BundleBytes, Either, IsHex64, StrList, LastHash,
         TextsBack;
    var fields, digest := ReadBackFields(h, b, o, now, later), h(BundleBytes(b));
    ReadBackTexts(h, b, o, now, later);
    LastOfList(b, digest);
    assert fields.receiptHashes == StrList(b.receiptHashes).items && fields.evidenceDigest == digest;
    assert fields.finalResultHash == Str(LastHash(b, digest));
  }

  lemma HasherNonEmpty(h: Hasher, s: string)
    ensures h(s) != ""
  {
    assert IsHex64(h(s));
  }

  lemma LastOfList(b: EvidenceBundle, digest: string)
    ensures var hashes := StrList(b.receiptHashes).items;
      (if hashes != [] then hashes[|hashes| - 1] else Str(digest)) == Str(LastHash(b, digest))
  {
    assert StrList(b.receiptHashes).items != [] <==> b.receiptHashes != [];
  }

  /** For a bundle built from at least one receipt, with non-empty ids and time, everything comes back. */
  lemma BuiltRoundTrip(h: Hasher, b: EvidenceBundle, o: Order, now: string, later: string, repr: Json -> string)
    requires now != "" && b.receiptHashes != [] && b.finalResultHash == b.receiptHashes[|b.receiptHashes| - 1]
    requires b.bundleId != "" && b.taskId != "" && b.createdAt != "" && b.taskContractHash != ""
    ensures var read := FromMandate(h, ToMandate(h, b, o, now), later, repr);
      && read.Imported? && read.fields.bundleId == b.bundleId && read.fields.taskId == b.taskId
      && Arr(read.fields.receiptHashes) == StrList(b.receiptHashes)
      && read.fields.taskContractHash == b.taskContractHash && read.fields.createdAt == b.createdAt
      && read.fields.finalResultHash == Str(b.finalResultHash)
  {
    hide ToMandate, FromMandate, BundleBytes;
    RoundTrip(h, b, o, now, later, repr);
  }
}
