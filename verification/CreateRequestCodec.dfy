/** Encoding and decoding of CreateOrderRequest, whose four keys are also keys of OrderDto. */
module CreateRequestCodec {
  import opened Domain
  import opened OrderDtos
  import opened JsonObjects
  import opened RequiredFields
  import opened OrderDtoCodec

  datatype CreateOrderRequest = CreateOrderRequest(
    hull: Uuid, engine: Uuid, shield: OptNil<Uuid>, weapon: OptNil<Uuid>)

  const REQUEST_NAMES: seq<string> := ["hull_uuid", "engine_uuid", "shield_uuid", "weapon_uuid"]

  const REQUEST_MASKS: seq<bv8> := [0x03]

  predicate InRequest(k: Key) {
    k in {HullUuid, EngineUuid, ShieldUuid, WeaponUuid}
  }

  /** Keys outside the request are skipped unread. */
  predicate FieldOk(t: Texts, f: Field) {
    InRequest(KeyOf(f.key)) ==> Readable(t, KeyOf(f.key), f.value)
  }

  predicate AllOk(t: Texts, fields: seq<Field>) {
    forall i :: 0 <= i < |fields| ==> FieldOk(t, fields[i])
  }

  /** The key of the first of the four keys' fields that cannot be read. */
  function FirstBadRequestKey(t: Texts, fields: seq<Field>): string
    requires !AllOk(t, fields)
  {
    var front := fields[..|fields| - 1];
    if !AllOk(t, front) then FirstBadRequestKey(t, front) else fields[|fields| - 1].key
  }

  lemma {:induction false} FirstBadRequestKeyAt(t: Texts, fields: seq<Field>, i: nat)
    requires i < |fields| && AllOk(t, fields[..i]) && !FieldOk(t, fields[i])
    ensures !AllOk(t, fields) && FirstBadRequestKey(t, fields) == fields[i].key
  {
    var front := fields[..|fields| - 1];
    if i < |front| {
      assert front[..i] == fields[..i];
      FirstBadRequestKeyAt(t, front, i);
    } else {
      assert front == fields[..i];
    }
  }

  function FilledRequest(t: Texts, fields: seq<Field>): CreateOrderRequest {
    CreateOrderRequest(
      UuidValue(t, LastValue(fields, HullUuid)),
      UuidValue(t, LastValue(fields, EngineUuid)),
      OptUuidValue(t, LastValue(fields, ShieldUuid)),
      OptUuidValue(t, LastValue(fields, WeaponUuid)))
  }

  datatype RequestDecoding =
    | DecodedRequest(request: CreateOrderRequest)
    | BadRequestField(key: string)
    | MissingRequest(names: seq<FieldName>)

  /** What decoding makes of a field list. */
  function RequestMeaning(t: Texts, fields: seq<Field>): RequestDecoding {
    if !AllOk(t, fields) then BadRequestField(FirstBadRequestKey(t, fields))
    else if MissingInRequest(fields) != [] then MissingRequest(MissingInRequest(fields))
    else DecodedRequest(FilledRequest(t, fields))
  }

  // ----- The meaning in the format's own terms -----

  /** Only the four keys ask anything of their value. */
  ghost predicate GoodRequestField(t: Texts, f: Field) {
    && (f.key == "hull_uuid" || f.key == "engine_uuid" ==> IsUuid(t, f.value))
    && (f.key == "shield_uuid" || f.key == "weapon_uuid" ==> f.value.JsonNull? || IsUuid(t, f.value))
  }

  ghost predicate FirstBadRequestAt(t: Texts, fields: seq<Field>, i: int) {
    0 <= i < |fields| && !GoodRequestField(t, fields[i]) && forall j :: 0 <= j < i ==> GoodRequestField(t, fields[j])
  }

  /**
   What decoding answers: the first unreadable field of the four keys, else the absent ones of hull and
   engine, else the request that the last fields describe.
   */
  ghost predicate ExplainsRequest(t: Texts, fields: seq<Field>, r: RequestDecoding) {
    match r
    case BadRequestField(key) => exists i :: FirstBadRequestAt(t, fields, i) && key == fields[i].key
    case MissingRequest(names) =>
      && (forall f :: f in fields ==> GoodRequestField(t, f))
      && names != [] && names == Lacks(fields, "hull_uuid") + Lacks(fields, "engine_uuid")
    case DecodedRequest(request) =>
      && (forall f :: f in fields ==> GoodRequestField(t, f))
      && HasKey(fields, "hull_uuid") && HasKey(fields, "engine_uuid")
      && UuidRead(t, fields, "hull_uuid", request.hull)
      && UuidRead(t, fields, "engine_uuid", request.engine)
      && OptUuidRead(t, fields, "shield_uuid", request.shield)
      && OptUuidRead(t, fields, "weapon_uuid", request.weapon)
  }

  lemma FieldOkIsGood(t: Texts, f: Field)
    ensures FieldOk(t, f) <==> GoodRequestField(t, f)
  {
    KeyOfIsName(f.key, HullUuid);
    KeyOfIsName(f.key, EngineUuid);
    KeyOfIsName(f.key, ShieldUuid);
    KeyOfIsName(f.key, WeaponUuid);
  }

  lemma {:induction false} FirstBadRequestIsFirst(t: Texts, fields: seq<Field>) returns (i: nat)
    requires !AllOk(t, fields)
    ensures FirstBadRequestAt(t, fields, i) && FirstBadRequestKey(t, fields) == fields[i].key
  {
    var front := fields[..|fields| - 1];
    if !AllOk(t, front) {
      i := FirstBadRequestIsFirst(t, front);
    } else {
      i := |front|;
      FieldOkIsGood(t, fields[i]);
      forall j | 0 <= j < i ensures GoodRequestField(t, fields[j]) {
        FieldOkIsGood(t, front[j]);
      }
    }
  }

  lemma {:induction false} LastIsOk(t: Texts, fields: seq<Field>, k: Key)
    requires AllOk(t, fields) && InRequest(k) && Present(fields, k)
    ensures Readable(t, k, LastValue(fields, k).value)
  {
    var front, last := fields[..|fields| - 1], fields[|fields| - 1];
    if KeyOf(last.key) != k {
      LastIsOk(t, front, k);
    } else {
      assert FieldOk(t, last);
    }
  }

  lemma RequestUuidRead(t: Texts, fields: seq<Field>, k: Key)
    requires AllOk(t, fields)
    ensures k == HullUuid || k == EngineUuid ==> UuidRead(t, fields, KeyName(k), UuidValue(t, LastValue(fields, k)))
    ensures k == ShieldUuid || k == WeaponUuid ==>
      OptUuidRead(t, fields, KeyName(k), OptUuidValue(t, LastValue(fields, k)))
  {
    if InRequest(k) {
      LastValueIsLast(fields, k);
      if Present(fields, k) {
        LastIsOk(t, fields, k);
      }
    }
  }

  /** Decoding does what the four keys' names and the UUID library say, for every field list. */
  lemma RequestExplained(t: Texts, fields: seq<Field>)
    ensures ExplainsRequest(t, fields, RequestMeaning(t, fields))
  {
    if !AllOk(t, fields) {
      var i := FirstBadRequestIsFirst(t, fields);
      assert FirstBadRequestAt(t, fields, i);
    } else {
      forall f | f in fields ensures GoodRequestField(t, f) {
        FieldOkIsGood(t, f);
      }
      AbsentIsLacking(fields, HullUuid);
      AbsentIsLacking(fields, EngineUuid);
      RequestUuidRead(t, fields, HullUuid);
      RequestUuidRead(t, fields, EngineUuid);
      RequestUuidRead(t, fields, ShieldUuid);
      RequestUuidRead(t, fields, WeaponUuid);
    }
  }

  /** A request is accepted exactly if hull and engine are there and every one of the four keys can be read. */
  lemma RequestAcceptedIff(t: Texts, fields: seq<Field>)
    ensures RequestMeaning(t, fields).DecodedRequest? <==>
      && HasKey(fields, "hull_uuid") && HasKey(fields, "engine_uuid")
      && forall f :: f in fields ==> GoodRequestField(t, f)
  {
    RequestExplained(t, fields);
  }

  // ----- Decode -----

  function StepRequest(t: Texts, r: CreateOrderRequest, f: Field): Option<CreateOrderRequest> {
    var k, v := KeyOf(f.key), f.value;
    if !FieldOk(t, f) then None
    else match k
      case HullUuid => Some(r.(hull := DecodeUuid(t, v).value))
      case EngineUuid => Some(r.(engine := DecodeUuid(t, v).value))
      case ShieldUuid => Some(r.(shield := OptUuidValue(t, Some(v))))
      case WeaponUuid => Some(r.(weapon := OptUuidValue(t, Some(v))))
      case _ => Some(r)
  }

  lemma FilledRequestStep(t: Texts, fields: seq<Field>, f: Field)
    requires FieldOk(t, f)
    ensures StepRequest(t, FilledRequest(t, fields), f) == Some(FilledRequest(t, fields + [f]))
  {
  }

  function RequestWord(k: Key): bv8 {
    match k
    case HullUuid => 0x01
    case EngineUuid => 0x02
    case _ => 0
  }

  ghost predicate TracksRequest(b: bv8, fields: seq<Field>) {
    (b & 0x01 != 0 <==> Present(fields, HullUuid)) && (b & 0x02 != 0 <==> Present(fields, EngineUuid))
  }

  lemma TracksRequestStep(b: bv8, fields: seq<Field>, f: Field)
    requires TracksRequest(b, fields)
    ensures TracksRequest(b | RequestWord(KeyOf(f.key)), fields + [f])
  {
  }

  function MissingInRequest(fields: seq<Field>): seq<FieldName> {
    Absent(fields, HullUuid) + Absent(fields, EngineUuid)
  }

  lemma RequestWordNames(b: bv8, fields: seq<Field>)
    requires TracksRequest(b, fields)
    ensures WordFailures(0, MissingBits(b, 0x03), REQUEST_NAMES) == MissingInRequest(fields)
  {
    SecondWordMissing(b);
    WordFailuresConcat(0, If(b & 0x01 == 0, 0), If(b & 0x02 == 0, 1), REQUEST_NAMES);
    RequestFailure(b & 0x01 == 0, 0, fields, HullUuid);
    RequestFailure(b & 0x02 == 0, 1, fields, EngineUuid);
  }

  lemma RequestBitsName(bitsets: seq<bv8>, masks: seq<bv8>, fields: seq<Field>)
    requires |bitsets| == |masks| == 1 && masks[0] == 0x03
    requires TracksRequest(bitsets[0], fields)
    ensures FailuresUpTo(bitsets, masks, REQUEST_NAMES, |masks|) == MissingInRequest(fields)
  {
    RequestWordNames(bitsets[0], fields);
    OneWord(bitsets, masks, REQUEST_NAMES);
  }

  lemma RequestFailure(c: bool, i: nat, fields: seq<Field>, k: Key)
    requires i < |REQUEST_NAMES| && REQUEST_NAMES[i] == KeyName(k)
    requires c <==> !Present(fields, k)
    ensures WordFailures(0, If(c, i), REQUEST_NAMES) == Absent(fields, k)
  {
  }

  lemma OneWord(bitsets: seq<bv8>, masks: seq<bv8>, names: seq<string>)
    requires |bitsets| == |masks| == 1
    ensures FailuresUpTo(bitsets, masks, names, |masks|) == WordFailures(0, MissingBits(bitsets[0], masks[0]), names)
  {
  }

  method DecodeRequest(t: Texts, fields: seq<Field>) returns (r: RequestDecoding)
    ensures r == RequestMeaning(t, fields)
    ensures ExplainsRequest(t, fields, r)
    ensures r.BadRequestField? <==> !AllOk(t, fields)
    ensures r.DecodedRequest? <==> AllOk(t, fields) && Present(fields, HullUuid) && Present(fields, EngineUuid)
    ensures r.DecodedRequest? ==> r.request == FilledRequest(t, fields)
    ensures r.MissingRequest? ==> r.names == MissingInRequest(fields)
  {
    RequestExplained(t, fields);
    var request := CreateOrderRequest(NIL_UUID, NIL_UUID, NO_UUID, NO_UUID);
    var bits: bv8 := 0;
    for i := 0 to |fields|
      invariant request == FilledRequest(t, fields[..i])
      invariant AllOk(t, fields[..i])
      invariant TracksRequest(bits, fields[..i])
    {
      var f := fields[i];
      assert fields[..i + 1] == fields[..i] + [f];
      TracksRequestStep(bits, fields[..i], f);
      bits := bits | RequestWord(KeyOf(f.key));
      var stepped := StepRequest(t, request, f);
      if stepped.None? {
        FirstBadRequestKeyAt(t, fields, i);
        return BadRequestField(f.key);
      }
      FilledRequestStep(t, fields[..i], f);
      request := stepped.value;
    }
    assert fields[..|fields|] == fields;
    var failures := MissingFields([bits], REQUEST_MASKS, REQUEST_NAMES);
    RequestBitsName([bits], REQUEST_MASKS, fields);
    if |failures| > 0 {
      return MissingRequest(failures);
    }
    return DecodedRequest(request);
  }

  /** The request as the field list of an order object that has only these four keys. */
  function RequestFields(t: Texts, r: CreateOrderRequest): seq<Field> {
    FieldsFor(t, AsDto(r), [HullUuid, EngineUuid, ShieldUuid, WeaponUuid])
  }

  function AsDto(r: CreateOrderRequest): OrderDto {
    OrderDto(NIL_UUID, r.hull, r.engine, r.shield, r.weapon, 0, NO_UUID, NO_METHOD, "", 0)
  }

  method EncodeRequest(t: Texts, r: CreateOrderRequest) returns (fields: seq<Field>)
    ensures fields == RequestFields(t, r)
  {
    fields := [
      Field("hull_uuid", JsonString(t.uuidText(r.hull))),
      Field("engine_uuid", JsonString(t.uuidText(r.engine)))];
    var keys := [HullUuid, EngineUuid, ShieldUuid, WeaponUuid];
    assert keys[..1][..0] == [] && keys[..2][..1] == keys[..1];
    assert keys[..3][..2] == keys[..2] && keys[..4][..3] == keys[..3];
    assert FieldsFor(t, AsDto(r), keys[..1]) == fields[..1];
    assert FieldsFor(t, AsDto(r), keys[..2]) == fields;
    var shield := OptJson(r.shield, t.uuidText);
    if shield.Some? {
      fields := fields + [Field("shield_uuid", shield.value)];
    }
    assert FieldsFor(t, AsDto(r), keys[..3]) == fields;
    var weapon := OptJson(r.weapon, t.uuidText);
    if weapon.Some? {
      fields := fields + [Field("weapon_uuid", weapon.value)];
    }
    assert keys[..4] == keys;
  }

  function CanonicalRequestOf(r: CreateOrderRequest): CreateOrderRequest {
    r.(shield := CanonicalForm(r.shield, NIL_UUID), weapon := CanonicalForm(r.weapon, NIL_UUID))
  }

  lemma RequestFromEncoded(t: Texts, r: CreateOrderRequest, fields: seq<Field>)
    requires Faithful(t)
    requires forall k | InRequest(k) :: LastValue(fields, k) == EncodedValue(t, AsDto(r), k)
    ensures FilledRequest(t, fields) == CanonicalRequestOf(r) && MissingInRequest(fields) == []
  {
  }

  /** What is encoded can be decoded, and comes back exactly when the optionals are canonical. */
  lemma RequestRoundTrip(t: Texts, r: CreateOrderRequest)
    requires Faithful(t)
    ensures RequestMeaning(t, RequestFields(t, r)) == DecodedRequest(CanonicalRequestOf(r))
    ensures RequestMeaning(t, RequestFields(t, r)) == DecodedRequest(r) <==>
      Canonical(r.shield, NIL_UUID) && Canonical(r.weapon, NIL_UUID)
  {
    var keys := [HullUuid, EngineUuid, ShieldUuid, WeaponUuid];
    EncodedReadable(t, AsDto(r), keys);
    forall k | InRequest(k) ensures LastValue(RequestFields(t, r), k) == EncodedValue(t, AsDto(r), k) {
      EncodedLastValue(t, AsDto(r), keys, k);
      assert keys[0] == HullUuid && keys[1] == EngineUuid && keys[2] == ShieldUuid && keys[3] == WeaponUuid;
    }
    RequestFromEncoded(t, r, RequestFields(t, r));
  }

  // ----- Only the values of the four keys matter -----

  /** None of the four keys occurs with two different values; any other key may. */
  ghost predicate OneValuePerRequestKey(fields: seq<Field>) {
    forall k: Key :: InRequest(k) ==> OneValue(fields, k)
  }

  ghost predicate SameRequestOutcome(a: RequestDecoding, b: RequestDecoding) {
    a == b || (a.BadRequestField? && b.BadRequestField?)
  }

  /** Reordering the fields of a request does not change what it decodes to. */
  lemma RequestOrderIsIrrelevant(t: Texts, a: seq<Field>, b: seq<Field>)
    requires multiset(a) == multiset(b) && OneValuePerRequestKey(a)
    ensures SameRequestOutcome(RequestMeaning(t, a), RequestMeaning(t, b))
    ensures AllOk(t, a) <==> AllOk(t, b)
    ensures FilledRequest(t, a) == FilledRequest(t, b) && MissingInRequest(a) == MissingInRequest(b)
  {
    assert forall f :: f in a <==> f in multiset(a);
    assert forall f :: f in b <==> f in multiset(b);
    forall k: Key | InRequest(k) ensures LastValue(a, k) == LastValue(b, k) {
      SameLookup(a, b, k);
    }
    OkByMembers(t, a, b);
    OkByMembers(t, b, a);
  }

  lemma {:induction false} OkSkipsOtherKeys(t: Texts, a: seq<Field>, f: Field, b: seq<Field>)
    requires !InRequest(KeyOf(f.key))
    ensures AllOk(t, a + [f] + b) <==> AllOk(t, a + b)
    ensures !AllOk(t, a + b) ==> FirstBadRequestKey(t, a + [f] + b) == FirstBadRequestKey(t, a + b)
  {
    if b == [] {
      assert a + [f] + b == a + [f] && a + b == a;
      assert (a + [f])[..|a|] == a;
    } else {
      var front, last := b[..|b| - 1], b[|b| - 1];
      assert a + [f] + b == a + [f] + front + [last] && a + b == a + front + [last];
      assert (a + [f] + b)[..|a| + |b|] == a + [f] + front;
      assert (a + b)[..|a| + |b| - 1] == a + front;
      OkSkipsOtherKeys(t, a, f, front);
    }
  }

  /** A field outside the four keys, even one that OrderDto knows, changes nothing wherever it stands. */
  lemma OtherKeysAreSkipped(t: Texts, a: seq<Field>, f: Field, b: seq<Field>)
    requires !InRequest(KeyOf(f.key))
    ensures RequestMeaning(t, a + [f] + b) == RequestMeaning(t, a + b)
  {
    OkSkipsOtherKeys(t, a, f, b);
    LookupSkips(a, f, b, HullUuid);
    LookupSkips(a, f, b, EngineUuid);
    LookupSkips(a, f, b, ShieldUuid);
    LookupSkips(a, f, b, WeaponUuid);
  }

  lemma OkByMembers(t: Texts, a: seq<Field>, b: seq<Field>)
    requires forall f :: f in b ==> f in a
    ensures AllOk(t, a) ==> AllOk(t, b)
  {
    if AllOk(t, a) {
      forall i | 0 <= i < |b| ensures FieldOk(t, b[i]) {
        assert b[i] in b;
        var j :| 0 <= j < |a| && a[j] == b[i];
      }
    }
  }
}
