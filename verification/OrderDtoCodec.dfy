/** Encoding and decoding of OrderDto. */
module OrderDtoCodec {
  import opened Domain
  import opened OrderDtos
  import opened JsonObjects
  import opened RequiredFields

  const FIELD_NAMES: seq<string> := [
    "order_uuid", "hull_uuid", "engine_uuid", "shield_uuid", "weapon_uuid",
    "total_price", "transaction_uuid", "payment_method", "status", "created_at"]

  const REQUIRED_MASKS: seq<bv8> := [0x27, 0x03]

  datatype Key =
    | OrderUuid | HullUuid | EngineUuid | ShieldUuid | WeaponUuid
    | TotalPrice | TransactionUuid | Method | Status | CreatedAt | Unknown

  /** The switch on the key. */
  function KeyOf(k: string): Key {
    if k == "order_uuid" then OrderUuid
    else if k == "hull_uuid" then HullUuid
    else if k == "engine_uuid" then EngineUuid
    else if k == "shield_uuid" then ShieldUuid
    else if k == "weapon_uuid" then WeaponUuid
    else if k == "total_price" then TotalPrice
    else if k == "transaction_uuid" then TransactionUuid
    else if k == "payment_method" then Method
    else if k == "status" then Status
    else if k == "created_at" then CreatedAt
    else Unknown
  }

  function KeyName(k: Key): string {
    match k
    case OrderUuid => "order_uuid"
    case HullUuid => "hull_uuid"
    case EngineUuid => "engine_uuid"
    case ShieldUuid => "shield_uuid"
    case WeaponUuid => "weapon_uuid"
    case TotalPrice => "total_price"
    case TransactionUuid => "transaction_uuid"
    case Method => "payment_method"
    case Status => "status"
    case CreatedAt => "created_at"
    case Unknown => ""
  }

  const ALL_KEYS: seq<Key> := [
    OrderUuid, HullUuid, EngineUuid, ShieldUuid, WeaponUuid, TotalPrice, TransactionUuid, Method, Status, CreatedAt]

  lemma KeyNamesDiffer(k: Key)
    ensures KeyOf(KeyName(k)) == k
  {
  }

  // ----- The meaning of a field list -----

  /** The value of the last field with this key: later duplicates win. */
  function LastValue(fields: seq<Field>, k: Key): Option<Json> {
    if fields == [] then None
    else if KeyOf(fields[|fields| - 1].key) == k then Some(fields[|fields| - 1].value)
    else LastValue(fields[..|fields| - 1], k)
  }

  predicate Readable(t: Texts, k: Key, v: Json) {
    match k
    case OrderUuid => DecodeUuid(t, v).Some?
    case HullUuid => DecodeUuid(t, v).Some?
    case EngineUuid => DecodeUuid(t, v).Some?
    case ShieldUuid => v.JsonNull? || DecodeUuid(t, v).Some?
    case WeaponUuid => v.JsonNull? || DecodeUuid(t, v).Some?
    case TotalPrice => DecodeInt64(v).Some?
    case TransactionUuid => v.JsonNull? || DecodeUuid(t, v).Some?
    case Method => v.JsonNull? || DecodeString(v).Some?
    case Status => DecodeString(v).Some?
    case CreatedAt => DecodeTime(t, v).Some?
    case Unknown => true
  }

  predicate AllReadable(t: Texts, fields: seq<Field>) {
    forall i :: 0 <= i < |fields| ==> Readable(t, KeyOf(fields[i].key), fields[i].value)
  }

  /** The key of the first field that cannot be read. */
  function FirstBadKey(t: Texts, fields: seq<Field>): string
    requires !AllReadable(t, fields)
  {
    var front := fields[..|fields| - 1];
    if !AllReadable(t, front) then FirstBadKey(t, front) else fields[|fields| - 1].key
  }

  lemma {:induction false} FirstBadKeyAt(t: Texts, fields: seq<Field>, i: nat)
    requires i < |fields| && AllReadable(t, fields[..i]) && !Readable(t, KeyOf(fields[i].key), fields[i].value)
    ensures !AllReadable(t, fields) && FirstBadKey(t, fields) == fields[i].key
  {
    var front := fields[..|fields| - 1];
    if i < |front| {
      assert front[..i] == fields[..i];
      FirstBadKeyAt(t, front, i);
    } else {
      assert front == fields[..i];
    }
  }

  function OrZero<T>(o: Option<T>, zero: T): T {
    if o.Some? then o.value else zero
  }

  function UuidValue(t: Texts, v: Option<Json>): Uuid {
    if v.Some? then OrZero(DecodeUuid(t, v.value), NIL_UUID) else NIL_UUID
  }

  function OptUuidValue(t: Texts, v: Option<Json>): OptNil<Uuid> {
    if v.None? then NO_UUID
    else if v.value.JsonNull? then OptNil(NIL_UUID, true, true)
    else OptNil(OrZero(DecodeUuid(t, v.value), NIL_UUID), true, false)
  }

  function OptTextValue(v: Option<Json>): OptNil<string> {
    if v.None? then NO_METHOD
    else if v.value.JsonNull? then OptNil("", true, true)
    else OptNil(OrZero(DecodeString(v.value), ""), true, false)
  }

  /** The object the known fields describe; whatever is absent keeps its zero value. */
  function Filled(t: Texts, fields: seq<Field>): OrderDto {
    OrderDto(
      UuidValue(t, LastValue(fields, OrderUuid)),
      UuidValue(t, LastValue(fields, HullUuid)),
      UuidValue(t, LastValue(fields, EngineUuid)),
      OptUuidValue(t, LastValue(fields, ShieldUuid)),
      OptUuidValue(t, LastValue(fields, WeaponUuid)),
      if LastValue(fields, TotalPrice).Some? then OrZero(DecodeInt64(LastValue(fields, TotalPrice).value), 0) else 0,
      OptUuidValue(t, LastValue(fields, TransactionUuid)),
      OptTextValue(LastValue(fields, Method)),
      if LastValue(fields, Status).Some? then OrZero(DecodeString(LastValue(fields, Status).value), "") else "",
      if LastValue(fields, CreatedAt).Some? then OrZero(DecodeTime(t, LastValue(fields, CreatedAt).value), 0) else 0)
  }

  predicate Present(fields: seq<Field>, k: Key) {
    LastValue(fields, k).Some?
  }

  const REQUIRED_KEYS: seq<Key> := [OrderUuid, HullUuid, EngineUuid, TotalPrice, Status, CreatedAt]

  ghost predicate Complete(fields: seq<Field>) {
    forall k :: k in REQUIRED_KEYS ==> Present(fields, k)
  }

  datatype Decoding = Decoded(dto: OrderDto) | BadField(key: string) | Missing(names: seq<FieldName>)

  /** What Decode makes of a field list. */
  function Meaning(t: Texts, fields: seq<Field>): Decoding {
    if !AllReadable(t, fields) then BadField(FirstBadKey(t, fields))
    else if MissingNames(fields) != [] then Missing(MissingNames(fields))
    else Decoded(Filled(t, fields))
  }

  lemma UnreadableMeaning(t: Texts, fields: seq<Field>, i: nat)
    requires i < |fields| && AllReadable(t, fields[..i]) && !Readable(t, KeyOf(fields[i].key), fields[i].value)
    ensures Meaning(t, fields) == BadField(fields[i].key)
  {
    FirstBadKeyAt(t, fields, i);
  }

  // ----- The meaning in the format's own terms -----

  predicate HasKey(fields: seq<Field>, key: string) {
    exists f :: f in fields && f.key == key
  }

  /** Position `i` holds the last field with this key. */
  ghost predicate LastAt(fields: seq<Field>, key: string, i: int) {
    0 <= i < |fields| && fields[i].key == key && forall j :: i < j < |fields| ==> fields[j].key != key
  }

  /** The value is a string that the UUID library can read. */
  ghost predicate IsUuid(t: Texts, v: Json) {
    v.JsonString? && t.parseUuid(v.text).Some?
  }

  /** What each key asks of its value; any other key takes any value. */
  ghost predicate GoodField(t: Texts, f: Field) {
    && (f.key == "order_uuid" || f.key == "hull_uuid" || f.key == "engine_uuid" ==> IsUuid(t, f.value))
    && (f.key == "shield_uuid" || f.key == "weapon_uuid" || f.key == "transaction_uuid" ==>
         f.value.JsonNull? || IsUuid(t, f.value))
    && (f.key == "total_price" ==>
         f.value.JsonNumber? && -0x8000_0000_0000_0000 <= f.value.value < 0x8000_0000_0000_0000)
    && (f.key == "payment_method" ==> f.value.JsonNull? || f.value.JsonString?)
    && (f.key == "status" ==> f.value.JsonString?)
    && (f.key == "created_at" ==> f.value.JsonString? && t.parseTime(f.value.text).Some?)
  }

  ghost predicate GoodFields(t: Texts, fields: seq<Field>) {
    forall f :: f in fields ==> GoodField(t, f)
  }

  /** `u` is what the last field with the key says. */
  ghost predicate UuidRead(t: Texts, fields: seq<Field>, key: string, u: Uuid) {
    forall i :: LastAt(fields, key, i) ==>
      fields[i].value.JsonString? && t.parseUuid(fields[i].value.text) == Some(u)
  }

  /** The optional is null or set as the last field with the key says, and not set without one. */
  ghost predicate OptUuidRead(t: Texts, fields: seq<Field>, key: string, o: OptNil<Uuid>) {
    && (!HasKey(fields, key) ==> o == OptNil(NIL_UUID, false, false))
    && forall i :: LastAt(fields, key, i) ==>
      if fields[i].value.JsonNull? then o == OptNil(NIL_UUID, true, true)
      else fields[i].value.JsonString? && t.parseUuid(fields[i].value.text) == Some(o.value) && o.isSet && !o.isNull
  }

  ghost predicate OptTextRead(fields: seq<Field>, key: string, o: OptNil<string>) {
    && (!HasKey(fields, key) ==> o == OptNil("", false, false))
    && forall i :: LastAt(fields, key, i) ==>
      if fields[i].value.JsonNull? then o == OptNil("", true, true)
      else fields[i].value == JsonString(o.value) && o.isSet && !o.isNull
  }

  ghost predicate TimeRead(t: Texts, fields: seq<Field>, key: string, at: Time) {
    forall i :: LastAt(fields, key, i) ==>
      fields[i].value.JsonString? && t.parseTime(fields[i].value.text) == Some(at)
  }

  ghost predicate ValueRead(fields: seq<Field>, key: string, v: Json) {
    forall i :: LastAt(fields, key, i) ==> fields[i].value == v
  }

  /** The object says what the last field of each key says. */
  ghost predicate DescribedBy(t: Texts, fields: seq<Field>, d: OrderDto) {
    && UuidRead(t, fields, "order_uuid", d.orderUuid)
    && UuidRead(t, fields, "hull_uuid", d.hull)
    && UuidRead(t, fields, "engine_uuid", d.engine)
    && OptUuidRead(t, fields, "shield_uuid", d.shield)
    && OptUuidRead(t, fields, "weapon_uuid", d.weapon)
    && ValueRead(fields, "total_price", JsonNumber(d.totalPrice as int))
    && OptUuidRead(t, fields, "transaction_uuid", d.transaction)
    && OptTextRead(fields, "payment_method", d.paymentMethod)
    && ValueRead(fields, "status", JsonString(d.status))
    && TimeRead(t, fields, "created_at", d.createdAt)
  }

  /** Position `i` holds the first field whose value its key does not take. */
  ghost predicate FirstBadAt(t: Texts, fields: seq<Field>, i: int) {
    0 <= i < |fields| && !GoodField(t, fields[i]) && forall j :: 0 <= j < i ==> GoodField(t, fields[j])
  }

  /** The name of a key that is absent. */
  function Lacks(fields: seq<Field>, key: string): seq<FieldName> {
    if HasKey(fields, key) then [] else [Named(key)]
  }

  /**
   What decoding answers: the first unreadable field, else the absent required keys in order, else the
   object that the last fields describe.
   */
  ghost predicate Explains(t: Texts, fields: seq<Field>, r: Decoding) {
    match r
    case BadField(key) => exists i :: FirstBadAt(t, fields, i) && key == fields[i].key
    case Missing(names) =>
      && GoodFields(t, fields) && names != []
      && names == Lacks(fields, "order_uuid") + Lacks(fields, "hull_uuid") + Lacks(fields, "engine_uuid")
           + Lacks(fields, "total_price") + Lacks(fields, "status") + Lacks(fields, "created_at")
    case Decoded(dto) =>
      && GoodFields(t, fields)
      && HasKey(fields, "order_uuid") && HasKey(fields, "hull_uuid") && HasKey(fields, "engine_uuid")
      && HasKey(fields, "total_price") && HasKey(fields, "status") && HasKey(fields, "created_at")
      && DescribedBy(t, fields, dto)
  }

  lemma KeyOfIsName(key: string, k: Key)
    ensures k != Unknown ==> (KeyOf(key) == k <==> key == KeyName(k))
  {
    KeyNamesDiffer(k);
  }

  /** The value of a key is that of the last field with its name. */
  lemma {:induction false} LastValueIsLast(fields: seq<Field>, k: Key)
    requires k != Unknown
    ensures Present(fields, k) <==> HasKey(fields, KeyName(k))
    ensures forall i :: LastAt(fields, KeyName(k), i) ==> LastValue(fields, k) == Some(fields[i].value)
    ensures Present(fields, k) ==> exists i :: LastAt(fields, KeyName(k), i)
  {
    if fields != [] {
      var front, last := fields[..|fields| - 1], fields[|fields| - 1];
      KeyOfIsName(last.key, k);
      assert fields == front + [last];
      if last.key == KeyName(k) {
        assert last in fields && LastAt(fields, KeyName(k), |front|);
      } else {
        LastValueIsLast(front, k);
        forall i ensures LastAt(fields, KeyName(k), i) <==> LastAt(front, KeyName(k), i) {
        }
      }
    }
  }

  lemma ReadableIsGood(t: Texts, f: Field)
    ensures Readable(t, KeyOf(f.key), f.value) <==> GoodField(t, f)
  {
    var k := KeyOf(f.key);
    forall other: Key ensures other != Unknown ==> (k == other <==> f.key == KeyName(other)) {
      KeyOfIsName(f.key, other);
    }
  }

  lemma AllReadableIsGood(t: Texts, fields: seq<Field>)
    ensures AllReadable(t, fields) <==> GoodFields(t, fields)
  {
    forall i | 0 <= i < |fields|
      ensures Readable(t, KeyOf(fields[i].key), fields[i].value) <==> GoodField(t, fields[i])
    {
      ReadableIsGood(t, fields[i]);
    }
  }

  lemma {:induction false} FirstUnreadable(t: Texts, fields: seq<Field>) returns (i: nat)
    requires !AllReadable(t, fields)
    ensures i < |fields| && AllReadable(t, fields[..i]) && !Readable(t, KeyOf(fields[i].key), fields[i].value)
  {
    var front := fields[..|fields| - 1];
    if !AllReadable(t, front) {
      i := FirstUnreadable(t, front);
      assert front[..i] == fields[..i];
    } else {
      i := |front|;
    }
  }

  lemma FirstBadIsFirst(t: Texts, fields: seq<Field>) returns (i: nat)
    requires !AllReadable(t, fields)
    ensures FirstBadAt(t, fields, i) && FirstBadKey(t, fields) == fields[i].key
  {
    i := FirstUnreadable(t, fields);
    FirstBadKeyAt(t, fields, i);
    ReadableIsGood(t, fields[i]);
    AllReadableIsGood(t, fields[..i]);
    forall j | 0 <= j < i ensures GoodField(t, fields[j]) {
      assert fields[..i][j] in fields[..i];
    }
  }

  lemma {:induction false} LastIsReadable(t: Texts, fields: seq<Field>, k: Key)
    requires AllReadable(t, fields) && Present(fields, k)
    ensures Readable(t, k, LastValue(fields, k).value)
  {
    var front := fields[..|fields| - 1];
    if KeyOf(fields[|fields| - 1].key) != k {
      LastIsReadable(t, front, k);
    }
  }

  lemma UuidIsRead(t: Texts, fields: seq<Field>, k: Key, key: string)
    requires AllReadable(t, fields) && key == KeyName(k)
    requires k == OrderUuid || k == HullUuid || k == EngineUuid
    ensures UuidRead(t, fields, key, UuidValue(t, LastValue(fields, k)))
  {
    LastValueIsLast(fields, k);
    if Present(fields, k) {
      LastIsReadable(t, fields, k);
    }
  }

  lemma OptUuidIsRead(t: Texts, fields: seq<Field>, k: Key, key: string)
    requires AllReadable(t, fields) && key == KeyName(k)
    requires k == ShieldUuid || k == WeaponUuid || k == TransactionUuid
    ensures OptUuidRead(t, fields, key, OptUuidValue(t, LastValue(fields, k)))
  {
    LastValueIsLast(fields, k);
    if Present(fields, k) {
      LastIsReadable(t, fields, k);
    }
  }

  lemma MethodIsRead(t: Texts, fields: seq<Field>)
    requires AllReadable(t, fields)
    ensures OptTextRead(fields, "payment_method", OptTextValue(LastValue(fields, Method)))
  {
    LastValueIsLast(fields, Method);
    if Present(fields, Method) {
      LastIsReadable(t, fields, Method);
    }
  }

  lemma TotalIsRead(t: Texts, fields: seq<Field>)
    requires AllReadable(t, fields)
    ensures ValueRead(fields, "total_price", JsonNumber(Filled(t, fields).totalPrice as int))
  {
    LastValueIsLast(fields, TotalPrice);
    if Present(fields, TotalPrice) {
      LastIsReadable(t, fields, TotalPrice);
    }
  }

  lemma StatusIsRead(t: Texts, fields: seq<Field>)
    requires AllReadable(t, fields)
    ensures ValueRead(fields, "status", JsonString(Filled(t, fields).status))
  {
    LastValueIsLast(fields, Status);
    if Present(fields, Status) {
      LastIsReadable(t, fields, Status);
    }
  }

  lemma TimeIsRead(t: Texts, fields: seq<Field>)
    requires AllReadable(t, fields)
    ensures TimeRead(t, fields, "created_at", Filled(t, fields).createdAt)
  {
    LastValueIsLast(fields, CreatedAt);
    if Present(fields, CreatedAt) {
      LastIsReadable(t, fields, CreatedAt);
    }
  }

  lemma FilledIsDescribed(t: Texts, fields: seq<Field>)
    requires AllReadable(t, fields)
    ensures DescribedBy(t, fields, Filled(t, fields))
  {
    UuidIsRead(t, fields, OrderUuid, "order_uuid");
    UuidIsRead(t, fields, HullUuid, "hull_uuid");
    UuidIsRead(t, fields, EngineUuid, "engine_uuid");
    OptUuidIsRead(t, fields, ShieldUuid, "shield_uuid");
    OptUuidIsRead(t, fields, WeaponUuid, "weapon_uuid");
    OptUuidIsRead(t, fields, TransactionUuid, "transaction_uuid");
    MethodIsRead(t, fields);
    TotalIsRead(t, fields);
    StatusIsRead(t, fields);
    TimeIsRead(t, fields);
  }

  lemma AbsentIsLacking(fields: seq<Field>, k: Key)
    requires k != Unknown
    ensures Absent(fields, k) == Lacks(fields, KeyName(k))
    ensures Absent(fields, k) == [] <==> HasKey(fields, KeyName(k))
  {
    LastValueIsLast(fields, k);
  }

  lemma MissingNamesAreLacking(fields: seq<Field>)
    ensures MissingNames(fields)
      == Lacks(fields, "order_uuid") + Lacks(fields, "hull_uuid") + Lacks(fields, "engine_uuid")
         + Lacks(fields, "total_price") + Lacks(fields, "status") + Lacks(fields, "created_at")
  {
    AbsentIsLacking(fields, OrderUuid);
    AbsentIsLacking(fields, HullUuid);
    AbsentIsLacking(fields, EngineUuid);
    AbsentIsLacking(fields, TotalPrice);
    AbsentIsLacking(fields, Status);
    AbsentIsLacking(fields, CreatedAt);
  }

  /** Decoding does what the keys' names and the libraries say, for every field list. */
  lemma MeaningExplained(t: Texts, fields: seq<Field>)
    ensures Explains(t, fields, Meaning(t, fields))
  {
    AllReadableIsGood(t, fields);
    if !AllReadable(t, fields) {
      var i := FirstBadIsFirst(t, fields);
      assert FirstBadAt(t, fields, i);
    } else {
      MissingNamesAreLacking(fields);
      FilledIsDescribed(t, fields);
    }
  }

  // ----- Decode -----

  /** One field into the receiver and the bit set. None is a value that cannot be read. */
  function Step(t: Texts, d: OrderDto, f: Field): Option<OrderDto> {
    var v := f.value;
    if !Readable(t, KeyOf(f.key), v) then None
    else match KeyOf(f.key)
      case OrderUuid => Some(d.(orderUuid := DecodeUuid(t, v).value))
      case HullUuid => Some(d.(hull := DecodeUuid(t, v).value))
      case EngineUuid => Some(d.(engine := DecodeUuid(t, v).value))
      case ShieldUuid => Some(d.(shield := OptUuidValue(t, Some(v))))
      case WeaponUuid => Some(d.(weapon := OptUuidValue(t, Some(v))))
      case TotalPrice => Some(d.(totalPrice := DecodeInt64(v).value))
      case TransactionUuid => Some(d.(transaction := OptUuidValue(t, Some(v))))
      case Method => Some(d.(paymentMethod := OptTextValue(Some(v))))
      case Status => Some(d.(status := DecodeString(v).value))
      case CreatedAt => Some(d.(createdAt := DecodeTime(t, v).value))
      case Unknown => Some(d)
  }

  lemma FilledStep(t: Texts, fields: seq<Field>, f: Field)
    requires Readable(t, KeyOf(f.key), f.value)
    ensures AllReadable(t, fields) ==> AllReadable(t, fields + [f])
    ensures Step(t, Filled(t, fields), f) == Some(Filled(t, fields + [f]))
  {
    assert (fields + [f])[..|fields|] == fields;
    forall k ensures LastValue(fields + [f], k) == if KeyOf(f.key) == k then Some(f.value) else LastValue(fields, k) {
    }
  }

  function FirstWord(k: Key): bv8 {
    match k
    case OrderUuid => 0x01
    case HullUuid => 0x02
    case EngineUuid => 0x04
    case TotalPrice => 0x20
    case _ => 0
  }

  function SecondWord(k: Key): bv8 {
    match k
    case Status => 0x01
    case CreatedAt => 0x02
    case _ => 0
  }

  /** The bits say which required keys have appeared. */
  ghost predicate Tracks(b0: bv8, b1: bv8, fields: seq<Field>) {
    && (b0 & 0x01 != 0 <==> Present(fields, OrderUuid))
    && (b0 & 0x02 != 0 <==> Present(fields, HullUuid))
    && (b0 & 0x04 != 0 <==> Present(fields, EngineUuid))
    && (b0 & 0x20 != 0 <==> Present(fields, TotalPrice))
    && (b1 & 0x01 != 0 <==> Present(fields, Status))
    && (b1 & 0x02 != 0 <==> Present(fields, CreatedAt))
  }

  lemma TracksStep(b0: bv8, b1: bv8, fields: seq<Field>, f: Field)
    requires Tracks(b0, b1, fields)
    ensures Tracks(b0 | FirstWord(KeyOf(f.key)), b1 | SecondWord(KeyOf(f.key)), fields + [f])
  {
    var k := KeyOf(f.key);
    WordStep(b0, b1, k);
    PresentStep(fields, f, OrderUuid);
    PresentStep(fields, f, HullUuid);
    PresentStep(fields, f, EngineUuid);
    PresentStep(fields, f, TotalPrice);
    PresentStep(fields, f, Status);
    PresentStep(fields, f, CreatedAt);
  }

  lemma PresentStep(fields: seq<Field>, f: Field, k: Key)
    ensures Present(fields + [f], k) <==> KeyOf(f.key) == k || Present(fields, k)
  {
  }

  lemma WordStep(b0: bv8, b1: bv8, k: Key)
    ensures (b0 | FirstWord(k)) & 0x01 != 0 <==> k == OrderUuid || b0 & 0x01 != 0
    ensures (b0 | FirstWord(k)) & 0x02 != 0 <==> k == HullUuid || b0 & 0x02 != 0
    ensures (b0 | FirstWord(k)) & 0x04 != 0 <==> k == EngineUuid || b0 & 0x04 != 0
    ensures (b0 | FirstWord(k)) & 0x20 != 0 <==> k == TotalPrice || b0 & 0x20 != 0
    ensures (b1 | SecondWord(k)) & 0x01 != 0 <==> k == Status || b1 & 0x01 != 0
    ensures (b1 | SecondWord(k)) & 0x02 != 0 <==> k == CreatedAt || b1 & 0x02 != 0
  {
  }

  // ----- The bit loop names exactly the absent required keys -----

  function Absent(fields: seq<Field>, k: Key): seq<FieldName> {
    if Present(fields, k) then [] else [Named(KeyName(k))]
  }

  /** The names of the required keys that never appeared, in the order of the name table. */
  function MissingNames(fields: seq<Field>): seq<FieldName> {
    (Absent(fields, OrderUuid) + Absent(fields, HullUuid) + Absent(fields, EngineUuid) + Absent(fields, TotalPrice))
    + (Absent(fields, Status) + Absent(fields, CreatedAt))
  }

  function If(c: bool, i: nat): seq<nat> {
    if c then [i] else []
  }

  /** Beyond the lowest three bits only bit 5 can be set. */
  lemma HighBits(w: bv8)
    requires !Has(w, 3) && !Has(w, 4) && !Has(w, 6) && !Has(w, 7)
    ensures BitsFrom(w, 3) == If(Has(w, 5), 5)
  {
    assert BitsFrom(w, 6) == [] by { assert BitsFrom(w, 7) == []; }
    assert BitsFrom(w, 5) == If(Has(w, 5), 5);
    assert BitsFrom(w, 4) == BitsFrom(w, 5);
  }

  lemma FirstWordMissing(b: bv8)
    ensures MissingBits(b, 0x27)
      == If(b & 0x01 == 0, 0) + If(b & 0x02 == 0, 1) + If(b & 0x04 == 0, 2) + If(b & 0x20 == 0, 5)
  {
    var w := Lacking(b, 0x27);
    assert w == 0x27 & !b;
    assert Has(w, 0) == (b & 0x01 == 0) && Has(w, 1) == (b & 0x02 == 0) && Has(w, 2) == (b & 0x04 == 0);
    assert Has(w, 5) == (b & 0x20 == 0) && !Has(w, 3) && !Has(w, 4) && !Has(w, 6) && !Has(w, 7);
    HighBits(w);
    assert BitsFrom(w, 2) == If(b & 0x04 == 0, 2) + If(b & 0x20 == 0, 5);
    assert BitsFrom(w, 1) == If(b & 0x02 == 0, 1) + BitsFrom(w, 2);
  }

  lemma SecondWordMissing(b: bv8)
    ensures MissingBits(b, 0x03) == If(b & 0x01 == 0, 0) + If(b & 0x02 == 0, 1)
  {
    var w := Lacking(b, 0x03);
    assert w == 0x03 & !b;
    assert Has(w, 0) == (b & 0x01 == 0) && Has(w, 1) == (b & 0x02 == 0) && !Has(w, 2) && !Has(w, 3);
    assert !Has(w, 4) && !Has(w, 5) && !Has(w, 6) && !Has(w, 7);
    assert BitsFrom(w, 6) == [] by { assert BitsFrom(w, 7) == []; }
    assert BitsFrom(w, 4) == [] by { assert BitsFrom(w, 5) == []; }
    assert BitsFrom(w, 2) == [] by { assert BitsFrom(w, 3) == []; }
    assert BitsFrom(w, 1) == If(b & 0x02 == 0, 1);
  }

  lemma {:induction false} WordFailuresConcat(word: nat, a: seq<nat>, b: seq<nat>, names: seq<string>)
    ensures WordFailures(word, a + b, names) == WordFailures(word, a, names) + WordFailures(word, b, names)
  {
    if b == [] {
      assert a + b == a;
    } else {
      assert (a + b)[..|a + b| - 1] == a + b[..|b| - 1];
      WordFailuresConcat(word, a, b[..|b| - 1], names);
    }
  }

  /** One bit of a word names one key. */
  lemma IfFailure(word: nat, c: bool, i: nat, fields: seq<Field>, k: Key)
    requires word * 8 + i < |ALL_KEYS| && ALL_KEYS[word * 8 + i] == k
    requires c <==> !Present(fields, k)
    ensures WordFailures(word, If(c, i), FIELD_NAMES) == Absent(fields, k)
  {
    NameTable(word * 8 + i);
  }

  /** The name table has the keys in order. */
  lemma NameTable(i: nat)
    requires i < |ALL_KEYS|
    ensures |FIELD_NAMES| == |ALL_KEYS| && FIELD_NAMES[i] == KeyName(ALL_KEYS[i])
  {
  }

  lemma FourFailures(a: seq<nat>, b: seq<nat>, c: seq<nat>, d: seq<nat>)
    ensures WordFailures(0, a + b + c + d, FIELD_NAMES)
      == WordFailures(0, a, FIELD_NAMES) + WordFailures(0, b, FIELD_NAMES)
         + WordFailures(0, c, FIELD_NAMES) + WordFailures(0, d, FIELD_NAMES)
  {
    WordFailuresConcat(0, a + b + c, d, FIELD_NAMES);
    WordFailuresConcat(0, a + b, c, FIELD_NAMES);
    WordFailuresConcat(0, a, b, FIELD_NAMES);
  }

  lemma FirstWordNames(b: bv8, fields: seq<Field>)
    requires (b & 0x01 != 0 <==> Present(fields, OrderUuid)) && (b & 0x02 != 0 <==> Present(fields, HullUuid))
    requires (b & 0x04 != 0 <==> Present(fields, EngineUuid)) && (b & 0x20 != 0 <==> Present(fields, TotalPrice))
    ensures WordFailures(0, MissingBits(b, 0x27), FIELD_NAMES)
      == Absent(fields, OrderUuid) + Absent(fields, HullUuid) + Absent(fields, EngineUuid) + Absent(fields, TotalPrice)
  {
    FirstWordMissing(b);
    FourFailures(If(b & 0x01 == 0, 0), If(b & 0x02 == 0, 1), If(b & 0x04 == 0, 2), If(b & 0x20 == 0, 5));
    IfFailure(0, b & 0x01 == 0, 0, fields, OrderUuid);
    IfFailure(0, b & 0x02 == 0, 1, fields, HullUuid);
    IfFailure(0, b & 0x04 == 0, 2, fields, EngineUuid);
    IfFailure(0, b & 0x20 == 0, 5, fields, TotalPrice);
  }

  lemma SecondWordNames(b: bv8, fields: seq<Field>)
    requires (b & 0x01 != 0 <==> Present(fields, Status)) && (b & 0x02 != 0 <==> Present(fields, CreatedAt))
    ensures WordFailures(1, MissingBits(b, 0x03), FIELD_NAMES) == Absent(fields, Status) + Absent(fields, CreatedAt)
  {
    SecondWordMissing(b);
    WordFailuresConcat(1, If(b & 0x01 == 0, 0), If(b & 0x02 == 0, 1), FIELD_NAMES);
    IfFailure(1, b & 0x01 == 0, 0, fields, Status);
    IfFailure(1, b & 0x02 == 0, 1, fields, CreatedAt);
  }

  lemma TwoWords(bitsets: seq<bv8>, masks: seq<bv8>, names: seq<string>)
    requires |bitsets| == |masks| == 2
    ensures FailuresUpTo(bitsets, masks, names, |masks|)
      == WordFailures(0, MissingBits(bitsets[0], masks[0]), names)
         + WordFailures(1, MissingBits(bitsets[1], masks[1]), names)
  {
    assert FailuresUpTo(bitsets, masks, names, |masks| - 2) == [];
    assert FailuresUpTo(bitsets, masks, names, |masks| - 1)
      == WordFailures(0, MissingBits(bitsets[0], masks[0]), names);
  }

  /** The bit loop reports exactly the required keys that never appeared. */
  lemma MissingAreNames(bitsets: seq<bv8>, masks: seq<bv8>, fields: seq<Field>)
    requires |bitsets| == |masks| == 2 && masks[0] == 0x27 && masks[1] == 0x03
    requires Tracks(bitsets[0], bitsets[1], fields)
    ensures FailuresUpTo(bitsets, masks, FIELD_NAMES, |masks|) == MissingNames(fields)
  {
    TwoWords(bitsets, masks, FIELD_NAMES);
    FirstWordNames(bitsets[0], fields);
    SecondWordNames(bitsets[1], fields);
  }

  lemma AbsentMember(fields: seq<Field>, k: Key, other: Key)
    ensures Named(KeyName(k)) in Absent(fields, other) <==> k == other && !Present(fields, k)
  {
    KeyNamesDiffer(k);
    KeyNamesDiffer(other);
  }

  lemma MissingNamesMember(fields: seq<Field>, k: Key)
    requires k in {OrderUuid, HullUuid, EngineUuid, TotalPrice, Status, CreatedAt}
    ensures Named(KeyName(k)) in MissingNames(fields) <==> !Present(fields, k)
  {
    forall other: Key ensures Named(KeyName(k)) in Absent(fields, other) <==> k == other && !Present(fields, k) {
      AbsentMember(fields, k, other);
    }
  }

  lemma DecodesIffGood(t: Texts, fields: seq<Field>)
    ensures Meaning(t, fields).Decoded? <==>
      && GoodFields(t, fields)
      && HasKey(fields, "order_uuid") && HasKey(fields, "hull_uuid") && HasKey(fields, "engine_uuid")
      && HasKey(fields, "total_price") && HasKey(fields, "status") && HasKey(fields, "created_at")
  {
    MeaningExplained(t, fields);
    AllReadableIsGood(t, fields);
    MissingNamesAreLacking(fields);
  }

  /** Decoding succeeds exactly when every known field can be read and every required key has appeared. */
  lemma DecodesIffComplete(t: Texts, fields: seq<Field>)
    ensures Meaning(t, fields).Decoded? <==> AllReadable(t, fields) && Complete(fields)
    ensures Meaning(t, fields).Decoded? <==>
      && GoodFields(t, fields)
      && HasKey(fields, "order_uuid") && HasKey(fields, "hull_uuid") && HasKey(fields, "engine_uuid")
      && HasKey(fields, "total_price") && HasKey(fields, "status") && HasKey(fields, "created_at")
    ensures Meaning(t, fields).Missing? ==>
      forall k :: k in REQUIRED_KEYS ==> (Named(KeyName(k)) in Meaning(t, fields).names <==> !Present(fields, k))
  {
    forall k | k in REQUIRED_KEYS ensures Named(KeyName(k)) in MissingNames(fields) <==> !Present(fields, k) {
      MissingNamesMember(fields, k);
    }
    DecodesIffGood(t, fields);
    assert REQUIRED_KEYS[0] == OrderUuid && REQUIRED_KEYS[1] == HullUuid && REQUIRED_KEYS[2] == EngineUuid;
    assert REQUIRED_KEYS[3] == TotalPrice && REQUIRED_KEYS[4] == Status && REQUIRED_KEYS[5] == CreatedAt;
  }

  const ZERO_DTO: OrderDto := OrderDto(NIL_UUID, NIL_UUID, NIL_UUID, NO_UUID, NO_UUID, 0, NO_UUID, NO_METHOD, "", 0)

  lemma NothingRead(t: Texts)
    ensures Filled(t, []) == ZERO_DTO && AllReadable(t, []) && Tracks(0, 0, [])
  {
  }

  method Decode(t: Texts, fields: seq<Field>) returns (r: Decoding)
    ensures r == Meaning(t, fields)
    ensures Explains(t, fields, r)
  {
    r := DecodeFields(t, fields);
    MeaningExplained(t, fields);
  }

  /** The loop over the fields, and the check of the bit set. */
  method DecodeFields(t: Texts, fields: seq<Field>) returns (r: Decoding)
    ensures r == Meaning(t, fields)
  {
    var dto := ZERO_DTO;
    NothingRead(t);
    assert fields[..0] == [];
    var bits0: bv8, bits1: bv8 := 0, 0;
    for i := 0 to |fields|
      invariant dto == Filled(t, fields[..i])
      invariant AllReadable(t, fields[..i])
      invariant Tracks(bits0, bits1, fields[..i])
    {
      var f := fields[i];
      assert fields[..i + 1] == fields[..i] + [f];
      TracksStep(bits0, bits1, fields[..i], f);
      bits0, bits1 := bits0 | FirstWord(KeyOf(f.key)), bits1 | SecondWord(KeyOf(f.key));
      var stepped := Step(t, dto, f);
      if stepped.None? {
        UnreadableMeaning(t, fields, i);
        return BadField(f.key);
      }
      FilledStep(t, fields[..i], f);
      dto := stepped.value;
    }
    assert fields[..|fields|] == fields;
    r := CheckRequired(t, fields, dto, bits0, bits1);
  }

  /** The end of Decode: list what is missing, or accept. */
  method CheckRequired(t: Texts, fields: seq<Field>, dto: OrderDto, bits0: bv8, bits1: bv8) returns (r: Decoding)
    requires AllReadable(t, fields) && dto == Filled(t, fields) && Tracks(bits0, bits1, fields)
    ensures r == Meaning(t, fields)
  {
    var failures := MissingFields([bits0, bits1], REQUIRED_MASKS, FIELD_NAMES);
    MissingAreNames([bits0, bits1], REQUIRED_MASKS, fields);
    if |failures| > 0 {
      return Missing(failures);
    }
    return Decoded(dto);
  }

  // ----- Encode -----

  function OptJson<T>(o: OptNil<T>, text: T -> string): Option<Json> {
    if !o.isSet then None
    else if o.isNull then Some(JsonNull)
    else Some(JsonString(text(o.value)))
  }

  /** The value written for a key, or nothing for an optional that is not set. */
  function EncodedValue(t: Texts, d: OrderDto, k: Key): Option<Json> {
    match k
    case OrderUuid => Some(JsonString(t.uuidText(d.orderUuid)))
    case HullUuid => Some(JsonString(t.uuidText(d.hull)))
    case EngineUuid => Some(JsonString(t.uuidText(d.engine)))
    case ShieldUuid => OptJson(d.shield, t.uuidText)
    case WeaponUuid => OptJson(d.weapon, t.uuidText)
    case TotalPrice => Some(JsonNumber(d.totalPrice as int))
    case TransactionUuid => OptJson(d.transaction, t.uuidText)
    case Method => OptJson(d.paymentMethod, s => s)
    case Status => Some(JsonString(d.status))
    case CreatedAt => Some(JsonString(t.timeText(d.createdAt)))
    case Unknown => None
  }

  function FieldsFor(t: Texts, d: OrderDto, keys: seq<Key>): seq<Field> {
    if keys == [] then []
    else
      var k := keys[|keys| - 1];
      FieldsFor(t, d, keys[..|keys| - 1])
        + match EncodedValue(t, d, k)
          case Some(v) => [Field(KeyName(k), v)]
          case None => []
  }

  /** FieldStart and the value, or nothing for an optional that is not set. */
  method WriteOptional(fields: seq<Field>, key: string, v: Option<Json>) returns (result: seq<Field>)
    ensures result == fields + match v case Some(json) => [Field(key, json)] case None => []
  {
    result := fields;
    if v.Some? {
      result := result + [Field(key, v.value)];
    }
  }

  lemma FieldsForNext(t: Texts, d: OrderDto, n: nat)
    requires n < |ALL_KEYS|
    ensures FieldsFor(t, d, ALL_KEYS[..n + 1]) == FieldsFor(t, d, ALL_KEYS[..n])
      + match EncodedValue(t, d, ALL_KEYS[n]) case Some(v) => [Field(KeyName(ALL_KEYS[n]), v)] case None => []
  {
    assert ALL_KEYS[..n + 1][..n] == ALL_KEYS[..n];
  }

  method Encode(t: Texts, d: OrderDto) returns (fields: seq<Field>)
    ensures fields == FieldsFor(t, d, ALL_KEYS) && KeysOnce(fields)
  {
    fields := WriteParts(t, d);
    fields := WritePayment(t, d, fields);
    fields := fields + [Field("status", JsonString(d.status))];
    FieldsForNext(t, d, 8);
    fields := fields + [Field("created_at", JsonString(t.timeText(d.createdAt)))];
    FieldsForNext(t, d, 9);
    assert ALL_KEYS[..10] == ALL_KEYS;
    EncodedOnce(t, d, ALL_KEYS);
  }

  /** The three fields of Encode on the total and the payment. */
  method WritePayment(t: Texts, d: OrderDto, before: seq<Field>) returns (fields: seq<Field>)
    requires before == FieldsFor(t, d, ALL_KEYS[..5])
    ensures fields == FieldsFor(t, d, ALL_KEYS[..8])
  {
    fields := before + [Field("total_price", JsonNumber(d.totalPrice as int))];
    FieldsForNext(t, d, 5);
    fields := WriteOptional(fields, "transaction_uuid", OptJson(d.transaction, t.uuidText));
    FieldsForNext(t, d, 6);
    fields := WriteOptional(fields, "payment_method", OptJson(d.paymentMethod, s => s));
    FieldsForNext(t, d, 7);
  }

  /** The first five fields of Encode. */
  method WriteParts(t: Texts, d: OrderDto) returns (fields: seq<Field>)
    ensures fields == FieldsFor(t, d, ALL_KEYS[..5])
  {
    fields := WriteRequired(t, d);
    fields := WriteOptional(fields, "shield_uuid", OptJson(d.shield, t.uuidText));
    FieldsForNext(t, d, 3);
    fields := WriteOptional(fields, "weapon_uuid", OptJson(d.weapon, t.uuidText));
    FieldsForNext(t, d, 4);
  }

  /** The order, its hull and its engine. */
  method WriteRequired(t: Texts, d: OrderDto) returns (fields: seq<Field>)
    ensures fields == FieldsFor(t, d, ALL_KEYS[..3])
  {
    assert FieldsFor(t, d, ALL_KEYS[..0]) == [];
    fields := [Field("order_uuid", JsonString(t.uuidText(d.orderUuid)))];
    FieldsForNext(t, d, 0);
    fields := fields + [Field("hull_uuid", JsonString(t.uuidText(d.hull)))];
    FieldsForNext(t, d, 1);
    fields := fields + [Field("engine_uuid", JsonString(t.uuidText(d.engine)))];
    FieldsForNext(t, d, 2);
  }

  /** Exactly the encoded keys are found again, each with its encoded value. */
  lemma {:induction false} EncodedLastValue(t: Texts, d: OrderDto, keys: seq<Key>, k: Key)
    ensures LastValue(FieldsFor(t, d, keys), k) == if k in keys then EncodedValue(t, d, k) else None
  {
    if keys != [] {
      var front, last := keys[..|keys| - 1], keys[|keys| - 1];
      assert keys == front + [last];
      EncodedLastValue(t, d, front, k);
      KeyNamesDiffer(last);
      var fields := FieldsFor(t, d, keys);
      if EncodedValue(t, d, last).Some? {
        assert fields[..|fields| - 1] == FieldsFor(t, d, front);
      } else {
        assert fields == FieldsFor(t, d, front);
      }
    }
  }

  /** The value written for a key is the last one of its name; a key without one does not occur. */
  lemma EncodedKey(t: Texts, d: OrderDto, k: Key, key: string)
    requires k != Unknown && key == KeyName(k)
    ensures var fields, v := FieldsFor(t, d, ALL_KEYS), EncodedValue(t, d, k);
      (HasKey(fields, key) <==> v.Some?) && (v.Some? ==> ValueRead(fields, key, v.value))
  {
    AllKeysListed(k);
    EncodedLastValue(t, d, ALL_KEYS, k);
    LastValueIsLast(FieldsFor(t, d, ALL_KEYS), k);
  }

  /** The six required keys are always written, with the text or number of their member. */
  lemma EncodedRequired(t: Texts, d: OrderDto)
    ensures var fields := FieldsFor(t, d, ALL_KEYS);
      && HasKey(fields, "order_uuid") && ValueRead(fields, "order_uuid", JsonString(t.uuidText(d.orderUuid)))
      && HasKey(fields, "hull_uuid") && ValueRead(fields, "hull_uuid", JsonString(t.uuidText(d.hull)))
      && HasKey(fields, "engine_uuid") && ValueRead(fields, "engine_uuid", JsonString(t.uuidText(d.engine)))
      && HasKey(fields, "total_price") && ValueRead(fields, "total_price", JsonNumber(d.totalPrice as int))
      && HasKey(fields, "status") && ValueRead(fields, "status", JsonString(d.status))
      && HasKey(fields, "created_at") && ValueRead(fields, "created_at", JsonString(t.timeText(d.createdAt)))
  {
    EncodedKey(t, d, OrderUuid, "order_uuid");
    EncodedKey(t, d, HullUuid, "hull_uuid");
    EncodedKey(t, d, EngineUuid, "engine_uuid");
    EncodedKey(t, d, TotalPrice, "total_price");
    EncodedKey(t, d, Status, "status");
    EncodedKey(t, d, CreatedAt, "created_at");
  }

  /** The optional under this key: absent if not set, null if null, else the text of its value. */
  ghost predicate OptWritten<T>(fields: seq<Field>, key: string, o: OptNil<T>, text: T -> string) {
    && (HasKey(fields, key) <==> o.isSet)
    && (o.isSet ==> ValueRead(fields, key, if o.isNull then JsonNull else JsonString(text(o.value))))
  }

  lemma EncodedOptionals(t: Texts, d: OrderDto)
    ensures var fields := FieldsFor(t, d, ALL_KEYS);
      && OptWritten(fields, "shield_uuid", d.shield, t.uuidText)
      && OptWritten(fields, "weapon_uuid", d.weapon, t.uuidText)
      && OptWritten(fields, "transaction_uuid", d.transaction, t.uuidText)
      && OptWritten(fields, "payment_method", d.paymentMethod, s => s)
  {
    EncodedKey(t, d, ShieldUuid, "shield_uuid");
    EncodedKey(t, d, WeaponUuid, "weapon_uuid");
    EncodedKey(t, d, TransactionUuid, "transaction_uuid");
    EncodedKey(t, d, Method, "payment_method");
  }

  lemma {:induction false} EncodedMember(t: Texts, d: OrderDto, keys: seq<Key>, f: Field)
    requires f in FieldsFor(t, d, keys)
    ensures exists k :: k in keys && f.key == KeyName(k)
  {
    var front, last := keys[..|keys| - 1], keys[|keys| - 1];
    if f in FieldsFor(t, d, front) {
      EncodedMember(t, d, front, f);
    } else {
      assert last in keys;
    }
  }

  lemma KeyIsNew(t: Texts, d: OrderDto, keys: seq<Key>, k: Key, f: Field)
    requires f in FieldsFor(t, d, keys) && k !in keys
    ensures f.key != KeyName(k)
  {
    EncodedMember(t, d, keys, f);
    var other :| other in keys && f.key == KeyName(other);
    KeyNamesDiffer(k);
    KeyNamesDiffer(other);
  }

  ghost predicate KeysOnce(fields: seq<Field>) {
    forall i, j :: 0 <= i < j < |fields| ==> fields[i].key != fields[j].key
  }

  /** No key is written twice. */
  lemma {:induction false} EncodedOnce(t: Texts, d: OrderDto, keys: seq<Key>)
    requires forall i, j :: 0 <= i < j < |keys| ==> keys[i] != keys[j]
    ensures KeysOnce(FieldsFor(t, d, keys))
  {
    if keys != [] {
      var front, last := keys[..|keys| - 1], keys[|keys| - 1];
      EncodedOnce(t, d, front);
      var fields := FieldsFor(t, d, front);
      forall i | 0 <= i < |fields| ensures fields[i].key != KeyName(last) {
        KeyIsNew(t, d, front, last, fields[i]);
      }
    }
  }

  lemma {:induction false} EncodedReadable(t: Texts, d: OrderDto, keys: seq<Key>)
    requires Faithful(t)
    ensures AllReadable(t, FieldsFor(t, d, keys))
  {
    if keys != [] {
      EncodedReadable(t, d, keys[..|keys| - 1]);
      KeyNamesDiffer(keys[|keys| - 1]);
    }
  }

  function CanonicalForm<T>(o: OptNil<T>, zero: T): OptNil<T> {
    if !o.isSet then OptNil(zero, false, false)
    else if o.isNull then OptNil(zero, true, true)
    else o
  }

  function CanonicalDtoOf(d: OrderDto): OrderDto {
    d.(shield := CanonicalForm(d.shield, NIL_UUID),
       weapon := CanonicalForm(d.weapon, NIL_UUID),
       transaction := CanonicalForm(d.transaction, NIL_UUID),
       paymentMethod := CanonicalForm(d.paymentMethod, ""))
  }

  /** A field list in which every key has its encoded value describes the encoded object. */
  lemma FilledFromEncoded(t: Texts, d: OrderDto, fields: seq<Field>)
    requires Faithful(t)
    requires forall k | k != Unknown :: LastValue(fields, k) == EncodedValue(t, d, k)
    ensures Filled(t, fields) == CanonicalDtoOf(d) && MissingNames(fields) == []
  {
  }

  /** Decoding an encoded object never fails, and gives the canonical form of its optionals. */
  lemma EncodeThenDecode(t: Texts, d: OrderDto)
    requires Faithful(t)
    ensures Meaning(t, FieldsFor(t, d, ALL_KEYS)) == Decoded(CanonicalDtoOf(d))
  {
    var fields := FieldsFor(t, d, ALL_KEYS);
    EncodedReadable(t, d, ALL_KEYS);
    forall k | k != Unknown ensures LastValue(fields, k) == EncodedValue(t, d, k) {
      EncodedLastValue(t, d, ALL_KEYS, k);
      AllKeysListed(k);
    }
    FilledFromEncoded(t, d, fields);
  }

  lemma AllKeysListed(k: Key)
    ensures k != Unknown <==> k in ALL_KEYS
  {
  }

  /** The round trip gives the object back exactly when its optionals are canonical, and only then. */
  lemma RoundTrip(t: Texts, d: OrderDto)
    requires Faithful(t)
    ensures Meaning(t, FieldsFor(t, d, ALL_KEYS)) == Decoded(d) <==> CanonicalDto(d)
  {
    EncodeThenDecode(t, d);
  }

  /** Whatever order an object is made from, a client reads back what the server sent. */
  lemma ConvertedOrderRoundTrip(t: Texts, order: Order)
    requires Faithful(t)
    ensures Meaning(t, FieldsFor(t, OrderToDto(order), ALL_KEYS)) == Decoded(OrderToDto(order))
  {
    ConvertedOrderIsValid(order);
    RoundTrip(t, OrderToDto(order));
  }

  // ----- Objects are unordered -----

  /** The key does not occur with two different values. */
  ghost predicate OneValue(fields: seq<Field>, k: Key) {
    forall f, g :: f in fields && g in fields && KeyOf(f.key) == KeyOf(g.key) == k ==> f.value == g.value
  }

  ghost predicate OneValuePerKey(fields: seq<Field>) {
    forall k: Key :: !k.Unknown? ==> OneValue(fields, k)
  }

  /** The field whose value counts for a key. */
  lemma {:induction false} LastField(fields: seq<Field>, k: Key) returns (f: Field)
    requires Present(fields, k)
    ensures f in fields && KeyOf(f.key) == k && LastValue(fields, k) == Some(f.value)
  {
    var front, last := fields[..|fields| - 1], fields[|fields| - 1];
    if KeyOf(last.key) == k {
      f := last;
    } else {
      f := LastField(front, k);
      assert f in front;
    }
  }

  lemma {:induction false} MemberIsPresent(fields: seq<Field>, f: Field)
    requires f in fields
    ensures Present(fields, KeyOf(f.key))
  {
    var front, last := fields[..|fields| - 1], fields[|fields| - 1];
    if KeyOf(last.key) != KeyOf(f.key) {
      assert fields == front + [last];
      MemberIsPresent(front, f);
    }
  }

  ghost predicate SameOutcome(a: Decoding, b: Decoding) {
    a == b || (a.BadField? && b.BadField?)
  }

  /** Reordering the fields of an object does not change what it decodes to. */
  lemma FieldOrderIsIrrelevant(t: Texts, a: seq<Field>, b: seq<Field>)
    requires multiset(a) == multiset(b) && OneValuePerKey(a)
    ensures SameOutcome(Meaning(t, a), Meaning(t, b))
  {
    assert forall f :: f in a <==> f in multiset(a);
    assert forall f :: f in b <==> f in multiset(b);
    forall k: Key | !k.Unknown? ensures LastValue(a, k) == LastValue(b, k) {
      SameLookup(a, b, k);
    }
    if AllReadable(t, a) {
      ReadableByMembers(t, a, b);
    }
    if AllReadable(t, b) {
      ReadableByMembers(t, b, a);
    }
    LookupsDecide(t, a, b);
  }

  lemma SameLookup(a: seq<Field>, b: seq<Field>, k: Key)
    requires (forall f :: f in a <==> f in b) && OneValue(a, k)
    ensures LastValue(a, k) == LastValue(b, k)
  {
    if Present(a, k) {
      var f := LastField(a, k);
      MemberIsPresent(b, f);
      var g := LastField(b, k);
      assert g in a;
    } else if Present(b, k) {
      var g := LastField(b, k);
      MemberIsPresent(a, g);
    }
  }

  /** Two field lists in which every known key has the same value mean the same, if both can be read. */
  lemma LookupsDecide(t: Texts, a: seq<Field>, b: seq<Field>)
    requires forall k: Key :: !k.Unknown? ==> LastValue(a, k) == LastValue(b, k)
    requires AllReadable(t, a) <==> AllReadable(t, b)
    ensures SameOutcome(Meaning(t, a), Meaning(t, b))
  {
  }

  lemma ReadableByMembers(t: Texts, a: seq<Field>, b: seq<Field>)
    requires AllReadable(t, a) && forall f :: f in b ==> f in a
    ensures AllReadable(t, b)
  {
    forall i | 0 <= i < |b| ensures Readable(t, KeyOf(b[i].key), b[i].value) {
      assert b[i] in b;
      var j :| 0 <= j < |a| && a[j] == b[i];
    }
  }

  lemma {:induction false} LastValueConcat(a: seq<Field>, b: seq<Field>, k: Key)
    ensures LastValue(a + b, k) == if Present(b, k) then LastValue(b, k) else LastValue(a, k)
  {
    if b == [] {
      assert a + b == a;
    } else {
      assert (a + b)[..|a + b| - 1] == a + b[..|b| - 1];
      LastValueConcat(a, b[..|b| - 1], k);
    }
  }

  /** A field that is not looked up can be taken out of any list. */
  lemma LookupSkips(a: seq<Field>, f: Field, b: seq<Field>, k: Key)
    requires KeyOf(f.key) != k
    ensures LastValue(a + [f] + b, k) == LastValue(a + b, k)
  {
    LastValueConcat(a + [f], b, k);
    LastValueConcat(a, b, k);
    LastValueConcat(a, [f], k);
    assert [f][..0] == [];
  }

  lemma {:induction false} ReadingSkipsUnknown(t: Texts, a: seq<Field>, f: Field, b: seq<Field>)
    requires KeyOf(f.key).Unknown?
    ensures AllReadable(t, a + [f] + b) <==> AllReadable(t, a + b)
    ensures !AllReadable(t, a + b) ==> FirstBadKey(t, a + [f] + b) == FirstBadKey(t, a + b)
  {
    if b == [] {
      assert a + [f] + b == a + [f] && a + b == a;
      assert (a + [f])[..|a|] == a;
    } else {
      var front, last := b[..|b| - 1], b[|b| - 1];
      assert a + [f] + b == a + [f] + front + [last] && a + b == a + front + [last];
      assert (a + [f] + b)[..|a| + |b|] == a + [f] + front;
      assert (a + b)[..|a| + |b| - 1] == a + front;
      ReadingSkipsUnknown(t, a, f, front);
    }
  }

  /** A field with an unknown key changes nothing, wherever it stands and whatever it holds. */
  lemma UnknownKeysAreSkipped(t: Texts, a: seq<Field>, f: Field, b: seq<Field>)
    requires KeyOf(f.key).Unknown?
    ensures Meaning(t, a + [f] + b) == Meaning(t, a + b)
  {
    ReadingSkipsUnknown(t, a, f, b);
    forall k: Key | !k.Unknown? ensures LastValue(a + [f] + b, k) == LastValue(a + b, k) {
      LookupSkips(a, f, b, k);
    }
    LookupsDecide(t, a + [f] + b, a + b);
  }
}
