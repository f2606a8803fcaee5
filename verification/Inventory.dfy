/** InventoryService: listing catalogue parts, and the client through which OrderService reads them. */
module Inventory {
  import opened Domain

  /** UNSPECIFIED is the filter's own constant and cannot be asked for as a type. */
  type NamedType = k: PartType | k != OtherPart("UNSPECIFIED") witness Hull

  datatype CatalogType = AnyType | CatalogType(kind: NamedType)

  datatype CatalogPart = CatalogPart(
    uuid: Uuid,
    name: string,
    description: string,
    price: Int64,
    partType: PartType,
    stockQuantity: Int64,
    createdAt: Time)

  /** The parts table by its primary key. */
  type Parts = map<Uuid, CatalogPart>

  ghost predicate Keyed(parts: Parts) {
    forall u :: u in parts ==> parts[u].uuid == u
  }

  // ----- Names in dictionary order -----

  /** The names first differ at `k`, where `a` has the smaller character. */
  ghost predicate SmallerAt(a: string, b: string, k: nat) {
    k < |a| && k < |b| && a[..k] == b[..k] && a[k] < b[k]
  }

  /** A name precedes another if it begins it, or is smaller where the two first differ. */
  ghost predicate Precedes(a: string, b: string) {
    a <= b || exists k: nat :: SmallerAt(a, b, k)
  }

  predicate NameLeq(a: string, b: string) {
    if a == "" then true
    else if b == "" then false
    else a[0] < b[0] || (a[0] == b[0] && NameLeq(a[1..], b[1..]))
  }

  /** Behind a common first character the comparison goes on as before. */
  lemma SmallerBehind(a: string, b: string, k: nat)
    requires a != "" && b != "" && a[0] == b[0]
    ensures SmallerAt(a, b, k + 1) <==> SmallerAt(a[1..], b[1..], k)
  {
    if k < |a| - 1 && k < |b| - 1 {
      assert a[..k + 1] == [a[0]] + a[1..][..k] && b[..k + 1] == [b[0]] + b[1..][..k];
      assert a[1..][..k] == a[..k + 1][1..] && b[1..][..k] == b[..k + 1][1..];
    }
  }

  lemma PrefixBehind(a: string, b: string)
    requires a != "" && b != "" && a[0] == b[0]
    ensures a <= b <==> a[1..] <= b[1..]
  {
    assert a == [a[0]] + a[1..] && b == [b[0]] + b[1..];
  }

  lemma PrecedesBehind(a: string, b: string)
    requires a != "" && b != "" && a[0] == b[0]
    ensures Precedes(a, b) <==> Precedes(a[1..], b[1..])
  {
    PrefixBehind(a, b);
    if k: nat :| SmallerAt(a, b, k) {
      assert k > 0;
      SmallerBehind(a, b, k - 1);
    }
    if k: nat :| SmallerAt(a[1..], b[1..], k) {
      SmallerBehind(a, b, k);
    }
  }

  lemma PrecedesAtFirst(a: string, b: string)
    requires a != "" && b != "" && a[0] != b[0]
    ensures Precedes(a, b) <==> a[0] < b[0]
  {
    if a[0] < b[0] {
      assert SmallerAt(a, b, 0);
    }
    if k: nat :| SmallerAt(a, b, k) && k > 0 {
      assert a[..k][0] == b[..k][0];
    }
  }

  /** The comparison of the sort is dictionary order. */
  lemma {:induction false} NameLeqIsPrecedes(a: string, b: string)
    ensures NameLeq(a, b) <==> Precedes(a, b)
  {
    if a != "" && b != "" {
      if a[0] == b[0] {
        NameLeqIsPrecedes(a[1..], b[1..]);
        PrecedesBehind(a, b);
      } else {
        PrecedesAtFirst(a, b);
      }
    }
  }

  lemma {:induction false} NameLeqTotal(a: string, b: string)
    ensures NameLeq(a, b) || NameLeq(b, a)
  {
    if a != "" && b != "" {
      NameLeqTotal(a[1..], b[1..]);
    }
  }

  lemma {:induction false} NameLeqTransitive(a: string, b: string, c: string)
    requires NameLeq(a, b) && NameLeq(b, c)
    ensures NameLeq(a, c)
  {
    if a != "" && a[0] == b[0] == c[0] {
      NameLeqTransitive(a[1..], b[1..], c[1..]);
    }
  }

  ghost predicate SortedByName(parts: seq<CatalogPart>) {
    forall i, j :: 0 <= i < j < |parts| ==> Precedes(parts[i].name, parts[j].name)
  }

  /** The same, as the sort compares names. */
  predicate Ascending(parts: seq<CatalogPart>) {
    forall i, j :: 0 <= i < j < |parts| ==> NameLeq(parts[i].name, parts[j].name)
  }

  /** Stands for the library sort: some ordering of the parts by name; nothing is said about equal names. */
  method SortByName(parts: seq<CatalogPart>) returns (sorted: seq<CatalogPart>)
    ensures multiset(sorted) == multiset(parts) && SortedByName(sorted)
  {
    sorted := [];
    for i := 0 to |parts|
      invariant multiset(sorted) == multiset(parts[..i]) && Ascending(sorted)
    {
      assert parts[..i + 1] == parts[..i] + [parts[i]];
      sorted := InsertByName(sorted, parts[i]);
    }
    assert parts[..|parts|] == parts;
    forall i, j | 0 <= i < j < |sorted| ensures Precedes(sorted[i].name, sorted[j].name) {
      NameLeqIsPrecedes(sorted[i].name, sorted[j].name);
    }
  }

  method InsertByName(sorted: seq<CatalogPart>, part: CatalogPart) returns (result: seq<CatalogPart>)
    requires Ascending(sorted)
    ensures multiset(result) == multiset(sorted) + multiset{part} && Ascending(result)
  {
    var k := |sorted|;
    while k > 0 && !NameLeq(sorted[k - 1].name, part.name)
      invariant 0 <= k <= |sorted|
      invariant forall j :: k <= j < |sorted| ==> NameLeq(part.name, sorted[j].name)
    {
      NameLeqTotal(sorted[k - 1].name, part.name);
      k := k - 1;
    }
    forall j | 0 <= j < k ensures NameLeq(sorted[j].name, part.name) {
      if j < k - 1 {
        NameLeqTransitive(sorted[j].name, sorted[k - 1].name, part.name);
      }
    }
    result := sorted[..k] + [part] + sorted[k..];
    InsertedMultiset(sorted, k, part);
  }

  lemma InsertedMultiset(parts: seq<CatalogPart>, k: nat, part: CatalogPart)
    requires k <= |parts|
    ensures multiset(parts[..k] + [part] + parts[k..]) == multiset(parts) + multiset{part}
  {
    assert parts == parts[..k] + parts[k..];
  }

  // ----- InventoryService -----

  /** Exactly the parts of the type (all parts, for the unspecified type), each once, by name. */
  ghost predicate Listing(parts: Parts, partType: CatalogType, listed: seq<CatalogPart>) {
    && SortedByName(listed)
    && (forall p :: p in listed <==>
         p.uuid in parts && parts[p.uuid] == p && (partType.AnyType? || p.partType == partType.kind))
    && forall p :: p in listed ==> multiset(listed)[p] == 1
  }

  class PartRepository {
    var parts: Parts

    constructor (parts: Parts)
      requires Keyed(parts)
      ensures this.parts == parts
    {
      this.parts := parts;
    }

    /** The rows whose key is wanted, in whatever order the database delivers them. */
    method Select(wanted: set<Uuid>) returns (rows: seq<CatalogPart>)
      requires Keyed(parts)
      ensures forall p :: p in rows <==> p.uuid in wanted && p.uuid in parts && parts[p.uuid] == p
      ensures forall i, j :: 0 <= i < j < |rows| ==> rows[i] != rows[j]
    {
      rows := [];
      var rest := set u | u in wanted && u in parts;
      while rest != {}
        invariant rest <= wanted && forall u :: u in rest ==> u in parts
        invariant forall p :: p in rows <==>
          p.uuid in wanted && p.uuid in parts && p.uuid !in rest && parts[p.uuid] == p
        invariant forall i, j :: 0 <= i < j < |rows| ==> rows[i] != rows[j]
        decreases |rest|
      {
        var u :| u in rest;
        assert parts[u] !in rows;
        rows := rows + [parts[u]];
        rest := rest - {u};
      }
    }

    /** Puts the selected rows into the order of the given UUIDs. */
    method InOrderOf(uuids: seq<Uuid>, rows: seq<CatalogPart>) returns (r: Result<seq<CatalogPart>, Error>)
      requires Keyed(parts)
      requires forall p :: p in rows <==> p.uuid in uuids && p.uuid in parts && parts[p.uuid] == p
      ensures if forall u :: u in uuids ==> u in parts
        then r.Ok? && |r.value| == |uuids| && forall i :: 0 <= i < |uuids| ==> r.value[i] == parts[uuids[i]]
        else r == Err(PartNotFound)
    {
      var partsByUuid: map<Uuid, CatalogPart> := map[];
      for i := 0 to |rows|
        invariant forall u :: u in partsByUuid <==> exists p :: p in rows[..i] && p.uuid == u
        invariant forall u :: u in partsByUuid ==> u in parts && partsByUuid[u] == parts[u]
      {
        assert rows[..i + 1] == rows[..i] + [rows[i]];
        assert rows[i] in rows;
        partsByUuid := partsByUuid[rows[i].uuid := rows[i]];
      }
      assert rows[..|rows|] == rows;
      forall u | u in uuids && u in parts ensures u in partsByUuid {
        assert parts[u] in rows;
      }
      var ordered: seq<CatalogPart> := [];
      for i := 0 to |uuids|
        invariant |ordered| == i
        invariant forall j :: 0 <= j < i ==> uuids[j] in parts && ordered[j] == parts[uuids[j]]
      {
        if uuids[i] !in partsByUuid {
          return Err(PartNotFound);
        }
        ordered := ordered + [partsByUuid[uuids[i]]];
      }
      return Ok(ordered);
    }

    /**
     With UUIDs, the parts they name in the order given, or not-found; without, the parts of the
     type by name.
     */
    method List(uuids: seq<Uuid>, partType: CatalogType) returns (r: Result<seq<CatalogPart>, Error>)
      requires Keyed(parts)
      ensures uuids != [] ==> (r.Ok? <==> forall u :: u in uuids ==> u in parts)
      ensures uuids != [] && r.Err? ==> r == Err(PartNotFound)
      ensures uuids != [] && r.Ok? ==>
        |r.value| == |uuids| && forall i :: 0 <= i < |uuids| ==> r.value[i] == parts[uuids[i]]
      ensures uuids == [] ==> r.Ok? && Listing(parts, partType, r.value)
    {
      if |uuids| > 0 {
        var rows := Select(set u | u in uuids);
        r := InOrderOf(uuids, rows);
        return;
      }
      var rows := Select(set u | u in parts && (partType.AnyType? || parts[u].partType == partType.kind));
      var sorted := SortByName(rows);
      assert forall p :: p in sorted <==> p in multiset(sorted);
      forall p | p in sorted ensures multiset(sorted)[p] == 1 {
        CountsOnce(rows, p);
      }
      return Ok(sorted);
    }
  }

  lemma {:induction false} CountsOnce(rows: seq<CatalogPart>, p: CatalogPart)
    requires forall i, j :: 0 <= i < j < |rows| ==> rows[i] != rows[j]
    ensures multiset(rows)[p] == if p in rows then 1 else 0
  {
    if rows != [] {
      var front, last := rows[..|rows| - 1], rows[|rows| - 1];
      assert rows == front + [last];
      CountsOnce(front, p);
    }
  }

  /** The service accepts only non-nil UUIDs; reading their text is assumed to give them back. */
  method ListParts(repo: PartRepository, uuids: seq<Uuid>, partType: CatalogType)
    returns (r: Result<seq<CatalogPart>, Error>)
    requires Keyed(repo.parts)
    ensures NIL_UUID in uuids ==> r == Err(InvalidUuid)
    ensures NIL_UUID !in uuids && uuids != [] ==>
      if forall u :: u in uuids ==> u in repo.parts
      then r.Ok? && |r.value| == |uuids| && forall i :: 0 <= i < |uuids| ==> r.value[i] == repo.parts[uuids[i]]
      else r == Err(PartNotFound)
    ensures uuids == [] ==> r.Ok? && Listing(repo.parts, partType, r.value)
  {
    var partUuids: seq<Uuid> := [];
    for i := 0 to |uuids|
      invariant partUuids == uuids[..i] && NIL_UUID !in partUuids
    {
      if uuids[i] == NIL_UUID {
        return Err(InvalidUuid);
      }
      partUuids := partUuids + [uuids[i]];
    }
    r := repo.List(partUuids, partType);
  }

  // ----- The client in OrderService -----

  /** A part on the wire, with the UUID that its text parses to, if any. */
  datatype ProtoPart = ProtoPart(uuid: Option<Uuid>, price: Int64, stockQuantity: Int64)

  /** A part as OrderService knows it. */
  datatype Part = Part(uuid: Uuid, price: Int64, stockQuantity: Int64)

  function PartToProto(p: CatalogPart): ProtoPart {
    ProtoPart(Some(p.uuid), p.price, p.stockQuantity)
  }

  function PartToModel(p: ProtoPart): Part
    requires p.uuid.Some?
  {
    Part(p.uuid.value, p.price, p.stockQuantity)
  }

  /** `kept` lists, in ascending order, exactly the positions whose UUID parses; `result` has just those parts. */
  ghost predicate Keeps(parts: seq<ProtoPart>, kept: seq<nat>, result: seq<Part>) {
    && (forall i :: i in kept <==> 0 <= i < |parts| && parts[i].uuid.Some?)
    && (forall j, k :: 0 <= j < k < |kept| ==> kept[j] < kept[k])
    && |result| == |kept|
    && forall j :: 0 <= j < |kept| ==> kept[j] in kept && result[j] == PartToModel(parts[kept[j]])
  }

  /** Converts every part whose UUID parses, in order, and skips the others. */
  method PartsToModel(parts: seq<ProtoPart>) returns (result: seq<Part>)
    ensures result == Parsed(parts)
    ensures exists kept :: Keeps(parts, kept, result)
  {
    result := [];
    for i := 0 to |parts|
      invariant result == Parsed(parts[..i])
    {
      assert parts[..i + 1][..i] == parts[..i];
      if parts[i].uuid.None? {
        continue;
      }
      result := result + [PartToModel(parts[i])];
    }
    assert parts[..|parts|] == parts;
    var _ := ParsedKeeps(parts);
  }

  function Parsed(parts: seq<ProtoPart>): seq<Part> {
    if parts == [] then []
    else
      var last := parts[|parts| - 1];
      Parsed(parts[..|parts| - 1])
        + if last.uuid.Some? then [PartToModel(last)] else []
  }

  lemma {:induction false} ParsedKeeps(parts: seq<ProtoPart>) returns (kept: seq<nat>)
    ensures Keeps(parts, kept, Parsed(parts))
  {
    kept := [];
    if parts != [] {
      var front, last := parts[..|parts| - 1], parts[|parts| - 1];
      kept := ParsedKeeps(front);
      KeepsNext(front, kept, Parsed(front), last);
      assert parts == front + [last];
      if last.uuid.Some? {
        kept := kept + [|front|];
      }
    }
  }

  lemma KeepsNext(parts: seq<ProtoPart>, kept: seq<nat>, result: seq<Part>, p: ProtoPart)
    requires Keeps(parts, kept, result)
    ensures p.uuid.None? ==> Keeps(parts + [p], kept, result)
    ensures p.uuid.Some? ==> Keeps(parts + [p], kept + [|parts|], result + [PartToModel(p)])
  {
    var longer, more := parts + [p], kept + [|parts|];
    assert forall i :: 0 <= i < |parts| ==> longer[i] == parts[i];
    forall i ensures i in more <==> i in kept || i == |parts| {
    }
    forall j | 0 <= j < |kept| ensures more[j] == kept[j] && kept[j] < |parts| {
      assert kept[j] in kept;
    }
  }

  lemma {:induction false} ParsedAll(parts: seq<ProtoPart>)
    requires forall i :: 0 <= i < |parts| ==> parts[i].uuid.Some?
    ensures |Parsed(parts)| == |parts|
    ensures forall i :: 0 <= i < |parts| ==>
      Parsed(parts)[i] == PartToModel(parts[i])
  {
    if parts != [] {
      ParsedAll(parts[..|parts| - 1]);
    }
  }

  function OrderedPart(p: CatalogPart): Part {
    Part(p.uuid, p.price, p.stockQuantity)
  }

  function OrderedParts(listed: seq<CatalogPart>): seq<Part> {
    seq(|listed|, i requires 0 <= i < |listed| => OrderedPart(listed[i]))
  }

  /**
   The round trip from OrderService through InventoryService and back. `callFails` says that the call
   ends with any status but NotFound and InvalidArgument: the service's store or the connection failed.
   */
  method FetchParts(repo: PartRepository, uuids: seq<Uuid>, callFails: bool) returns (r: Result<seq<Part>, Error>)
    requires Keyed(repo.parts)
    ensures callFails ==> r == Err(InventoryError)
    ensures !callFails && NIL_UUID in uuids ==> r == Err(InvalidUuid)
    ensures !callFails && uuids == [] ==>
      exists listed :: Listing(repo.parts, AnyType, listed) && r == Ok(OrderedParts(listed))
    ensures !callFails && NIL_UUID !in uuids && uuids != [] ==>
      if forall u :: u in uuids ==> u in repo.parts
      then r.Ok? && |r.value| == |uuids|
        && forall i :: 0 <= i < |uuids| ==> r.value[i] == OrderedPart(repo.parts[uuids[i]])
      else r == Err(PartNotFound)
  {
    if callFails {
      return Err(InventoryError);
    }
    var listed := ListParts(repo, uuids, AnyType);
    if listed.Err? {
      return Err(listed.error);
    }
    var wire := seq(|listed.value|, i requires 0 <= i < |listed.value| => PartToProto(listed.value[i]));
    ParsedAll(wire);
    var parts := PartsToModel(wire);
    assert parts == OrderedParts(listed.value);
    return Ok(parts);
  }
}
