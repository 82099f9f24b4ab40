/**
 * ootle/instructions.go: typed arguments and instructions, their constructors and their JSON. JSON
 * is a tree here; an object is a map from its keys.
 */
module Instructing {
  import opened Prelude
  import opened Hex

  datatype Json =
    | JNull
    | JBool(b: bool)
    | JNum(n: int)
    | JStr(s: string)
    | JArr(items: seq<Json>)
    | JObj(fields: map<string, Json>)

  function Tagged(tag: string, value: Json): Json {
    JObj(map[tag := value])
  }

  type int64 = n: int | -0x8000_0000_0000_0000 <= n < 0x8000_0000_0000_0000

  /** A Go slice and a Go map of arguments, either of which can be nil. */
  datatype Args = NilArgs | Args(items: seq<ArgValue>)

  datatype Entries = NilEntries | Entries(entries: map<string, ArgValue>)

  /** The struct: a field per variant, None for a nil pointer. */
  datatype ArgValue = ArgValue(
    amount: Option<uint64>,
    address: Option<string>,
    workspace: Option<string>,
    str: Option<string>,
    boolean: Option<bool>,
    u64: Option<uint64>,
    bytes: Option<seq<byte>>,
    bytesSet: bool,
    metadata: Entries,
    i64: Option<int64>,
    nonFungibleId: Option<string>,
    list: Args,
    listSet: bool,
    optional: Option<ArgValue>,
    optionalSet: bool)

  const UNSET := ArgValue(None, None, None, None, None, None, None, false, NilEntries, None, None, NilArgs, false,
    None, false)

  // ---- The constructors ----

  function ArgAmount(n: uint64): ArgValue { UNSET.(amount := Some(n)) }
  function ArgAddress(s: string): ArgValue { UNSET.(address := Some(s)) }
  function ArgWorkspace(s: string): ArgValue { UNSET.(workspace := Some(s)) }
  function ArgString(s: string): ArgValue { UNSET.(str := Some(s)) }
  function ArgBool(b: bool): ArgValue { UNSET.(boolean := Some(b)) }
  function ArgU64(n: uint64): ArgValue { UNSET.(u64 := Some(n)) }
  function ArgI64(n: int64): ArgValue { UNSET.(i64 := Some(n)) }
  function ArgNonFungibleId(s: string): ArgValue { UNSET.(nonFungibleId := Some(s)) }
  function ArgSome(inner: ArgValue): ArgValue { UNSET.(optional := Some(inner), optionalSet := true) }
  function ArgNone(): ArgValue { UNSET.(optionalSet := true) }

  /** Nil bytes, maps and lists become empty ones. */
  function ArgBytes(bytes: Option<seq<byte>>): ArgValue {
    UNSET.(bytes := Some(bytes.GetOr([])), bytesSet := true)
  }

  function ArgMetadataValues(m: Entries): ArgValue {
    UNSET.(metadata := if m.NilEntries? then Entries(map[]) else m)
  }

  function ArgMetadata(m: Option<map<string, string>>): ArgValue {
    var given := m.GetOr(map[]);
    UNSET.(metadata := Entries(map k | k in given :: ArgString(given[k])))
  }

  function ArgList(items: Args): ArgValue {
    UNSET.(list := NonNilArgs(items), listSet := true)
  }

  function NonNilArgs(items: Args): Args {
    if items.NilArgs? then Args([]) else items
  }

  // ---- MarshalJSON ----

  /** The tags of the core's enum. */
  datatype Variant =
    | Amount | Address | Workspace | String | Bool | U64 | I64 | NonFungibleId | List | Optional | Bytes | Metadata

  function Tag(v: Variant): string {
    match v
    case Amount => "Amount"
    case Address => "Address"
    case Workspace => "Workspace"
    case String => "String"
    case Bool => "Bool"
    case U64 => "U64"
    case I64 => "I64"
    case NonFungibleId => "NonFungibleId"
    case List => "List"
    case Optional => "Optional"
    case Bytes => "Bytes"
    case Metadata => "Metadata"
  }

  /** The variant MarshalJSON picks: the first that is set, in the order of its switch. */
  function Picked(a: ArgValue): Option<Variant> {
    if a.amount.Some? then Some(Amount)
    else if a.address.Some? then Some(Address)
    else if a.workspace.Some? then Some(Workspace)
    else if a.str.Some? then Some(String)
    else if a.boolean.Some? then Some(Bool)
    else if a.u64.Some? then Some(U64)
    else if a.i64.Some? then Some(I64)
    else if a.nonFungibleId.Some? then Some(NonFungibleId)
    else if a.listSet then Some(List)
    else if a.optionalSet then Some(Optional)
    else if a.bytesSet then Some(Bytes)
    else if a.metadata.Entries? then Some(Metadata)
    else None
  }

  /** What MarshalJSON puts under the tag; None for the error of a value, at any depth, with no variant set. */
  function Payload(a: ArgValue): Option<Json>
    requires Picked(a).Some?
    decreases a, 1
  {
    match Picked(a).value
    case Amount => Some(JNum(a.amount.value))
    case Address => Some(JStr(a.address.value))
    case Workspace => Some(JStr(a.workspace.value))
    case String => Some(JStr(a.str.value))
    case Bool => Some(JBool(a.boolean.value))
    case U64 => Some(JNum(a.u64.value))
    case I64 => Some(JNum(a.i64.value))
    case NonFungibleId => Some(JStr(a.nonFungibleId.value))
    case List =>
      if a.list.NilArgs? then Some(JArr([]))
      else (match MarshalAll(a) case None => None case Some(items) => Some(JArr(items)))
    case Optional => if a.optional.None? then Some(JNull) else Marshal(a.optional.value)
    case Bytes => Some(JStr(Encode(a.bytes.GetOr([]))))
    case Metadata => (match MarshalEntries(a) case None => None case Some(fields) => Some(JObj(fields)))
  }

  function MarshalAll(a: ArgValue): (r: Option<seq<Json>>)
    requires a.list.Args?
    ensures r.Some? <==> forall i :: 0 <= i < |a.list.items| ==> Marshal(a.list.items[i]).Some?
    ensures r.Some? ==> |r.value| == |a.list.items|
    ensures r.Some? ==> forall i :: 0 <= i < |r.value| ==> Marshal(a.list.items[i]) == Some(r.value[i])
    decreases a, 0
  {
    var items := a.list.items;
    if forall i :: 0 <= i < |items| ==> Marshal(items[i]).Some? then
      Some(seq(|items|, i requires 0 <= i < |items| => Marshal(items[i]).value))
    else None
  }

  function MarshalEntries(a: ArgValue): (r: Option<map<string, Json>>)
    requires a.metadata.Entries?
    ensures r.Some? <==> forall k :: k in a.metadata.entries ==> Marshal(a.metadata.entries[k]).Some?
    ensures r.Some? ==> r.value.Keys == a.metadata.entries.Keys
    ensures r.Some? ==> forall k :: k in a.metadata.entries ==> Marshal(a.metadata.entries[k]) == Some(r.value[k])
    decreases a, 0
  {
    var entries := a.metadata.entries;
    if forall k :: k in entries ==> Marshal(entries[k]).Some? then
      Some(map k | k in entries :: Marshal(entries[k]).value)
    else None
  }

  function Marshal(a: ArgValue): Option<Json>
    decreases a, 2
  {
    if Picked(a).None? then None
    else
      match Payload(a)
      case None => None
      case Some(json) => Some(Tagged(Tag(Picked(a).value), json))
  }

  // ---- On the wire ----

  /** Each scalar constructor's value is one object, with one tag. */
  lemma ScalarsOnTheWire(n: uint64, i: int64, s: string, b: bool)
    ensures Marshal(ArgAmount(n)) == Some(JObj(map["Amount" := JNum(n)]))
    ensures Marshal(ArgAddress(s)) == Some(JObj(map["Address" := JStr(s)]))
    ensures Marshal(ArgWorkspace(s)) == Some(JObj(map["Workspace" := JStr(s)]))
    ensures Marshal(ArgString(s)) == Some(JObj(map["String" := JStr(s)]))
    ensures Marshal(ArgBool(b)) == Some(JObj(map["Bool" := JBool(b)]))
    ensures Marshal(ArgU64(n)) == Some(JObj(map["U64" := JNum(n)]))
    ensures Marshal(ArgI64(i)) == Some(JObj(map["I64" := JNum(i)]))
    ensures Marshal(ArgNonFungibleId(s)) == Some(JObj(map["NonFungibleId" := JStr(s)]))
  {
  }

  /** A list's items in their order, nil as an empty array. */
  ghost predicate ListJson(args: Args, json: Json) {
    && json.JArr? && |json.items| == (if args.NilArgs? then 0 else |args.items|)
    && forall k :: 0 <= k < |json.items| ==> Marshal(args.items[k]) == Some(json.items[k])
  }

  lemma WrappersOnTheWire(bytes: Option<seq<byte>>, inner: ArgValue)
    ensures Marshal(ArgBytes(bytes)) == Some(JObj(map["Bytes" := JStr(Encode(bytes.GetOr([])))]))
    ensures Marshal(ArgNone()) == Some(JObj(map["Optional" := JNull]))
    ensures Marshal(inner).Some? ==> Marshal(ArgSome(inner)) == Some(JObj(map["Optional" := Marshal(inner).value]))
  {
  }

  lemma ListOnTheWire(items: Args)
    requires Marshal(ArgList(items)).Some?
    ensures exists json :: ListJson(items, json) && Marshal(ArgList(items)) == Some(JObj(map["List" := json]))
  {
    var list := ArgList(items);
    var json := JArr(MarshalAll(list).value);
    assert Payload(list) == Some(json) && ListJson(items, json);
    assert Marshal(list) == Some(JObj(map["List" := json]));
  }

  /** The entries of a metadata map, each under its key. */
  ghost predicate EntriesJson(m: Entries, fields: map<string, Json>) {
    && fields.Keys == (if m.NilEntries? then {} else m.entries.Keys)
    && forall k :: k in fields ==> Marshal(m.entries[k]) == Some(fields[k])
  }

  lemma MetadataOnTheWire(m: Entries)
    requires Marshal(ArgMetadataValues(m)).Some?
    ensures exists fields :: EntriesJson(m, fields)
                             && Marshal(ArgMetadataValues(m)) == Some(JObj(map["Metadata" := JObj(fields)]))
  {
    var metadata := ArgMetadataValues(m);
    var fields := MarshalEntries(metadata).value;
    assert Payload(metadata) == Some(JObj(fields)) && EntriesJson(m, fields);
    assert Marshal(metadata) == Some(JObj(map["Metadata" := JObj(fields)]));
  }

  predicate NoScalar(a: ArgValue) {
    a.amount.None? && a.address.None? && a.workspace.None? && a.str.None? && a.boolean.None? && a.u64.None?
    && a.i64.None? && a.nonFungibleId.None?
  }

  lemma SameItems(a: ArgValue, b: ArgValue)
    requires a.list.Args? && b.list == a.list
    ensures MarshalAll(a) == MarshalAll(b)
  {
    if MarshalAll(a).Some? {
      assert MarshalAll(a).value == MarshalAll(b).value;
    }
  }

  lemma SameEntries(a: ArgValue, b: ArgValue)
    requires a.metadata.Entries? && b.metadata == a.metadata
    ensures MarshalEntries(a) == MarshalEntries(b)
  {
    if MarshalEntries(a).Some? {
      assert MarshalEntries(a).value == MarshalEntries(b).value;
    }
  }

  /** After the scalars come lists, optionals, bytes and metadata. */
  lemma NestedIsPicked(a: ArgValue)
    requires NoScalar(a)
    ensures var json := Marshal(a);
            && (a.listSet ==> json == Marshal(ArgList(a.list)))
            && (!a.listSet && a.optionalSet ==>
                  json == if a.optional.None? then Marshal(ArgNone()) else Marshal(ArgSome(a.optional.value)))
            && (!a.listSet && !a.optionalSet && a.bytesSet ==> json == Marshal(ArgBytes(a.bytes)))
            && (!a.listSet && !a.optionalSet && !a.bytesSet ==>
                  json == if a.metadata.NilEntries? then None else Marshal(ArgMetadataValues(a.metadata)))
  {
    if a.listSet {
      if a.list.Args? {
        SameItems(a, ArgList(a.list));
      } else {
        assert MarshalAll(ArgList(a.list)) == Some([]);
      }
    } else if !a.optionalSet && !a.bytesSet && a.metadata.Entries? {
      SameEntries(a, ArgMetadataValues(a.metadata));
    }
  }

  /** Of several variants set, the first in this order is the one that is marshalled. */
  lemma FirstSetIsPicked(a: ArgValue)
    ensures var json := Marshal(a);
            && (a.amount.Some? ==> json == Marshal(ArgAmount(a.amount.value)))
            && (a.amount.None? && a.address.Some? ==> json == Marshal(ArgAddress(a.address.value)))
            && (a.amount.None? && a.address.None? && a.workspace.Some? ==>
                  json == Marshal(ArgWorkspace(a.workspace.value)))
            && (a.amount.None? && a.address.None? && a.workspace.None? ==>
                  && (a.str.Some? ==> json == Marshal(ArgString(a.str.value)))
                  && (a.str.None? && a.boolean.Some? ==> json == Marshal(ArgBool(a.boolean.value)))
                  && (a.str.None? && a.boolean.None? && a.u64.Some? ==> json == Marshal(ArgU64(a.u64.value)))
                  && (a.str.None? && a.boolean.None? && a.u64.None? && a.i64.Some? ==>
                        json == Marshal(ArgI64(a.i64.value)))
                  && (a.str.None? && a.boolean.None? && a.u64.None? && a.i64.None? && a.nonFungibleId.Some? ==>
                        json == Marshal(ArgNonFungibleId(a.nonFungibleId.value))))
  {
  }

  // ---- Reading it back ----

  function VariantOf(tag: string): Option<Variant> {
    if tag == "Amount" then Some(Amount)
    else if tag == "Address" then Some(Address)
    else if tag == "Workspace" then Some(Workspace)
    else if tag == "String" then Some(String)
    else if tag == "Bool" then Some(Bool)
    else if tag == "U64" then Some(U64)
    else if tag == "I64" then Some(I64)
    else if tag == "NonFungibleId" then Some(NonFungibleId)
    else if tag == "List" then Some(List)
    else if tag == "Optional" then Some(Optional)
    else if tag == "Bytes" then Some(Bytes)
    else if tag == "Metadata" then Some(Metadata)
    else None
  }

  lemma VariantOfTag(v: Variant)
    ensures VariantOf(Tag(v)) == Some(v)
  {
    var tag := Tag(v);
    assert v == Amount ==> tag[0] == 'A';
    assert v == String ==> tag[0] == 'S';
    assert v == U64 ==> tag[0] == 'U';
    assert v == I64 ==> tag[0] == 'I';
    assert v == Bool ==> tag[0] == 'B';
    assert v == List ==> tag[0] == 'L';
    assert v == Optional ==> tag[0] == 'O';
    assert v == Metadata ==> tag[0] == 'M';
  }

  ghost function AnyKey(fields: map<string, Json>): (k: string)
    requires |fields| > 0
    ensures k in fields
  {
    var k :| k in fields;
    k
  }

  /** The value an object with one tag stands for. */
  ghost function Unmarshal(json: Json): Option<ArgValue>
    decreases json, 0
  {
    if !json.JObj? || |json.fields| != 1 then None
    else
      var tag := AnyKey(json.fields);
      match VariantOf(tag)
      case None => None
      case Some(v) => FromPayload(v, json.fields[tag])
  }

  ghost function FromPayload(v: Variant, json: Json): Option<ArgValue>
    decreases json, 1
  {
    match v
    case Amount => if json.JNum? && 0 <= json.n <= MAX_U64 then Some(ArgAmount(json.n)) else None
    case Address => if json.JStr? then Some(ArgAddress(json.s)) else None
    case Workspace => if json.JStr? then Some(ArgWorkspace(json.s)) else None
    case String => if json.JStr? then Some(ArgString(json.s)) else None
    case Bool => if json.JBool? then Some(ArgBool(json.b)) else None
    case U64 => if json.JNum? && 0 <= json.n <= MAX_U64 then Some(ArgU64(json.n)) else None
    case I64 => if json.JNum? && -0x8000_0000_0000_0000 <= json.n < 0x8000_0000_0000_0000 then Some(ArgI64(json.n))
      else None
    case NonFungibleId => if json.JStr? then Some(ArgNonFungibleId(json.s)) else None
    case List =>
      if !json.JArr? then None
      else (match UnmarshalAll(json) case None => None case Some(items) => Some(ArgList(Args(items))))
    case Optional =>
      if json.JNull? then Some(ArgNone())
      else (match Unmarshal(json) case None => None case Some(inner) => Some(ArgSome(inner)))
    case Bytes =>
      if !json.JStr? || Decode(json.s).None? then None else Some(ArgBytes(Some(Decode(json.s).value)))
    case Metadata =>
      if !json.JObj? then None
      else (match UnmarshalFields(json) case None => None
        case Some(entries) => Some(ArgMetadataValues(Entries(entries))))
  }

  ghost function UnmarshalAll(json: Json): (r: Option<seq<ArgValue>>)
    requires json.JArr?
    ensures r.Some? <==> forall i :: 0 <= i < |json.items| ==> Unmarshal(json.items[i]).Some?
    ensures r.Some? ==> |r.value| == |json.items|
    ensures r.Some? ==> forall i :: 0 <= i < |r.value| ==> Unmarshal(json.items[i]) == Some(r.value[i])
    decreases json, 0
  {
    if forall i :: 0 <= i < |json.items| ==> Unmarshal(json.items[i]).Some? then
      Some(seq(|json.items|, i requires 0 <= i < |json.items| => Unmarshal(json.items[i]).value))
    else None
  }

  ghost function UnmarshalFields(json: Json): (r: Option<map<string, ArgValue>>)
    requires json.JObj?
    ensures r.Some? <==> forall k :: k in json.fields ==> Unmarshal(json.fields[k]).Some?
    ensures r.Some? ==> r.value.Keys == json.fields.Keys
    ensures r.Some? ==> forall k :: k in json.fields ==> Unmarshal(json.fields[k]) == Some(r.value[k])
    decreases json, 0
  {
    if forall k :: k in json.fields ==> Unmarshal(json.fields[k]).Some? then
      Some(map k | k in json.fields :: Unmarshal(json.fields[k]).value)
    else None
  }

  // ---- The round trip ----

  /** What the constructors make of a value: its picked variant alone, with nothing nil. */
  function Normal(a: ArgValue): ArgValue
    decreases a, 1
  {
    match Picked(a)
    case None => UNSET
    case Some(Amount) => ArgAmount(a.amount.value)
    case Some(Address) => ArgAddress(a.address.value)
    case Some(Workspace) => ArgWorkspace(a.workspace.value)
    case Some(String) => ArgString(a.str.value)
    case Some(Bool) => ArgBool(a.boolean.value)
    case Some(U64) => ArgU64(a.u64.value)
    case Some(I64) => ArgI64(a.i64.value)
    case Some(NonFungibleId) => ArgNonFungibleId(a.nonFungibleId.value)
    case Some(List) =>
      if a.list.NilArgs? then ArgList(NilArgs)
      else ArgList(Args(NormalAll(a)))
    case Some(Optional) => if a.optional.None? then ArgNone() else ArgSome(Normal(a.optional.value))
    case Some(Bytes) => ArgBytes(a.bytes)
    case Some(Metadata) => ArgMetadataValues(Entries(NormalEntries(a)))
  }

  function NormalAll(a: ArgValue): (r: seq<ArgValue>)
    requires a.list.Args?
    ensures |r| == |a.list.items| && forall i :: 0 <= i < |r| ==> r[i] == Normal(a.list.items[i])
    decreases a, 0
  {
    seq(|a.list.items|, i requires 0 <= i < |a.list.items| => Normal(a.list.items[i]))
  }

  function NormalEntries(a: ArgValue): (r: map<string, ArgValue>)
    requires a.metadata.Entries?
    ensures r.Keys == a.metadata.entries.Keys && forall k :: k in r ==> r[k] == Normal(a.metadata.entries[k])
    decreases a, 0
  {
    map k | k in a.metadata.entries :: Normal(a.metadata.entries[k])
  }

  lemma UnmarshalTagged(v: Variant, json: Json)
    ensures Unmarshal(Tagged(Tag(v), json)) == FromPayload(v, json)
  {
    VariantOfTag(v);
    var fields := map[Tag(v) := json];
    assert fields.Keys == {Tag(v)};
    assert |fields| == 1;
    assert forall k :: k in fields ==> k == Tag(v);
  }

  lemma NeverNull(a: ArgValue)
    requires Marshal(a).Some?
    ensures Marshal(a).value.JObj?
  {
  }

  ghost predicate Recovered(a: ArgValue) {
    Marshal(a).Some? && Unmarshal(Marshal(a).value) == Some(Normal(a))
  }

  lemma ListRoundTrip(a: ArgValue)
    requires a.list.Args? && MarshalAll(a).Some?
    requires forall i :: 0 <= i < |a.list.items| ==> Recovered(a.list.items[i])
    ensures UnmarshalAll(JArr(MarshalAll(a).value)) == Some(NormalAll(a))
  {
    var items, json := a.list.items, JArr(MarshalAll(a).value);
    forall i | 0 <= i < |items| ensures Unmarshal(json.items[i]) == Some(Normal(items[i])) {
      assert Recovered(items[i]);
    }
    assert UnmarshalAll(json).value == NormalAll(a);
  }

  lemma MetadataRoundTrip(a: ArgValue)
    requires a.metadata.Entries? && MarshalEntries(a).Some?
    requires forall k :: k in a.metadata.entries ==> Recovered(a.metadata.entries[k])
    ensures UnmarshalFields(JObj(MarshalEntries(a).value)) == Some(NormalEntries(a))
  {
    var entries, json := a.metadata.entries, JObj(MarshalEntries(a).value);
    forall k | k in entries ensures Unmarshal(json.fields[k]) == Some(Normal(entries[k])) {
      assert Recovered(entries[k]);
    }
    assert UnmarshalFields(json).value == NormalEntries(a);
  }

  lemma {:induction false} PayloadRoundTrip(a: ArgValue)
    requires Picked(a).Some? && Payload(a).Some?
    ensures FromPayload(Picked(a).value, Payload(a).value) == Some(Normal(a))
    decreases a, 0
  {
    match Picked(a).value
    case List =>
      if a.list.Args? {
        forall i | 0 <= i < |a.list.items| ensures Recovered(a.list.items[i]) {
          RoundTrip(a.list.items[i]);
        }
        ListRoundTrip(a);
      }
    case Optional =>
      if a.optional.Some? {
        NeverNull(a.optional.value);
        RoundTrip(a.optional.value);
      }
    case Bytes => DecodeEncode(a.bytes.GetOr([]));
    case Metadata =>
      forall k | k in a.metadata.entries ensures Recovered(a.metadata.entries[k]) {
        RoundTrip(a.metadata.entries[k]);
      }
      MetadataRoundTrip(a);
    case _ =>
  }

  /** Whatever marshals is recovered, up to what the constructors normalise. */
  lemma {:induction false} RoundTrip(a: ArgValue)
    requires Marshal(a).Some?
    ensures Unmarshal(Marshal(a).value) == Some(Normal(a))
    decreases a, 1
  {
    PayloadRoundTrip(a);
    UnmarshalTagged(Picked(a).value, Payload(a).value);
  }

  /** Values that encode alike are alike. */
  lemma Injective(a: ArgValue, b: ArgValue)
    requires Marshal(a).Some? && Marshal(a) == Marshal(b)
    ensures Normal(a) == Normal(b)
  {
    RoundTrip(a);
    RoundTrip(b);
  }

  // ---- Which values marshal, and which come back unchanged ----

  /** Every node has a variant set. */
  ghost predicate AllSet(a: ArgValue) {
    match Picked(a)
    case None => false
    case Some(List) => a.list.Args? ==> forall i :: 0 <= i < |a.list.items| ==> AllSet(a.list.items[i])
    case Some(Optional) => a.optional.Some? ==> AllSet(a.optional.value)
    case Some(Metadata) => forall k :: k in a.metadata.entries ==> AllSet(a.metadata.entries[k])
    case _ => true
  }

  /** Built by the constructors, at every node. */
  ghost predicate Built(a: ArgValue) {
    match Picked(a)
    case None => false
    case Some(Amount) => a == ArgAmount(a.amount.value)
    case Some(Address) => a == ArgAddress(a.address.value)
    case Some(Workspace) => a == ArgWorkspace(a.workspace.value)
    case Some(String) => a == ArgString(a.str.value)
    case Some(Bool) => a == ArgBool(a.boolean.value)
    case Some(U64) => a == ArgU64(a.u64.value)
    case Some(I64) => a == ArgI64(a.i64.value)
    case Some(NonFungibleId) => a == ArgNonFungibleId(a.nonFungibleId.value)
    case Some(List) => a == ArgList(a.list) && forall i :: 0 <= i < |a.list.items| ==> Built(a.list.items[i])
    case Some(Optional) =>
      if a.optional.None? then a == ArgNone() else a == ArgSome(a.optional.value) && Built(a.optional.value)
    case Some(Bytes) => a == ArgBytes(a.bytes)
    case Some(Metadata) =>
      a == ArgMetadataValues(a.metadata) && forall k :: k in a.metadata.entries ==> Built(a.metadata.entries[k])
  }

  lemma {:induction false} MarshalsIff(a: ArgValue)
    ensures Marshal(a).Some? <==> AllSet(a)
  {
    if Picked(a).Some? {
      match Picked(a).value
      case List =>
        if a.list.Args? {
          forall i | 0 <= i < |a.list.items| ensures Marshal(a.list.items[i]).Some? <==> AllSet(a.list.items[i]) {
            MarshalsIff(a.list.items[i]);
          }
        }
      case Optional =>
        if a.optional.Some? {
          MarshalsIff(a.optional.value);
        }
      case Metadata =>
        forall k | k in a.metadata.entries ensures Marshal(a.metadata.entries[k]).Some? <==>
          AllSet(a.metadata.entries[k]) {
          MarshalsIff(a.metadata.entries[k]);
        }
      case _ =>
    }
  }

  lemma {:induction false} BuiltIsNormal(a: ArgValue)
    requires Built(a)
    ensures AllSet(a) && Normal(a) == a
  {
    match Picked(a).value
    case List =>
      forall i | 0 <= i < |a.list.items| ensures AllSet(a.list.items[i]) && Normal(a.list.items[i]) == a.list.items[i] {
        BuiltIsNormal(a.list.items[i]);
      }
      assert NormalAll(a) == a.list.items;
    case Optional =>
      if a.optional.Some? {
        BuiltIsNormal(a.optional.value);
      }
    case Metadata =>
      forall k | k in a.metadata.entries
        ensures AllSet(a.metadata.entries[k]) && Normal(a.metadata.entries[k]) == a.metadata.entries[k]
      {
        BuiltIsNormal(a.metadata.entries[k]);
      }
      assert NormalEntries(a) == a.metadata.entries;
    case _ =>
  }

  /** A value built by the constructors, however nested, marshals and is recovered as it was. */
  lemma {:induction false} BuiltRoundTrip(a: ArgValue)
    requires Built(a)
    ensures Marshal(a).Some? && Unmarshal(Marshal(a).value) == Some(a)
  {
    BuiltIsNormal(a);
    MarshalsIff(a);
    RoundTrip(a);
  }

  lemma ConstructorsBuild(bytes: Option<seq<byte>>, strings: Option<map<string, string>>, entries: Entries, items: Args)
    requires entries.Entries? ==> forall k :: k in entries.entries ==> Built(entries.entries[k])
    requires items.Args? ==> forall i :: 0 <= i < |items.items| ==> Built(items.items[i])
    ensures Built(ArgBytes(bytes)) && Built(ArgMetadata(strings)) && Built(ArgMetadataValues(entries))
            && Built(ArgList(items))
  {
    var m := ArgMetadata(strings);
    forall k | k in m.metadata.entries ensures Built(m.metadata.entries[k]) {
      assert m.metadata.entries[k] == ArgString(strings.GetOr(map[])[k]);
    }
  }

  // ---- No list is ever null ----

  /** No object in json has key with a null under it. */
  ghost predicate NeverNullUnder(json: Json, key: string) {
    match json
    case JArr(items) => forall i :: 0 <= i < |items| ==> NeverNullUnder(items[i], key)
    case JObj(fields) => forall k :: k in fields ==> (k == key ==> !fields[k].JNull?) && NeverNullUnder(fields[k], key)
    case _ => true
  }

  lemma {:induction false} ListIsNeverNull(a: ArgValue)
    requires Marshal(a).Some?
    ensures NeverNullUnder(Marshal(a).value, "List")
    decreases a, 1
  {
    var v, json := Picked(a).value, Payload(a).value;
    assert NeverNullUnder(json, "List") by {
      PayloadIsNeverNull(a);
    }
    VariantOfTag(v);
    assert Tag(v) == "List" ==> v == List;
    assert forall k :: k in Tagged(Tag(v), json).fields ==> k == Tag(v);
  }

  lemma {:induction false} PayloadIsNeverNull(a: ArgValue)
    requires Picked(a).Some? && Payload(a).Some?
    ensures NeverNullUnder(Payload(a).value, "List")
    decreases a, 0
  {
    match Picked(a).value
    case List =>
      if a.list.Args? {
        forall i | 0 <= i < |a.list.items| ensures NeverNullUnder(Marshal(a.list.items[i]).value, "List") {
          ListIsNeverNull(a.list.items[i]);
        }
      }
    case Optional =>
      if a.optional.Some? {
        ListIsNeverNull(a.optional.value);
      }
    case Metadata =>
      forall k | k in a.metadata.entries
        ensures Marshal(a.metadata.entries[k]).value.JObj?
                && NeverNullUnder(Marshal(a.metadata.entries[k]).value, "List")
      {
        ListIsNeverNull(a.metadata.entries[k]);
      }
    case _ =>
  }

  // ---- References, owner rules and fee sources ----

  function Field(json: Json, key: string): Option<Json> {
    if json.JObj? && key in json.fields then Some(json.fields[key]) else None
  }

  function StringField(json: Json, key: string): Option<string> {
    match Field(json, key)
    case Some(JStr(s)) => Some(s)
    case _ => None
  }

  datatype ComponentRef = ComponentRef(address: Option<string>, workspace: Option<string>)

  function ComponentAtAddress(address: string): ComponentRef { ComponentRef(Some(address), None) }
  function ComponentOnWorkspace(key: string): ComponentRef { ComponentRef(None, Some(key)) }

  function MarshalRef(r: ComponentRef): Option<Json> {
    if r.address.Some? then Some(Tagged("Address", JStr(r.address.value)))
    else if r.workspace.Some? then Some(Tagged("Workspace", JStr(r.workspace.value)))
    else None
  }

  function UnmarshalRef(json: Json): Option<ComponentRef> {
    match (StringField(json, "Address"), StringField(json, "Workspace"))
    case (Some(address), _) => Some(ComponentAtAddress(address))
    case (None, Some(key)) => Some(ComponentOnWorkspace(key))
    case _ => None
  }

  function NormalRef(r: ComponentRef): ComponentRef {
    if r.address.Some? then r.(workspace := None) else r
  }

  lemma RefRoundTrip(r: ComponentRef)
    ensures MarshalRef(r).Some? <==> r.address.Some? || r.workspace.Some?
    ensures MarshalRef(r).Some? ==> UnmarshalRef(MarshalRef(r).value) == Some(NormalRef(r))
  {
    assert |"Address"| == 7 && |"Workspace"| == 9;
  }

  datatype OwnerRuleSpec = RuleUnset | OwnedBySigner | NoOwner | ByPublicKey(publicKey: string)

  function MarshalRule(o: OwnerRuleSpec): Option<Json> {
    match o
    case RuleUnset => None
    case OwnedBySigner => Some(JStr("OwnedBySigner"))
    case NoOwner => Some(JStr("None"))
    case ByPublicKey(key) => Some(Tagged("ByPublicKey", JStr(key)))
  }

  function UnmarshalRule(json: Json): Option<OwnerRuleSpec> {
    if json.JStr? then
      if json.s == "OwnedBySigner" then Some(OwnedBySigner) else if json.s == "None" then Some(NoOwner) else None
    else
      match StringField(json, "ByPublicKey")
      case Some(key) => Some(ByPublicKey(key))
      case None => None
  }

  lemma RuleRoundTrip(o: OwnerRuleSpec)
    ensures MarshalRule(o).Some? <==> o != RuleUnset
    ensures MarshalRule(o).Some? ==> UnmarshalRule(MarshalRule(o).value) == Some(o)
  {
    assert |"OwnedBySigner"| == 13 && |"None"| == 4;
  }

  datatype FeeSource = FeeSource(fromAccount: Option<string>, fromWorkspaceComponent: Option<string>,
                                 fromBucket: Option<string>)

  function FeeFromAccount(component: string): FeeSource { FeeSource(Some(component), None, None) }
  function FeeFromWorkspaceComponent(key: string): FeeSource { FeeSource(None, Some(key), None) }
  function FeeFromBucket(key: string): FeeSource { FeeSource(None, None, Some(key)) }

  function MarshalFee(f: FeeSource): Option<Json> {
    if f.fromAccount.Some? then Some(Tagged("FromAccount", JStr(f.fromAccount.value)))
    else if f.fromWorkspaceComponent.Some? then
      Some(Tagged("FromWorkspaceComponent", Tagged("label", JStr(f.fromWorkspaceComponent.value))))
    else if f.fromBucket.Some? then Some(Tagged("FromBucket", Tagged("label", JStr(f.fromBucket.value))))
    else None
  }

  function UnmarshalFee(json: Json): Option<FeeSource> {
    if Field(json, "FromAccount").Some? then
      match StringField(json, "FromAccount")
      case Some(component) => Some(FeeFromAccount(component))
      case None => None
    else if Field(json, "FromWorkspaceComponent").Some? then
      match StringField(Field(json, "FromWorkspaceComponent").value, "label")
      case Some(key) => Some(FeeFromWorkspaceComponent(key))
      case None => None
    else if Field(json, "FromBucket").Some? then
      match StringField(Field(json, "FromBucket").value, "label")
      case Some(key) => Some(FeeFromBucket(key))
      case None => None
    else None
  }

  function NormalFee(f: FeeSource): FeeSource {
    if f.fromAccount.Some? then FeeFromAccount(f.fromAccount.value)
    else if f.fromWorkspaceComponent.Some? then FeeFromWorkspaceComponent(f.fromWorkspaceComponent.value)
    else f
  }

  lemma FeeRoundTrip(f: FeeSource)
    ensures MarshalFee(f).Some? <==> f.fromAccount.Some? || f.fromWorkspaceComponent.Some? || f.fromBucket.Some?
    ensures MarshalFee(f).Some? ==> UnmarshalFee(MarshalFee(f).value) == Some(NormalFee(f))
  {
    assert |"FromAccount"| == 11 && |"FromWorkspaceComponent"| == 22 && |"FromBucket"| == 10;
  }

  // ---- Instructions ----

  datatype CallFunctionSpec = CallFunctionSpec(template: string, function': string, args: Args)
  datatype CallMethodSpec = CallMethodSpec(call: ComponentRef, method': string, args: Args)
  datatype CreateAccountSpec = CreateAccountSpec(ownerKey: string, rule: Option<OwnerRuleSpec>, bucket: Option<string>)
  datatype PublishTemplateSpec = PublishTemplateSpec(blobIndex: nat, metadataHash: Option<string>)

  datatype InstructionSpec = InstructionSpec(
    callFunction: Option<CallFunctionSpec>,
    callMethod: Option<CallMethodSpec>,
    createAccount: Option<CreateAccountSpec>,
    publishTemplate: Option<PublishTemplateSpec>,
    putWorkspace: Option<string>)

  const NO_INSTRUCTION := InstructionSpec(None, None, None, None, None)

  function CallFunction(template: string, fn: string, args: Args): InstructionSpec {
    NO_INSTRUCTION.(callFunction := Some(CallFunctionSpec(template, fn, NonNilArgs(args))))
  }

  function CallMethod(component: string, name: string, args: Args): InstructionSpec {
    NO_INSTRUCTION.(callMethod := Some(CallMethodSpec(ComponentAtAddress(component), name, NonNilArgs(args))))
  }

  function CallMethodOnWorkspace(key: string, name: string, args: Args): InstructionSpec {
    NO_INSTRUCTION.(callMethod := Some(CallMethodSpec(ComponentOnWorkspace(key), name, NonNilArgs(args))))
  }

  function CreateAccount(ownerKey: string, rule: Option<OwnerRuleSpec>, bucket: Option<string>): InstructionSpec {
    NO_INSTRUCTION.(createAccount := Some(CreateAccountSpec(ownerKey, rule, bucket)))
  }

  function PublishTemplate(blobIndex: nat, metadataHash: Option<seq<byte>>): InstructionSpec {
    NO_INSTRUCTION.(publishTemplate :=
      Some(PublishTemplateSpec(blobIndex, if metadataHash.Some? then Some(Encode(metadataHash.value)) else None)))
  }

  function PutLastInstructionOutputOnWorkspace(key: string): InstructionSpec {
    NO_INSTRUCTION.(putWorkspace := Some(key))
  }

  /** An args list marshals as the list argument of the same items does. */
  function MarshalArgs(args: Args): Option<Json> {
    match MarshalAll(ArgList(args))
    case None => None
    case Some(items) => Some(JArr(items))
  }

  function Nullable(s: Option<string>): Json {
    if s.Some? then JStr(s.value) else JNull
  }

  function MarshalCall(c: CallFunctionSpec): Option<Json> {
    match MarshalArgs(c.args)
    case None => None
    case Some(args) =>
      Some(JObj(map["template_address" := JStr(c.template), "function" := JStr(c.function'), "args" := args]))
  }

  function MarshalMethod(c: CallMethodSpec): Option<Json> {
    match (MarshalRef(c.call), MarshalArgs(c.args))
    case (Some(call), Some(args)) => Some(JObj(map["call" := call, "method" := JStr(c.method'), "args" := args]))
    case _ => None
  }

  function MarshalAccount(c: CreateAccountSpec): Option<Json> {
    var rule := if c.rule.None? then Some(JNull) else MarshalRule(c.rule.value);
    match rule
    case None => None
    case Some(json) =>
      Some(JObj(map["owner_public_key" := JStr(c.ownerKey), "owner_rule" := json,
        "bucket_workspace_id" := Nullable(c.bucket)]))
  }

  function MarshalPublish(p: PublishTemplateSpec): Json {
    JObj(map["blob_index" := JNum(p.blobIndex), "metadata_hash" := Nullable(p.metadataHash)])
  }

  function Wrap(tag: string, json: Option<Json>): Option<Json> {
    if json.Some? then Some(Tagged(tag, json.value)) else None
  }

  function MarshalInstruction(i: InstructionSpec): Option<Json> {
    if i.callFunction.Some? then Wrap("CallFunction", MarshalCall(i.callFunction.value))
    else if i.callMethod.Some? then Wrap("CallMethod", MarshalMethod(i.callMethod.value))
    else if i.createAccount.Some? then Wrap("CreateAccount", MarshalAccount(i.createAccount.value))
    else if i.publishTemplate.Some? then Some(Tagged("PublishTemplate", MarshalPublish(i.publishTemplate.value)))
    else if i.putWorkspace.Some? then
      Some(Tagged("PutLastInstructionOutputOnWorkspace", Tagged("key", JStr(i.putWorkspace.value))))
    else None
  }

  /** A component reference, an owner rule and a fee source on the wire. */
  lemma PartsOnTheWire(s: string)
    ensures MarshalRef(ComponentAtAddress(s)) == Some(JObj(map["Address" := JStr(s)]))
    ensures MarshalRef(ComponentOnWorkspace(s)) == Some(JObj(map["Workspace" := JStr(s)]))
    ensures MarshalRule(OwnedBySigner) == Some(JStr("OwnedBySigner")) && MarshalRule(NoOwner) == Some(JStr("None"))
    ensures MarshalRule(ByPublicKey(s)) == Some(JObj(map["ByPublicKey" := JStr(s)]))
    ensures MarshalFee(FeeFromAccount(s)) == Some(JObj(map["FromAccount" := JStr(s)]))
    ensures MarshalFee(FeeFromWorkspaceComponent(s))
            == Some(JObj(map["FromWorkspaceComponent" := JObj(map["label" := JStr(s)])]))
    ensures MarshalFee(FeeFromBucket(s)) == Some(JObj(map["FromBucket" := JObj(map["label" := JStr(s)])]))
  {
  }

  lemma ArgsOnTheWire(args: Args)
    requires MarshalArgs(args).Some?
    ensures ListJson(args, MarshalArgs(args).value) && MarshalArgs(NonNilArgs(args)) == MarshalArgs(args)
  {
    assert ArgList(NonNilArgs(args)) == ArgList(args);
  }

  /** The calls on the wire, with their arguments in order. */
  lemma CallsOnTheWire(target: string, name: string, args: Args)
    requires MarshalArgs(args).Some?
    ensures ListJson(args, MarshalArgs(args).value)
    ensures MarshalInstruction(CallFunction(target, name, args))
            == Some(JObj(map["CallFunction" :=
              JObj(map["template_address" := JStr(target), "function" := JStr(name),
                       "args" := MarshalArgs(args).value])]))
    ensures MarshalInstruction(CallMethod(target, name, args))
            == Some(JObj(map["CallMethod" :=
              JObj(map["call" := JObj(map["Address" := JStr(target)]), "method" := JStr(name),
                       "args" := MarshalArgs(args).value])]))
    ensures MarshalInstruction(CallMethodOnWorkspace(target, name, args))
            == Some(JObj(map["CallMethod" :=
              JObj(map["call" := JObj(map["Workspace" := JStr(target)]), "method" := JStr(name),
                       "args" := MarshalArgs(args).value])]))
  {
    ArgsOnTheWire(args);
  }

  /** The other instructions on the wire. */
  lemma InstructionsOnTheWire(key: string, rule: Option<OwnerRuleSpec>, bucket: Option<string>, blob: nat,
                              hash: Option<seq<byte>>)
    requires rule.Some? ==> MarshalRule(rule.value).Some?
    ensures MarshalInstruction(CreateAccount(key, rule, bucket))
            == Some(JObj(map["CreateAccount" :=
              JObj(map["owner_public_key" := JStr(key),
                       "owner_rule" := if rule.None? then JNull else MarshalRule(rule.value).value,
                       "bucket_workspace_id" := if bucket.None? then JNull else JStr(bucket.value)])]))
    ensures MarshalInstruction(PublishTemplate(blob, hash))
            == Some(JObj(map["PublishTemplate" :=
              JObj(map["blob_index" := JNum(blob),
                       "metadata_hash" := if hash.None? then JNull else JStr(Encode(hash.value))])]))
    ensures MarshalInstruction(PutLastInstructionOutputOnWorkspace(key))
            == Some(JObj(map["PutLastInstructionOutputOnWorkspace" := JObj(map["key" := JStr(key)])]))
  {
  }

  // ---- Reading instructions back ----

  ghost function ArgsField(json: Json): Option<Args> {
    match Field(json, "args")
    case Some(JArr(items)) =>
      (match UnmarshalAll(JArr(items))
       case Some(args) => Some(Args(args))
       case None => None)
    case _ => None
  }

  /** A field that is a string or null. */
  function NullableField(json: Json, key: string): Option<Option<string>> {
    match Field(json, key)
    case Some(JStr(s)) => Some(Some(s))
    case Some(JNull) => Some(None)
    case _ => None
  }

  ghost function UnmarshalCall(json: Json): Option<InstructionSpec> {
    match (StringField(json, "template_address"), StringField(json, "function"), ArgsField(json))
    case (Some(template), Some(fn), Some(args)) => Some(CallFunction(template, fn, args))
    case _ => None
  }

  ghost function UnmarshalMethod(json: Json): Option<InstructionSpec> {
    match (if Field(json, "call").Some? then UnmarshalRef(Field(json, "call").value) else None,
           StringField(json, "method"), ArgsField(json))
    case (Some(call), Some(name), Some(args)) =>
      Some(NO_INSTRUCTION.(callMethod := Some(CallMethodSpec(call, name, args))))
    case _ => None
  }

  function UnmarshalAccount(json: Json): Option<InstructionSpec> {
    match (StringField(json, "owner_public_key"), Field(json, "owner_rule"), NullableField(json, "bucket_workspace_id"))
    case (Some(key), Some(rule), Some(bucket)) =>
      if rule.JNull? then Some(CreateAccount(key, None, bucket))
      else if UnmarshalRule(rule).None? then None
      else Some(CreateAccount(key, UnmarshalRule(rule), bucket))
    case _ => None
  }

  function UnmarshalPublish(json: Json): Option<InstructionSpec> {
    match (Field(json, "blob_index"), NullableField(json, "metadata_hash"))
    case (Some(JNum(n)), Some(hash)) =>
      if n < 0 then None else Some(NO_INSTRUCTION.(publishTemplate := Some(PublishTemplateSpec(n, hash))))
    case _ => None
  }

  ghost function UnmarshalInstruction(json: Json): Option<InstructionSpec> {
    if Field(json, "CallFunction").Some? then UnmarshalCall(Field(json, "CallFunction").value)
    else if Field(json, "CallMethod").Some? then UnmarshalMethod(Field(json, "CallMethod").value)
    else if Field(json, "CreateAccount").Some? then UnmarshalAccount(Field(json, "CreateAccount").value)
    else if Field(json, "PublishTemplate").Some? then UnmarshalPublish(Field(json, "PublishTemplate").value)
    else if Field(json, "PutLastInstructionOutputOnWorkspace").Some? then
      match StringField(Field(json, "PutLastInstructionOutputOnWorkspace").value, "key")
      case Some(key) => Some(PutLastInstructionOutputOnWorkspace(key))
      case None => None
    else None
  }

  function NormalArgs(args: Args): Args {
    Args(NormalAll(ArgList(args)))
  }

  /** The picked variant alone, its args never nil and each normalised. */
  function NormalInstruction(i: InstructionSpec): InstructionSpec {
    if i.callFunction.Some? then
      CallFunction(i.callFunction.value.template, i.callFunction.value.function', NormalArgs(i.callFunction.value.args))
    else if i.callMethod.Some? then
      NO_INSTRUCTION.(callMethod := Some(CallMethodSpec(NormalRef(i.callMethod.value.call), i.callMethod.value.method',
                                                        NormalArgs(i.callMethod.value.args))))
    else if i.createAccount.Some? then NO_INSTRUCTION.(createAccount := i.createAccount)
    else if i.publishTemplate.Some? then NO_INSTRUCTION.(publishTemplate := i.publishTemplate)
    else i
  }

  lemma ArgsRoundTrip(args: Args)
    requires MarshalArgs(args).Some?
    ensures MarshalArgs(args).value.JArr? && UnmarshalAll(MarshalArgs(args).value) == Some(NormalAll(ArgList(args)))
  {
    var a := ArgList(args);
    forall i | 0 <= i < |a.list.items| ensures Recovered(a.list.items[i]) {
      RoundTrip(a.list.items[i]);
    }
    ListRoundTrip(a);
  }

  lemma CallRoundTrip(c: CallFunctionSpec)
    requires MarshalCall(c).Some?
    ensures UnmarshalCall(MarshalCall(c).value) == Some(CallFunction(c.template, c.function', NormalArgs(c.args)))
  {
    ArgsRoundTrip(c.args);
    assert |"template_address"| == 16 && |"function"| == 8 && |"args"| == 4;
  }

  lemma MethodRoundTrip(c: CallMethodSpec)
    requires MarshalMethod(c).Some?
    ensures UnmarshalMethod(MarshalMethod(c).value)
            == Some(NO_INSTRUCTION.(callMethod := Some(CallMethodSpec(NormalRef(c.call), c.method',
              NormalArgs(c.args)))))
  {
    ArgsRoundTrip(c.args);
    RefRoundTrip(c.call);
    assert |"call"| == 4 && |"method"| == 6 && |"args"| == 4 && "call"[0] != "args"[0];
  }

  lemma AccountRoundTrip(c: CreateAccountSpec)
    requires MarshalAccount(c).Some?
    ensures UnmarshalAccount(MarshalAccount(c).value) == Some(CreateAccount(c.ownerKey, c.rule, c.bucket))
  {
    if c.rule.Some? {
      RuleRoundTrip(c.rule.value);
    }
    assert |"owner_public_key"| == 16 && |"owner_rule"| == 10 && |"bucket_workspace_id"| == 19;
  }

  lemma PublishRoundTrip(p: PublishTemplateSpec)
    ensures UnmarshalPublish(MarshalPublish(p)) == Some(NO_INSTRUCTION.(publishTemplate := Some(p)))
  {
    assert |"blob_index"| == 10 && |"metadata_hash"| == 13;
  }

  /** Whatever instruction marshals is recovered, up to what the constructors normalise. */
  lemma InstructionRoundTrip(i: InstructionSpec)
    requires MarshalInstruction(i).Some?
    ensures UnmarshalInstruction(MarshalInstruction(i).value) == Some(NormalInstruction(i))
  {
    assert |"CallFunction"| == 12 && |"CallMethod"| == 10 && |"CreateAccount"| == 13;
    assert |"PublishTemplate"| == 15 && |"PutLastInstructionOutputOnWorkspace"| == 35;
    if i.callFunction.Some? {
      CallRoundTrip(i.callFunction.value);
    } else if i.callMethod.Some? {
      MethodRoundTrip(i.callMethod.value);
    } else if i.createAccount.Some? {
      AccountRoundTrip(i.createAccount.value);
    } else if i.publishTemplate.Some? {
      PublishRoundTrip(i.publishTemplate.value);
    }
  }

  ghost predicate ArgsSet(args: Args) {
    args.Args? ==> forall i :: 0 <= i < |args.items| ==> AllSet(args.items[i])
  }

  ghost predicate InstructionSet(i: InstructionSpec) {
    if i.callFunction.Some? then ArgsSet(i.callFunction.value.args)
    else if i.callMethod.Some? then
      var c := i.callMethod.value;
      (c.call.address.Some? || c.call.workspace.Some?) && ArgsSet(c.args)
    else if i.createAccount.Some? then i.createAccount.value.rule != Some(RuleUnset)
    else i.publishTemplate.Some? || i.putWorkspace.Some?
  }

  lemma ArgsMarshalIff(args: Args)
    ensures MarshalArgs(args).Some? <==> ArgsSet(args)
  {
    var a := ArgList(args);
    forall i | 0 <= i < |a.list.items| ensures Marshal(a.list.items[i]).Some? <==> AllSet(a.list.items[i]) {
      MarshalsIff(a.list.items[i]);
    }
  }

  lemma InstructionMarshalsIff(i: InstructionSpec)
    ensures MarshalInstruction(i).Some? <==> InstructionSet(i)
  {
    if i.callFunction.Some? {
      ArgsMarshalIff(i.callFunction.value.args);
    } else if i.callMethod.Some? {
      ArgsMarshalIff(i.callMethod.value.args);
    }
  }

  ghost predicate BuiltArgs(args: Args) {
    args.Args? ==> forall i :: 0 <= i < |args.items| ==> Built(args.items[i])
  }

  lemma BuiltArgsAreNormal(args: Args)
    requires BuiltArgs(args)
    ensures ArgsSet(args) && NormalArgs(args) == NonNilArgs(args)
  {
    var items := ArgList(args).list.items;
    forall i | 0 <= i < |items| ensures AllSet(items[i]) && Normal(items[i]) == items[i] {
      BuiltIsNormal(items[i]);
    }
    assert NormalAll(ArgList(args)) == items;
  }

  /** An instruction from a constructor, with arguments from constructors, marshals and is recovered as it was. */
  lemma BuiltInstruction(i: InstructionSpec, a: string, b: string, args: Args, rule: Option<OwnerRuleSpec>,
                         bucket: Option<string>,
                         blob: nat, hash: Option<seq<byte>>)
    requires BuiltArgs(args) && rule != Some(RuleUnset)
    requires || i == CallFunction(a, b, args)
             || i == CallMethod(a, b, args)
             || i == CallMethodOnWorkspace(a, b, args)
             || i == CreateAccount(a, rule, bucket)
             || i == PublishTemplate(blob, hash)
             || i == PutLastInstructionOutputOnWorkspace(a)
    ensures MarshalInstruction(i).Some? && UnmarshalInstruction(MarshalInstruction(i).value) == Some(i)
  {
    BuiltArgsAreNormal(args);
    BuiltArgsAreNormal(NonNilArgs(args));
    InstructionMarshalsIff(i);
    InstructionRoundTrip(i);
  }

  // ---- ootle/ootle.go: explicit inputs ----

  datatype InputRef = InputRef(substateId: string, version: Option<uint64>, readOnly: bool)

  /** A string field: empty when missing or null, None when it is something else. */
  function TextField(json: Json, key: string): Option<string> {
    match Field(json, key)
    case None => Some("")
    case Some(JNull) => Some("")
    case Some(JStr(s)) => Some(s)
    case _ => None
  }

  /** A number field: none when missing or null, None when it is something else. */
  function NumberField(json: Json, key: string): Option<Option<uint64>> {
    match Field(json, key)
    case None => Some(None)
    case Some(JNull) => Some(None)
    case Some(JNum(n)) => if 0 <= n <= MAX_U64 then Some(Some(n)) else None
    case _ => None
  }

  function FlagField(json: Json, key: string): Option<Option<bool>> {
    match Field(json, key)
    case None => Some(None)
    case Some(JNull) => Some(None)
    case Some(JBool(b)) => Some(Some(b))
    case _ => None
  }

  function NullableNumber(n: Option<uint64>): Json {
    if n.Some? then JNum(n.value) else JNull
  }

  /** A write, the core's default, leaves is_write out. */
  function MarshalInput(r: InputRef): Json {
    JObj(map["substate_id" := JStr(r.substateId), "version" := NullableNumber(r.version)]
         + if r.readOnly then map["is_write" := JBool(false)] else map[])
  }

  function UnmarshalInput(json: Json): Option<InputRef> {
    if !json.JObj? then None
    else
      match (TextField(json, "substate_id"), NumberField(json, "version"), FlagField(json, "is_write"))
      case (Some(id), Some(version), Some(write)) => Some(InputRef(id, version, write == Some(false)))
      case _ => None
  }

  /** An input and a blob on the wire: only a read says what it is. */
  lemma InputsOnTheWire(r: InputRef, bytes: seq<byte>)
    ensures var json := MarshalInput(r);
            && Field(json, "substate_id") == Some(JStr(r.substateId))
            && Field(json, "version") == Some(if r.version.None? then JNull else JNum(r.version.value))
            && Field(json, "is_write") == (if r.readOnly then Some(JBool(false)) else None)
    ensures UnmarshalInput(JObj(map["substate_id" := JStr(r.substateId), "is_write" := JBool(true)]))
            == Some(InputRef(r.substateId, None, false))
    ensures MarshalBlob(bytes) == JObj(map["bytes" := JStr(Encode(bytes))])
  {
    assert |"substate_id"| == 11 && |"version"| == 7 && |"is_write"| == 8;
  }

  lemma InputRoundTrip(r: InputRef)
    ensures UnmarshalInput(MarshalInput(r)) == Some(r)
  {
    assert |"substate_id"| == 11 && |"version"| == 7 && |"is_write"| == 8;
  }

  // ---- Lists ----

  ghost predicate ReadsAs<T(!new)>(read: Json -> Option<T>, items: seq<Json>, values: seq<T>) {
    |items| == |values| && forall k :: 0 <= k < |items| ==> read(items[k]) == Some(values[k])
  }

  function MarshalInstructions(s: seq<InstructionSpec>): (r: Option<seq<Json>>)
    ensures r.Some? <==> forall k :: 0 <= k < |s| ==> MarshalInstruction(s[k]).Some?
    ensures r.Some? ==> |r.value| == |s| && forall k :: 0 <= k < |s| ==> MarshalInstruction(s[k]) == Some(r.value[k])
  {
    if forall k :: 0 <= k < |s| ==> MarshalInstruction(s[k]).Some? then
      Some(seq(|s|, k requires 0 <= k < |s| => MarshalInstruction(s[k]).value))
    else None
  }

  function MarshalBlob(bytes: seq<byte>): Json {
    Tagged("bytes", JStr(Encode(bytes)))
  }

  function UnmarshalBlob(json: Json): Option<seq<byte>> {
    match StringField(json, "bytes")
    case Some(hex) => Decode(hex)
    case None => None
  }

  function MarshalBlobs(s: seq<seq<byte>>): seq<Json> {
    seq(|s|, k requires 0 <= k < |s| => MarshalBlob(s[k]))
  }

  function MarshalInputs(s: seq<InputRef>): seq<Json> {
    seq(|s|, k requires 0 <= k < |s| => MarshalInput(s[k]))
  }

  // ---- The generic intent ----

  /** A nil list is None. */
  datatype IntentBody = IntentBody(
    fee: uint64,
    feePayment: FeeSource,
    feeInstructions: Option<seq<InstructionSpec>>,
    instructions: Option<seq<InstructionSpec>>,
    blobs: Option<seq<seq<byte>>>,
    inputs: Option<seq<InputRef>>,
    extraInputs: Option<seq<InputRef>>,
    minEpoch: Option<uint64>,
    maxEpoch: uint64,
    dryRun: bool)

  ghost predicate BodySet(b: IntentBody) {
    && (b.feePayment.fromAccount.Some? || b.feePayment.fromWorkspaceComponent.Some? || b.feePayment.fromBucket.Some?)
    && (forall i :: i in b.feeInstructions.GetOr([]) ==> InstructionSet(i))
    && (forall i :: i in b.instructions.GetOr([]) ==> InstructionSet(i))
  }

  /** The fields that hold what the transaction does, and those that hold its inputs and window. */
  function ActionFields(fee: uint64, payment: Json, first: seq<Json>, main: seq<Json>,
                        blobs: seq<Json>): map<string, Json> {
    map["fee" := JNum(fee), "fee_payment" := payment, "fee_instructions" := JArr(first), "instructions" := JArr(main),
      "blobs" := JArr(blobs)]
  }

  function WindowFields(b: IntentBody): map<string, Json> {
    map["inputs" := JArr(MarshalInputs(b.inputs.GetOr([]))),
        "extra_inputs" := JArr(MarshalInputs(b.extraInputs.GetOr([]))),
        "min_epoch" := NullableNumber(b.minEpoch),
        "max_epoch" := JNum(b.maxEpoch),
        "dry_run" := JBool(b.dryRun)]
  }

  /** marshalIntent: nil lists become empty ones. */
  function MarshalIntent(b: IntentBody): Option<Json> {
    match (MarshalFee(b.feePayment), MarshalInstructions(b.feeInstructions.GetOr([])),
      MarshalInstructions(b.instructions.GetOr([])))
    case (Some(payment), Some(first), Some(main)) =>
      Some(JObj(ActionFields(b.fee, payment, first, main, MarshalBlobs(b.blobs.GetOr([]))) + WindowFields(b)))
    case _ => None
  }

  /** What a list field reads as, None unless it is an array. */
  ghost predicate ListField<T(!new)>(json: Json, key: string, read: Json -> Option<T>, values: seq<T>) {
    var field := Field(json, key);
    field.Some? && field.value.JArr? && ReadsAs(read, field.value.items, values)
  }

  function NormalInstructions(s: seq<InstructionSpec>): seq<InstructionSpec> {
    seq(|s|, k requires 0 <= k < |s| => NormalInstruction(s[k]))
  }

  lemma InstructionsMarshalIff(s: seq<InstructionSpec>)
    ensures MarshalInstructions(s).Some? <==> forall i :: i in s ==> InstructionSet(i)
  {
    forall k | 0 <= k < |s| ensures MarshalInstruction(s[k]).Some? <==> InstructionSet(s[k]) {
      InstructionMarshalsIff(s[k]);
    }
  }

  lemma InstructionsRoundTrip(s: seq<InstructionSpec>)
    requires MarshalInstructions(s).Some?
    ensures ReadsAs(UnmarshalInstruction, MarshalInstructions(s).value, NormalInstructions(s))
  {
    forall k | 0 <= k < |s|
      ensures UnmarshalInstruction(MarshalInstruction(s[k]).value) == Some(NormalInstruction(s[k])) {
      InstructionRoundTrip(s[k]);
    }
  }

  lemma BlobsRoundTrip(s: seq<seq<byte>>)
    ensures ReadsAs(UnmarshalBlob, MarshalBlobs(s), s)
  {
    forall k | 0 <= k < |s| ensures UnmarshalBlob(MarshalBlob(s[k])) == Some(s[k]) {
      DecodeEncode(s[k]);
    }
  }

  lemma InputsRoundTrip(s: seq<InputRef>)
    ensures ReadsAs(UnmarshalInput, MarshalInputs(s), s)
  {
    forall k | 0 <= k < |s| ensures UnmarshalInput(MarshalInput(s[k])) == Some(s[k]) {
      InputRoundTrip(s[k]);
    }
  }

  /** An intent marshals exactly when its fee source and every instruction have a variant set. */
  lemma IntentMarshalsIff(b: IntentBody)
    ensures MarshalIntent(b).Some? <==> BodySet(b)
  {
    FeeRoundTrip(b.feePayment);
    InstructionsMarshalIff(b.feeInstructions.GetOr([]));
    InstructionsMarshalIff(b.instructions.GetOr([]));
  }

  lemma ActionsRead(fee: uint64, payment: Json, first: seq<Json>, main: seq<Json>, blobs: seq<Json>, b: IntentBody)
    ensures var json := JObj(ActionFields(fee, payment, first, main, blobs) + WindowFields(b));
            && Field(json, "fee") == Some(JNum(fee)) && Field(json, "fee_payment") == Some(payment)
            && Field(json, "fee_instructions") == Some(JArr(first)) && Field(json, "instructions") == Some(JArr(main))
            && Field(json, "blobs") == Some(JArr(blobs))
  {
    assert |"fee"| == 3 && |"blobs"| == 5 && |"fee_payment"| == 11 && |"fee_instructions"| == 16
           && |"instructions"| == 12;
    assert |"inputs"| == 6 && |"dry_run"| == 7 && |"min_epoch"| == |"max_epoch"| == 9 && |"extra_inputs"| == 12;
    assert "instructions"[0] != "extra_inputs"[0];
  }

  lemma WindowReads(actions: map<string, Json>, b: IntentBody)
    ensures var json := JObj(actions + WindowFields(b));
            && Field(json, "inputs") == Some(JArr(MarshalInputs(b.inputs.GetOr([]))))
            && Field(json, "extra_inputs") == Some(JArr(MarshalInputs(b.extraInputs.GetOr([]))))
            && Field(json, "min_epoch") == Some(NullableNumber(b.minEpoch))
              && Field(json, "max_epoch") == Some(JNum(b.maxEpoch))
            && Field(json, "dry_run") == Some(JBool(b.dryRun))
  {
    assert |"inputs"| == 6 && |"dry_run"| == 7 && |"min_epoch"| == |"max_epoch"| == 9 && |"extra_inputs"| == 12;
    assert "min_epoch"[1] != "max_epoch"[1];
  }

  /** What the intent does is recovered: every list is an array, nil included, in order. */
  lemma IntentRoundTrip(b: IntentBody)
    requires MarshalIntent(b).Some?
    ensures var json := MarshalIntent(b).value;
            && NumberField(json, "fee") == Some(Some(b.fee))
            && Field(json, "fee_payment").Some?
              && UnmarshalFee(Field(json, "fee_payment").value) == Some(NormalFee(b.feePayment))
            && ListField(json, "fee_instructions", UnmarshalInstruction,
              NormalInstructions(b.feeInstructions.GetOr([])))
            && ListField(json, "instructions", UnmarshalInstruction, NormalInstructions(b.instructions.GetOr([])))
            && ListField(json, "blobs", UnmarshalBlob, b.blobs.GetOr([]))
  {
    var first, main := MarshalInstructions(b.feeInstructions.GetOr([])).value,
        MarshalInstructions(b.instructions.GetOr([])).value;
    ActionsRead(b.fee, MarshalFee(b.feePayment).value, first, main, MarshalBlobs(b.blobs.GetOr([])), b);
    FeeRoundTrip(b.feePayment);
    InstructionsRoundTrip(b.feeInstructions.GetOr([]));
    InstructionsRoundTrip(b.instructions.GetOr([]));
    BlobsRoundTrip(b.blobs.GetOr([]));
  }

  /** So are its inputs, its window and its dry-run flag. */
  lemma IntentWindowRoundTrip(b: IntentBody)
    requires MarshalIntent(b).Some?
    ensures var json := MarshalIntent(b).value;
            && ListField(json, "inputs", UnmarshalInput, b.inputs.GetOr([]))
            && ListField(json, "extra_inputs", UnmarshalInput, b.extraInputs.GetOr([]))
            && NumberField(json, "min_epoch") == Some(b.minEpoch)
              && NumberField(json, "max_epoch") == Some(Some(b.maxEpoch))
            && FlagField(json, "dry_run") == Some(Some(b.dryRun))
  {
    var first, main := MarshalInstructions(b.feeInstructions.GetOr([])).value,
        MarshalInstructions(b.instructions.GetOr([])).value;
    WindowReads(ActionFields(b.fee, MarshalFee(b.feePayment).value, first, main, MarshalBlobs(b.blobs.GetOr([]))), b);
    InputsRoundTrip(b.inputs.GetOr([]));
    InputsRoundTrip(b.extraInputs.GetOr([]));
  }
}
