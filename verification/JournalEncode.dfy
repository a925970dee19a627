/** The values a journal holds, how they are tagged, and that reading the tags back gives the values. */
module JournalEncode {
  import opened Basics
  import opened Text
  import opened JournalDecode

  /** What tasks take and return: plain data, times, enum members and instances of typed classes. */
  datatype Value =
    | Atom(json: Json)
    | Listed(items: seq<Value>)
    | Dict(entries: map<string, Value>)
    | Moment(span: bool, shown: string)
    | Member(payload: Value)
    | Instance(model: bool, typeName: string, fields: map<string, Value>)

  /** The tagged form. */
  function Encode(v: Value): Json {
    match v
    case Atom(json) => json
    case Listed(items) => Arr(seq(|items|, i requires 0 <= i < |items| => Encode(items[i])))
    case Dict(entries) => Obj(map k | k in entries :: Encode(entries[k]))
    case Moment(span, shown) => Obj(map[TAG := Str(if span then "timedelta" else "datetime"), "v" := Str(shown)])
    case Member(payload) => Obj(map[TAG := Str("enum"), "v" := Encode(payload)])
    case Instance(model, typeName, fields) =>
      Obj(map[TAG := Str(if model then "model" else "dataclass"), "type" := Str(typeName),
              "fields" := Obj(map k | k in fields :: Encode(fields[k]))])
  }

  /** What a reader is shown: an instance as an object with its type's name, unless a field is named so itself. */
  function Shown(v: Value): Json {
    match v
    case Atom(json) => json
    case Listed(items) => Arr(seq(|items|, i requires 0 <= i < |items| => Shown(items[i])))
    case Dict(entries) => Obj(map k | k in entries :: Shown(entries[k]))
    case Moment(_, shown) => Str(shown)
    case Member(payload) => Shown(payload)
    case Instance(_, typeName, fields) =>
      Obj(map k | k in fields.Keys + {"$type"} :: if k in fields then Shown(fields[k]) else Str(typeName))
  }

  const TAGS := ["datetime", "timedelta", "enum", "dataclass", "model", "blobref"]

  /** No entry passes for one of the codec's own tags. */
  predicate Untagged(entries: map<string, Value>) {
    !(TAG in entries && entries[TAG].Atom? && entries[TAG].json.Str? && entries[TAG].json.s in TAGS)
  }

  predicate Encodable(v: Value) {
    match v
    case Atom(json) => !json.Arr? && !json.Obj?
    case Listed(items) => forall i | 0 <= i < |items| :: Encodable(items[i])
    case Dict(entries) => Untagged(entries) && forall k | k in entries :: Encodable(entries[k])
    case Moment(_, _) => true
    case Member(payload) => Encodable(payload)
    case Instance(_, _, fields) => Untagged(fields) && forall k | k in fields :: Encodable(fields[k])
  }

  /** `m` holds the tagged forms of the entries. */
  predicate Encodes(m: map<string, Json>, entries: map<string, Value>) {
    m.Keys == entries.Keys && forall k | k in m :: m[k] == Encode(entries[k])
  }

  /** `m` holds what a reader is shown of the entries. */
  predicate Shows(m: map<string, Json>, entries: map<string, Value>) {
    m.Keys == entries.Keys && forall k | k in m :: m[k] == Shown(entries[k])
  }

  lemma UntaggedIsPlain(entries: map<string, Value>, m: map<string, Json>)
    requires Encodes(m, entries) && Untagged(entries) && forall k | k in entries :: Encodable(entries[k])
    ensures KindOf(m).Plain?
  {
    if TAG in entries {
      assert m[TAG] == Encode(entries[TAG]);
      if entries[TAG].Atom? && entries[TAG].json.Str? { TagsAre(entries[TAG].json.s); }
    }
  }

  lemma TagsAre(t: string)
    ensures t in TAGS <==> t == "datetime" || t == "timedelta" || t == "enum" || t == "dataclass" || t == "model" || t == "blobref"
  {
    assert TAGS[0] == "datetime" && TAGS[1] == "timedelta" && TAGS[2] == "enum";
    assert TAGS[3] == "dataclass" && TAGS[4] == "model" && TAGS[5] == "blobref";
  }

  /** Every value is read back from its tagged form, whatever blobs there are. */
  lemma {:induction false} DecodeInvertsEncode(store: Store, rank: string -> nat, bound: nat, v: Value)
    requires Acyclic(store, rank) && Encodable(v)
    ensures RefsBelow(store, rank, Encode(v), bound)
    ensures Decode(store, rank, bound, Encode(v)) == Shown(v)
    decreases v, 1
  {
    match v
    case Atom(_) =>
    case Listed(items) =>
      forall i | 0 <= i < |items|
        ensures RefsBelow(store, rank, Encode(items[i]), bound) && Decode(store, rank, bound, Encode(items[i])) == Shown(items[i])
      {
        DecodeInvertsEncode(store, rank, bound, items[i]);
      }
    case Dict(entries) =>
      var m := Encode(v).fields;
      var shown := EntriesDecode(store, rank, bound, entries, m, v);
      assert shown == Shown(v).fields;
    case Moment(_, shown) => MomentDecodes(store, rank, bound, v);
    case Member(payload) =>
      DecodeInvertsEncode(store, rank, bound, payload);
      MemberDecodes(store, rank, bound, v);
    case Instance(_, _, fields) =>
      var m := Encode(v).fields["fields"].fields;
      var shown := EntriesDecode(store, rank, bound, fields, m, v);
      InstanceDecodes(store, rank, bound, v, m, shown);
  }

  lemma {:induction false} EntriesDecode(
    store: Store, rank: string -> nat, bound: nat, entries: map<string, Value>, m: map<string, Json>, v: Value)
    returns (shown: map<string, Json>)
    requires Acyclic(store, rank) && Encodes(m, entries) && Untagged(entries)
    requires forall k | k in entries :: Encodable(entries[k]) && entries[k] < v
    ensures RefsBelow(store, rank, Obj(m), bound) && Decode(store, rank, bound, Obj(m)) == Obj(shown)
    ensures Shows(shown, entries)
    decreases v, 0
  {
    UntaggedIsPlain(entries, m);
    forall k | k in m ensures RefsBelow(store, rank, m[k], bound) && Decode(store, rank, bound, m[k]) == Shown(entries[k]) {
      DecodeInvertsEncode(store, rank, bound, entries[k]);
    }
    hide Encode, Shown, Untagged, Encodable;
    assert RefsBelow(store, rank, Obj(m), bound);
    shown := map k | k in m :: Decode(store, rank, bound, m[k]);
  }

  lemma {:induction false} MomentDecodes(store: Store, rank: string -> nat, bound: nat, v: Value)
    requires Acyclic(store, rank) && v.Moment?
    ensures RefsBelow(store, rank, Encode(v), bound) && Decode(store, rank, bound, Encode(v)) == Str(v.shown)
  {
    var m := Encode(v).fields;
    assert m["v"] == Str(v.shown) && KindOf(m).Raw?;
    assert forall k | k in m :: m[k].Str?;
  }

  lemma {:induction false} MemberDecodes(store: Store, rank: string -> nat, bound: nat, v: Value)
    requires Acyclic(store, rank) && v.Member? && RefsBelow(store, rank, Encode(v.payload), bound)
    ensures RefsBelow(store, rank, Encode(v), bound)
    ensures Decode(store, rank, bound, Encode(v)) == Decode(store, rank, bound, Encode(v.payload))
  {
    var payload := Encode(v.payload);
    var m := Encode(v).fields;
    assert m == map[TAG := Str("enum"), "v" := payload];
    assert m["v"] == payload && KindOf(m).Enum?;
    assert forall k | k in m :: k == TAG || k == "v";
  }

  lemma {:induction false} InstanceDecodes(
    store: Store, rank: string -> nat, bound: nat, v: Value, fields: map<string, Json>, shown: map<string, Json>)
    requires Acyclic(store, rank) && v.Instance?
    requires Encodes(fields, v.fields) && Shows(shown, v.fields)
    requires RefsBelow(store, rank, Obj(fields), bound) && Decode(store, rank, bound, Obj(fields)) == Obj(shown)
    ensures RefsBelow(store, rank, Encode(v), bound) && Decode(store, rank, bound, Encode(v)) == Shown(v)
  {
    var m := InstanceForm(v, fields);
    hide Encode, KindOf;
    assert forall k | k in m :: RefsBelow(store, rank, m[k], bound);
    assert RefsBelow(store, rank, Obj(m), bound);
    hide Decode, RefsBelow;
    RecordReads(store, rank, bound, m);
    InstanceShown(v, shown, Decode(store, rank, bound, Obj(m)).fields);
  }

  lemma InstanceShown(v: Value, shown: map<string, Json>, r: map<string, Json>)
    requires v.Instance? && Shows(shown, v.fields)
    requires r.Keys == shown.Keys + {"$type"} && forall k | k in shown :: r[k] == shown[k]
    requires "$type" !in shown ==> r["$type"] == Str(v.typeName)
    ensures Obj(r) == Shown(v)
  {
    assert r == Shown(v).fields;
  }

  lemma InstanceForm(v: Value, fields: map<string, Json>) returns (m: map<string, Json>)
    requires v.Instance? && Encodes(fields, v.fields)
    ensures Encode(v) == Obj(m) && KindOf(m).Record? && m.Keys == {TAG, "type", "fields"}
    ensures m["type"] == Str(v.typeName) && m["fields"] == Obj(fields) && m[TAG].Str?
  {
    m := Encode(v).fields;
    assert m["fields"].fields == fields;
  }

  /** A record, field by field: its type under `$type`, unless a field is named so, and every field decoded. */
  lemma {:induction false} RecordReads(store: Store, rank: string -> nat, bound: nat, m: map<string, Json>)
    requires Acyclic(store, rank) && RefsBelow(store, rank, Obj(m), bound) && KindOf(m).Record?
    ensures var r := Decode(store, rank, bound, Obj(m));
            var typeName := Str(AsStr(Get(m, "type"), "?"));
            && r.Obj?
            && ("fields" in m && Decode(store, rank, bound, m["fields"]).Obj? ==>
                  var fields := Decode(store, rank, bound, m["fields"]).fields;
                  && r.fields.Keys == fields.Keys + {"$type"}
                  && (forall k | k in fields :: r.fields[k] == fields[k])
                  && ("$type" !in fields ==> r.fields["$type"] == typeName))
            && (!("fields" in m && Decode(store, rank, bound, m["fields"]).Obj?) ==> r.fields == map["$type" := typeName])
  {
  }

  /** And spilling any parts of the tagged form to blobs makes no difference. */
  lemma SpilledIsReadBack(store: Store, rank: string -> nat, bound: nat, v: Value, w: Json)
    requires Acyclic(store, rank) && Encodable(v)
    requires RefsBelow(store, rank, w, bound) && Spills(store, rank, bound, Encode(v), w)
    ensures Decode(store, rank, bound, w) == Shown(v)
  {
    DecodeInvertsEncode(store, rank, bound, v);
    SpillingIsInvisible(store, rank, bound, Encode(v), w);
  }

  /** A blob that cannot be read shows as a note with its size, its id and the reason. */
  lemma {:induction false} UnreadableBlobShows(store: Store, rank: string -> nat, bound: nat, id: string, size: int)
    requires Acyclic(store, rank)
    requires store.Some? && id in store.value ==> store.value[id].Garbled?
    ensures var ref := Obj(map[TAG := Str("blobref"), "id" := Str(id), "size" := Num(size)]);
            && RefsBelow(store, rank, ref, bound)
            && Decode(store, rank, bound, ref)
               == Str("<large value stored separately \U{2014} " + (if size >= 0 then Decimal(size) else "-" + Decimal(-size)) + " bytes, blob " + id
                      + (if store.None? then ", no blob directory mounted>"
                         else if id in store.value then ", unreadable content>" else ", not found>"))
  {
    var m := map[TAG := Str("blobref"), "id" := Str(id), "size" := Num(size)];
    assert m["id"] == Str(id) && BlobId(m) == id && m["size"] == Num(size) && BlobSize(m) == size && KindOf(m).Ref?;
    assert forall k | k in m :: m[k].Str? || m[k].Num?;
  }
}
