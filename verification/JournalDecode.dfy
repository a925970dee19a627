/** Reading tagged JSON back from the journal, with large values spilled to blobs. */
module JournalDecode {
  import opened Basics
  import opened Text

  datatype Json = Null | Bool(b: bool) | Num(n: int) | Str(s: string) | Arr(items: seq<Json>) | Obj(fields: map<string, Json>)

  /** A blob file: valid JSON or not. */
  datatype Blob = Holds(value: Json) | Garbled

  /** The mounted blob directory, if any. */
  type Store = Option<map<string, Blob>>

  const TAG := "$satay"

  function Get(m: map<string, Json>, key: string): Json {
    if key in m then m[key] else Null
  }

  function AsStr(v: Json, default: string): string {
    if v.Str? then v.s else default
  }

  /** How an object is read: by its tag, when it is one of the codec's. */
  datatype Kind = Raw | Enum | Record | Ref | Plain

  function KindOf(m: map<string, Json>): Kind {
    match Get(m, TAG)
    case Str(t) =>
      if t == "datetime" || t == "timedelta" then Raw
      else if t == "enum" then Enum
      else if t == "dataclass" || t == "model" then Record
      else if t == "blobref" then Ref
      else Plain
    case _ => Plain
  }

  function BlobId(m: map<string, Json>): string {
    AsStr(Get(m, "id"), "?")
  }

  function BlobSize(m: map<string, Json>): int {
    var size := Get(m, "size");
    if size.Num? then size.n else 0
  }

  /** The blob an object refers to, when it can be read. */
  function Target(store: Store, m: map<string, Json>): Option<Json> {
    if KindOf(m).Ref? && store.Some? && BlobId(m) in store.value && store.value[BlobId(m)].Holds?
    then Some(store.value[BlobId(m)].value)
    else None
  }

  function Signed(n: int): string {
    if n < 0 then "-" + Decimal(-n) else Decimal(n)
  }

  function Placeholder(store: Store, m: map<string, Json>): Json {
    Str("<large value stored separately \U{2014} " + Signed(BlobSize(m)) + " bytes, blob " + BlobId(m)
        + (if store.None? then ", no blob directory mounted>"
           else if BlobId(m) in store.value then ", unreadable content>" else ", not found>"))
  }

  // --- acyclic blobs ---

  /** Every blob that `v` refers to ranks below `bound`. */
  predicate RefsBelow(store: Store, rank: string -> nat, v: Json, bound: nat) {
    match v
    case Arr(items) => forall i | 0 <= i < |items| :: RefsBelow(store, rank, items[i], bound)
    case Obj(m) =>
      && (forall k | k in m :: RefsBelow(store, rank, m[k], bound))
      && (Target(store, m).Some? ==> rank(BlobId(m)) < bound)
    case _ => true
  }

  /** Every blob refers only to blobs of lower rank. */
  ghost predicate Acyclic(store: Store, rank: string -> nat) {
    store.Some? ==>
      forall id | id in store.value && store.value[id].Holds? :: RefsBelow(store, rank, store.value[id].value, rank(id))
  }

  // --- decoding ---

  /** `decode_value`. It ends because a blob ranks below its reader, and otherwise the value shrinks. */
  function Decode(store: Store, ghost rank: string -> nat, ghost bound: nat, v: Json): Json
    requires Acyclic(store, rank) && RefsBelow(store, rank, v, bound)
    decreases bound, v
  {
    match v
    case Arr(items) => Arr(seq(|items|, i requires 0 <= i < |items| => Decode(store, rank, bound, items[i])))
    case Obj(m) =>
      (match KindOf(m)
       case Raw => Get(m, "v")
       case Enum => if "v" in m then Decode(store, rank, bound, m["v"]) else Null
       case Record =>
         var fields := if "fields" in m then Decode(store, rank, bound, m["fields"]) else Null;
         var head := map["$type" := Str(AsStr(Get(m, "type"), "?"))];
         Obj(if fields.Obj? then head + fields.fields else head)
       case Ref =>
         if Target(store, m).Some? then Decode(store, rank, rank(BlobId(m)), Target(store, m).value)
         else Placeholder(store, m)
       case Plain => Obj(map k | k in m :: Decode(store, rank, bound, m[k])))
    case _ => v
  }

  /** The ranks only justify the recursion: they do not change what is read. */
  lemma {:induction false} RanksDoNotMatter(store: Store, r: string -> nat, b: nat, r': string -> nat, b': nat, v: Json)
    requires Acyclic(store, r) && RefsBelow(store, r, v, b)
    requires Acyclic(store, r') && RefsBelow(store, r', v, b')
    ensures Decode(store, r, b, v) == Decode(store, r', b', v)
    decreases b, v
  {
    match v
    case Arr(items) =>
      forall i | 0 <= i < |items| ensures Decode(store, r, b, items[i]) == Decode(store, r', b', items[i]) {
        RanksDoNotMatter(store, r, b, r', b', items[i]);
      }
    case Obj(m) =>
      forall k | k in m ensures Decode(store, r, b, m[k]) == Decode(store, r', b', m[k]) {
        RanksDoNotMatter(store, r, b, r', b', m[k]);
      }
      if Target(store, m).Some? {
        RanksDoNotMatter(store, r, r(BlobId(m)), r', r'(BlobId(m)), Target(store, m).value);
      }
    case _ =>
  }

  // --- spilling ---

  /** `w` is `v` with values at decoded positions replaced, any number and any depth, by references to blobs that hold them. */
  ghost predicate Spills(store: Store, rank: string -> nat, bound: nat, v: Json, w: Json)
    requires Acyclic(store, rank) && RefsBelow(store, rank, w, bound)
    decreases bound, w
  {
    || v == w
    || (w.Obj? && Target(store, w.fields).Some?
        && Spills(store, rank, rank(BlobId(w.fields)), v, Target(store, w.fields).value))
    || (v.Arr? && w.Arr? && |v.items| == |w.items|
        && forall i | 0 <= i < |v.items| :: Spills(store, rank, bound, v.items[i], w.items[i]))
    || (v.Obj? && w.Obj? && v.fields.Keys == w.fields.Keys
        && forall k | k in v.fields ::
             if Decoded(KindOf(v.fields), k) then Spills(store, rank, bound, v.fields[k], w.fields[k])
             else v.fields[k] == w.fields[k])
  }

  /** Which entries of an object are decoded: all of a plain one, the payload of a tagged one. */
  predicate Decoded(kind: Kind, key: string) {
    match kind
    case Raw => false
    case Enum => key == "v"
    case Record => key == "fields"
    case Ref => false
    case Plain => true
  }

  lemma {:induction false} SpillingKeepsRefs(store: Store, rank: string -> nat, bound: nat, v: Json, w: Json)
    requires Acyclic(store, rank) && RefsBelow(store, rank, w, bound) && Spills(store, rank, bound, v, w)
    ensures RefsBelow(store, rank, v, bound)
    decreases bound, w
  {
    if v == w {
    } else if w.Obj? && Target(store, w.fields).Some?
              && Spills(store, rank, rank(BlobId(w.fields)), v, Target(store, w.fields).value) {
      SpillingKeepsRefs(store, rank, rank(BlobId(w.fields)), v, Target(store, w.fields).value);
      HigherBound(store, rank, v, rank(BlobId(w.fields)), bound);
    } else if v.Arr? {
      forall i | 0 <= i < |v.items| ensures RefsBelow(store, rank, v.items[i], bound) {
        SpillingKeepsRefs(store, rank, bound, v.items[i], w.items[i]);
      }
    } else {
      ObjectKeepsRefs(store, rank, bound, v.fields, w.fields);
    }
  }

  lemma {:induction false} ObjectKeepsRefs(
    store: Store, rank: string -> nat, bound: nat, v: map<string, Json>, w: map<string, Json>)
    requires Acyclic(store, rank) && RefsBelow(store, rank, Obj(w), bound)
    requires v.Keys == w.Keys
    requires forall k | k in v ::
               if Decoded(KindOf(v), k) then Spills(store, rank, bound, v[k], w[k]) else v[k] == w[k]
    ensures RefsBelow(store, rank, Obj(v), bound)
    decreases bound, Obj(w), 0
  {
    forall k | k in v ensures RefsBelow(store, rank, v[k], bound) {
      assert w[k] < Obj(w);
      if Decoded(KindOf(v), k) { SpillingKeepsRefs(store, rank, bound, v[k], w[k]); }
    }
    KindKept(store, rank, bound, v, w);
    if KindOf(v).Ref? { assert v == w; }
  }

  /** Spilling never changes how an object is read. */
  lemma {:induction false} KindKept(store: Store, rank: string -> nat, bound: nat, v: map<string, Json>, w: map<string, Json>)
    requires Acyclic(store, rank) && RefsBelow(store, rank, Obj(w), bound)
    requires v.Keys == w.Keys
    requires forall k | k in v ::
               if Decoded(KindOf(v), k) then Spills(store, rank, bound, v[k], w[k]) else v[k] == w[k]
    ensures KindOf(v) == KindOf(w)
  {
    if TAG in v && v[TAG] != w[TAG] {
      assert Spills(store, rank, bound, v[TAG], w[TAG]);
    }
  }

  lemma {:induction false} HigherBound(store: Store, rank: string -> nat, v: Json, low: nat, high: nat)
    requires RefsBelow(store, rank, v, low) && low <= high
    ensures RefsBelow(store, rank, v, high)
  {
    match v
    case Arr(items) =>
      forall i | 0 <= i < |items| ensures RefsBelow(store, rank, items[i], high) { HigherBound(store, rank, items[i], low, high); }
    case Obj(m) =>
      forall k | k in m ensures RefsBelow(store, rank, m[k], high) { HigherBound(store, rank, m[k], low, high); }
    case _ =>
  }

  /** Blob spilling is invisible: the spilled value reads back as the original. */
  lemma {:induction false} SpillingIsInvisible(store: Store, rank: string -> nat, bound: nat, v: Json, w: Json)
    requires Acyclic(store, rank) && RefsBelow(store, rank, w, bound) && Spills(store, rank, bound, v, w)
    ensures RefsBelow(store, rank, v, bound)
    ensures Decode(store, rank, bound, v) == Decode(store, rank, bound, w)
    decreases bound, w, 1
  {
    SpillingKeepsRefs(store, rank, bound, v, w);
    if v == w {
    } else if w.Obj? && Target(store, w.fields).Some?
              && Spills(store, rank, rank(BlobId(w.fields)), v, Target(store, w.fields).value) {
      var low := rank(BlobId(w.fields));
      SpillingIsInvisible(store, rank, low, v, Target(store, w.fields).value);
      RanksDoNotMatter(store, rank, low, rank, bound, v);
    } else if v.Arr? {
      ArrayReads(store, rank, bound, v.items, w.items);
    } else {
      ObjectReads(store, rank, bound, v.fields, w.fields);
    }
  }

  lemma {:induction false} ArrayReads(store: Store, rank: string -> nat, bound: nat, v: seq<Json>, w: seq<Json>)
    requires Acyclic(store, rank) && RefsBelow(store, rank, Arr(v), bound) && RefsBelow(store, rank, Arr(w), bound)
    requires |v| == |w| && forall i | 0 <= i < |v| :: Spills(store, rank, bound, v[i], w[i])
    ensures Decode(store, rank, bound, Arr(v)) == Decode(store, rank, bound, Arr(w))
    decreases bound, Arr(w), 0
  {
    forall i | 0 <= i < |v| ensures Decode(store, rank, bound, v[i]) == Decode(store, rank, bound, w[i]) {
      SpillingIsInvisible(store, rank, bound, v[i], w[i]);
    }
  }

  lemma {:induction false} ObjectReads(
    store: Store, rank: string -> nat, bound: nat, v: map<string, Json>, w: map<string, Json>)
    requires Acyclic(store, rank) && RefsBelow(store, rank, Obj(v), bound) && RefsBelow(store, rank, Obj(w), bound)
    requires v.Keys == w.Keys
    requires forall k | k in v ::
               if Decoded(KindOf(v), k) then Spills(store, rank, bound, v[k], w[k]) else v[k] == w[k]
    ensures Decode(store, rank, bound, Obj(v)) == Decode(store, rank, bound, Obj(w))
    decreases bound, Obj(w), 0
  {
    KindKept(store, rank, bound, v, w);
    forall k | k in v && Decoded(KindOf(v), k)
      ensures Decode(store, rank, bound, v[k]) == Decode(store, rank, bound, w[k])
    {
      assert w[k] < Obj(w);
      SpillingIsInvisible(store, rank, bound, v[k], w[k]);
    }
    hide Spills;
    if KindOf(v).Plain? {
      assert (map k | k in v :: Decode(store, rank, bound, v[k])) == (map k | k in w :: Decode(store, rank, bound, w[k]));
    } else if KindOf(v).Ref? {
      assert v == w;
    }
  }

  /** Inside a datetime the payload is not decoded, so a reference there would show. */
  lemma {:induction false} RawPayloadShows(store: Store, rank: string -> nat, bound: nat, id: string)
    requires Acyclic(store, rank) && rank(id) < bound
    ensures var ref := Obj(map[TAG := Str("blobref"), "id" := Str(id)]);
            var w := Obj(map[TAG := Str("datetime"), "v" := ref]);
            RefsBelow(store, rank, w, bound) && Decode(store, rank, bound, w) == ref
  {
    var m := map[TAG := Str("blobref"), "id" := Str(id)];
    assert m["id"] == Str(id) && BlobId(m) == id;
    assert forall k | k in m :: RefsBelow(store, rank, m[k], bound);
    var outer := map[TAG := Str("datetime"), "v" := Obj(m)];
    assert outer["v"] == Obj(m) && KindOf(outer).Raw?;
    assert RefsBelow(store, rank, Obj(m), bound);
  }
}
