/** The state of the context repository as a value, and every repository
    operation as a function of that state. The class in
    ContextRepository.dfy is proved against these functions; the lemmas at
    the end of this module state what the operations promise together. */
module ContextStore {
  import opened Wrappers
  import opened Values
  import opened Codec

  /** Every `*Hidden` twin of an operation is the same operation on the
      other partition. */
  datatype Partition = Visible | Hidden

  /** `data` holds the context, `hidden` the sensitive context. */
  datatype Store = Store(data: map<string, Value>, hidden: map<string, Value>)

  /** What a dehydrated context travels as: each value encoded. */
  datatype Snapshot = Snapshot(data: map<string, string>, hidden: map<string, string>)

  /** `push` on a key that does not hold a list. */
  datatype PushError = NotStackable(partition: Partition, key: string)

  const Empty := Store(map[], map[])

  function Other(p: Partition): Partition {
    if p == Visible then Hidden else Visible
  }

  /** `all()` / `allHidden()`. */
  function Part(s: Store, p: Partition): map<string, Value> {
    if p == Visible then s.data else s.hidden
  }

  /** `s` with partition `p` replaced by `m`. */
  function WithPart(s: Store, p: Partition, m: map<string, Value>): (r: Store)
    ensures Part(r, p) == m
    ensures Part(r, Other(p)) == Part(s, Other(p))
  {
    if p == Visible then Store(m, s.hidden) else Store(s.data, m)
  }

  /** `has` / `hasHidden`: the key is present, whatever its value, null included. */
  predicate Has(s: Store, p: Partition, key: string) {
    key in Part(s, p)
  }

  /** `get` / `getHidden`: the stored value, unless the key is absent or
      holds null, in which case the default (`??` does not tell the two apart). */
  function Get(s: Store, p: Partition, key: string, default: Value): (v: Value)
    ensures Has(s, p, key) && Part(s, p)[key] != Null ==> v == Part(s, p)[key]
    ensures !Has(s, p, key) || Part(s, p)[key] == Null ==> v == default
  {
    if key in Part(s, p) && Part(s, p)[key] != Null then Part(s, p)[key] else default
  }

  /** `only` / `onlyHidden`: the stored entries whose keys are listed;
      listed keys that are absent are left out. */
  function Only(s: Store, p: Partition, keys: seq<string>): (r: map<string, Value>)
    ensures forall k :: k in r <==> k in Part(s, p) && k in keys
    ensures forall k :: k in r ==> r[k] == Part(s, p)[k]
  {
    map k | k in Part(s, p) && k in keys :: Part(s, p)[k]
  }

  /** `add` / `addHidden` with a map of entries (a single key and value is
      the one-entry map): each given key is set, every other entry and the
      other partition stay as they were. */
  function Add(s: Store, p: Partition, entries: map<string, Value>): (r: Store)
    ensures Part(r, p).Keys == Part(s, p).Keys + entries.Keys
    ensures forall k :: k in entries ==> Part(r, p)[k] == entries[k]
    ensures forall k :: k in Part(s, p) && k !in entries ==> Part(r, p)[k] == Part(s, p)[k]
    ensures Part(r, Other(p)) == Part(s, Other(p))
  {
    WithPart(s, p, Part(s, p) + entries)
  }

  /** `addIf` / `addHiddenIf`: a present key keeps its value. */
  function AddIf(s: Store, p: Partition, key: string, value: Value): (r: Store)
    ensures Has(s, p, key) ==> r == s
    ensures Part(r, p).Keys == Part(s, p).Keys + {key}
    ensures Part(r, p)[key] == if Has(s, p, key) then Part(s, p)[key] else value
    ensures forall k :: k in Part(s, p) && k != key ==> Part(r, p)[k] == Part(s, p)[k]
    ensures Part(r, Other(p)) == Part(s, Other(p))
  {
    if Has(s, p, key) then s else Add(s, p, map[key := value])
  }

  /** `forget` / `forgetHidden`: every listed key is removed; absent keys
      are ignored. */
  function Forget(s: Store, p: Partition, keys: seq<string>): (r: Store)
    ensures forall k :: k in Part(r, p) <==> k in Part(s, p) && k !in keys
    ensures forall k :: k in Part(r, p) ==> Part(r, p)[k] == Part(s, p)[k]
    ensures Part(r, Other(p)) == Part(s, Other(p))
    ensures (forall k :: k in keys ==> !Has(s, p, k)) ==> r == s
  {
    WithPart(s, p, map k | k in Part(s, p) && k !in keys :: Part(s, p)[k])
  }

  /** `pull` / `pullHidden`: what `get` returns, and the store with the
      key forgotten. */
  function Pull(s: Store, p: Partition, key: string, default: Value): (r: (Value, Store))
    ensures r.0 == Get(s, p, key, default)
    ensures !Has(r.1, p, key)
    ensures Part(r.1, p) == Part(s, p) - {key}
    ensures Part(r.1, Other(p)) == Part(s, Other(p))
  {
    (Get(s, p, key, default), Forget(s, p, [key]))
  }

  /** `isStackable` / `isHiddenStackable`: absent, or a list. */
  predicate IsStackable(s: Store, p: Partition, key: string) {
    !Has(s, p, key) || IsList(Part(s, p)[key])
  }

  /** `push` / `pushHidden`: fails, changing nothing, when the key holds
      anything but a list (null and keyed arrays included); otherwise the
      key holds the old list, or the empty one, followed by `values`. */
  function Push(s: Store, p: Partition, key: string, values: seq<Value>): (r: Result<Store, PushError>)
    ensures r.Failure? <==> Has(s, p, key) && !IsList(Part(s, p)[key])
    ensures r.Failure? ==> r.error == NotStackable(p, key)
    ensures r.Success? ==> Part(r.value, p).Keys == Part(s, p).Keys + {key}
    ensures r.Success? ==>
              Part(r.value, p)[key] == List((if Has(s, p, key) then Items(Part(s, p)[key]) else []) + values)
    ensures r.Success? ==> forall k :: k in Part(s, p) && k != key ==> Part(r.value, p)[k] == Part(s, p)[k]
    ensures r.Success? ==> Part(r.value, Other(p)) == Part(s, Other(p))
  {
    if !IsStackable(s, p, key) then Failure(NotStackable(p, key))
    else
      var stack := if Has(s, p, key) then Items(Part(s, p)[key]) else [];
      Success(Add(s, p, map[key := List(stack + values)]))
  }

  /** `isEmpty`: neither partition holds anything. */
  predicate IsEmpty(s: Store) {
    s.data == map[] && s.hidden == map[]
  }

  /** Each value of a partition encoded (`array_map` of the serializer). */
  function EncodeAll(c: Codec, m: map<string, Value>): (r: map<string, string>)
    ensures r.Keys == m.Keys
    ensures forall k :: k in r ==> r[k] == c.encode(m[k])
  {
    map k | k in m :: c.encode(m[k])
  }

  /** `dehydrate`: the dehydrating listener runs on a copy; an empty copy
      yields no snapshot, otherwise each partition of the copy is encoded
      key by key. */
  function Dehydrate(s: Store, listener: Store -> Store, c: Codec): (r: Option<Snapshot>)
    ensures r.None? <==> IsEmpty(listener(s))
    ensures r.Some? ==> r.value.data.Keys == listener(s).data.Keys
    ensures r.Some? ==> r.value.hidden.Keys == listener(s).hidden.Keys
    ensures r.Some? ==> forall k :: k in r.value.data ==> r.value.data[k] == c.encode(listener(s).data[k])
    ensures r.Some? ==> forall k :: k in r.value.hidden ==> r.value.hidden[k] == c.encode(listener(s).hidden[k])
  {
    var copy := listener(s);
    if IsEmpty(copy) then None else Some(Snapshot(EncodeAll(c, copy.data), EncodeAll(c, copy.hidden)))
  }

  /** Every entry of one encoded partition restores (or is recovered). */
  predicate AllDecode(c: Codec, handler: Option<Handler>, raw: map<string, string>, hidden: bool) {
    forall k | k in raw :: DecodeEntry(c, handler, k, raw[k], hidden).Success?
  }

  /** The restored partition. */
  function DecodedAll(c: Codec, handler: Option<Handler>, raw: map<string, string>, hidden: bool)
    : (r: map<string, Value>)
    requires AllDecode(c, handler, raw, hidden)
    ensures r.Keys == raw.Keys
    ensures forall k :: k in r ==> Success(r[k]) == DecodeEntry(c, handler, k, raw[k], hidden)
  {
    map k | k in raw :: DecodeEntry(c, handler, k, raw[k], hidden).value
  }

  /** The two encoded partitions of an optional snapshot (none: both empty). */
  function RawData(snap: Option<Snapshot>): map<string, string> {
    if snap.Some? then snap.value.data else map[]
  }

  function RawHidden(snap: Option<Snapshot>): map<string, string> {
    if snap.Some? then snap.value.hidden else map[]
  }

  /** `hydrate`: when every entry of both partitions restores (or is
      recovered by the hook), the store becomes exactly the restored
      entries, whatever it held before; otherwise hydration is abandoned
      (None) and the store is left alone. */
  function Hydrate(c: Codec, handler: Option<Handler>, snap: Option<Snapshot>): (r: Option<Store>)
    ensures r.Some? <==> AllDecode(c, handler, RawData(snap), false) && AllDecode(c, handler, RawHidden(snap), true)
    ensures snap.None? ==> r == Some(Empty)
    ensures r.Some? ==> r.value.data.Keys == RawData(snap).Keys && r.value.hidden.Keys == RawHidden(snap).Keys
    ensures r.Some? ==> forall k :: k in r.value.data ==>
      Success(r.value.data[k]) == DecodeEntry(c, handler, k, RawData(snap)[k], false)
    ensures r.Some? ==> forall k :: k in r.value.hidden ==>
      Success(r.value.hidden[k]) == DecodeEntry(c, handler, k, RawHidden(snap)[k], true)
  {
    if AllDecode(c, handler, RawData(snap), false) && AllDecode(c, handler, RawHidden(snap), true) then
      Some(Add(Add(Empty, Visible, DecodedAll(c, handler, RawData(snap), false)),
               Hidden, DecodedAll(c, handler, RawHidden(snap), true)))
    else None
  }

  /** Every value in the store survives the codec's round trip. */
  predicate StoreEncodable(c: Codec, s: Store) {
    && (forall k :: k in s.data ==> Encodable(c, s.data[k]))
    && (forall k :: k in s.hidden ==> Encodable(c, s.hidden[k]))
  }

  // ---------------------------------------------------------------------
  // Properties relating several operations
  // ---------------------------------------------------------------------

  /** After adding a key, it is present and `get` returns the value (or the
      default, when the value added was null). */
  lemma AddThenGet(s: Store, p: Partition, key: string, value: Value, default: Value)
    ensures Has(Add(s, p, map[key := value]), p, key)
    ensures Get(Add(s, p, map[key := value]), p, key, default) == if value == Null then default else value
  {
  }

  /** After forgetting a key it is absent. */
  lemma ForgetThenHas(s: Store, p: Partition, keys: seq<string>, key: string)
    requires key in keys
    ensures !Has(Forget(s, p, keys), p, key)
  {
  }

  /** Two pushes onto one key leave the concatenation of both batches. */
  lemma {:induction false} PushTwice(s: Store, p: Partition, key: string, xs: seq<Value>, ys: seq<Value>)
    requires Push(s, p, key, xs).Success?
    ensures Push(Push(s, p, key, xs).value, p, key, ys).Success?
    ensures Push(Push(s, p, key, xs).value, p, key, ys) == Push(s, p, key, xs + ys)
  {
    var s1 := Push(s, p, key, xs).value;
    var before := if Has(s, p, key) then Items(Part(s, p)[key]) else [];
    assert Items(Part(s1, p)[key]) == before + xs;
    assert before + xs + ys == before + (xs + ys);
    var m := Part(s, p);
    assert Part(s1, p) == m + map[key := List(before + xs)];
    assert m + map[key := List(before + xs)] + map[key := List(before + xs + ys)] == m + map[key := List(before + (xs + ys))];
  }

  /** Hydrating the snapshot a store dehydrates to rebuilds, on any target
      store, exactly what the dehydrating listener left in the copy, when
      every one of those values round-trips through the codec. With no
      values changed by listeners, that is the source store itself. */
  lemma {:induction false} RoundTrip(s: Store, listener: Store -> Store, c: Codec, handler: Option<Handler>)
    requires StoreEncodable(c, listener(s))
    ensures Hydrate(c, handler, Dehydrate(s, listener, c)) == Some(listener(s))
  {
    var copy := listener(s);
    var snap := Dehydrate(s, listener, c);
    if snap.None? {
      assert copy == Empty;
    } else {
      forall k | k in RawData(snap)
        ensures DecodeEntry(c, handler, k, RawData(snap)[k], false) == Success(copy.data[k])
      {
        assert Encodable(c, copy.data[k]);
      }
      forall k | k in RawHidden(snap)
        ensures DecodeEntry(c, handler, k, RawHidden(snap)[k], true) == Success(copy.hidden[k])
      {
        assert Encodable(c, copy.hidden[k]);
      }
      var r := Hydrate(c, handler, snap).value;
      assert r.data == copy.data;
      assert r.hidden == copy.hidden;
    }
  }

  /** Without a hook, a snapshot holding an entry that does not restore is
      refused as a whole. */
  lemma NoPartialHydration(c: Codec, snap: Snapshot, key: string, hidden: bool)
    requires if hidden then key in snap.hidden && !Restores(c, snap.hidden[key])
             else key in snap.data && !Restores(c, snap.data[key])
    ensures Hydrate(c, None, Some(snap)).None?
  {
  }

  /** With a hook, an entry that does not restore takes the hook's value
      and every other entry is restored as usual. */
  lemma HookSubstitutes(c: Codec, h: Handler, snap: Snapshot, key: string, hidden: bool)
    requires if hidden then key in snap.hidden && !Restores(c, snap.hidden[key])
             else key in snap.data && !Restores(c, snap.data[key])
    ensures Hydrate(c, Some(h), Some(snap)).Some?
    ensures hidden ==> Hydrate(c, Some(h), Some(snap)).value.hidden[key] ==
                         h(RestoreError(c, snap.hidden[key]), key, snap.hidden[key], true)
    ensures !hidden ==> Hydrate(c, Some(h), Some(snap)).value.data[key] ==
                          h(RestoreError(c, snap.data[key]), key, snap.data[key], false)
  {
  }
}
