/** The context repository: one instance per unit of work, holding the
    visible and the hidden context and handing both across a queue
    boundary by dehydrating and hydrating them. Each method is proved to
    leave the repository in the state the matching function of
    ContextStore computes from the state before. */
module ContextRepository {
  import opened Wrappers
  import opened Values
  import opened Codec
  import opened ContextStore
  import opened Events

  /** An encoded partition restoring to `e`'s failure at some entry. */
  predicate FailsWith(c: Codec, handler: Option<Handler>, raw: map<string, string>, hidden: bool, e: DecodeError) {
    exists k :: k in raw && DecodeEntry(c, handler, k, raw[k], hidden) == Failure(e)
  }

  /** Restores every entry of one encoded partition (the collection map in
      `hydrate`), stopping at the first entry whose error is not recovered. */
  method DecodeAll(c: Codec, handler: Option<Handler>, raw: map<string, string>, hidden: bool)
    returns (r: Result<map<string, Value>, DecodeError>)
    ensures r.Success? <==> AllDecode(c, handler, raw, hidden)
    ensures r.Success? ==> r.value == DecodedAll(c, handler, raw, hidden)
    ensures r.Failure? ==> FailsWith(c, handler, raw, hidden, r.error)
  {
    var out: map<string, Value> := map[];
    var todo := raw.Keys;
    while todo != {}
      invariant todo <= raw.Keys
      invariant out.Keys == raw.Keys - todo
      invariant forall k :: k in out ==> DecodeEntry(c, handler, k, raw[k], hidden) == Success(out[k])
      decreases todo
    {
      var k :| k in todo;
      var d := DecodeEntry(c, handler, k, raw[k], hidden);
      if d.Failure? {
        return Failure(d.error);
      }
      out := out[k := d.value];
      todo := todo - {k};
    }
    r := Success(out);
    assert r.value == DecodedAll(c, handler, raw, hidden);
  }

  class Repository {
    const events: Dispatcher
    var data: map<string, Value>
    var hidden: map<string, Value>
    /** The unserialize exception hook; process-wide in the source. */
    var unserializeHandler: Option<Handler>

    function Contents(): Store
      reads this
    {
      Store(data, hidden)
    }

    constructor(events: Dispatcher)
      ensures this.events == events
      ensures Contents() == Empty
      ensures unserializeHandler.None?
    {
      this.events := events;
      data := map[];
      hidden := map[];
      unserializeHandler := None;
    }

    /** Replaces one partition. */
    method SetPart(p: Partition, m: map<string, Value>)
      modifies this`data, this`hidden
      ensures Contents() == WithPart(old(Contents()), p, m)
    {
      if p == Visible {
        data := m;
      } else {
        hidden := m;
      }
    }

    method Has(p: Partition, key: string) returns (b: bool)
      ensures b <==> key in Part(Contents(), p)
    {
      b := key in (if p == Visible then data else hidden);
    }

    method All(p: Partition) returns (m: map<string, Value>)
      ensures m == Part(Contents(), p)
    {
      m := if p == Visible then data else hidden;
    }

    method Get(p: Partition, key: string, default: Value) returns (v: Value)
      ensures v == ContextStore.Get(Contents(), p, key, default)
    {
      var m := All(p);
      v := if key in m && m[key] != Null then m[key] else default;
    }

    method Only(p: Partition, keys: seq<string>) returns (m: map<string, Value>)
      ensures m == ContextStore.Only(Contents(), p, keys)
    {
      var all := All(p);
      m := map k | k in all && k in keys :: all[k];
    }

    method Add(p: Partition, entries: map<string, Value>)
      modifies this`data, this`hidden
      ensures Contents() == ContextStore.Add(old(Contents()), p, entries)
    {
      var all := All(p);
      SetPart(p, all + entries);
    }

    method AddIf(p: Partition, key: string, value: Value)
      modifies this`data, this`hidden
      ensures Contents() == ContextStore.AddIf(old(Contents()), p, key, value)
    {
      var present := Has(p, key);
      if !present {
        Add(p, map[key := value]);
      }
    }

    /** Unsets the listed keys one at a time. */
    method Forget(p: Partition, keys: seq<string>)
      modifies this`data, this`hidden
      ensures Contents() == ContextStore.Forget(old(Contents()), p, keys)
    {
      var i := 0;
      while i < |keys|
        invariant 0 <= i <= |keys|
        invariant Contents() == ContextStore.Forget(old(Contents()), p, keys[..i])
      {
        var all := All(p);
        SetPart(p, all - {keys[i]});
        assert keys[..i + 1] == keys[..i] + [keys[i]];
        i := i + 1;
      }
      assert keys[..i] == keys;
    }

    method Pull(p: Partition, key: string, default: Value) returns (v: Value)
      modifies this`data, this`hidden
      ensures (v, Contents()) == ContextStore.Pull(old(Contents()), p, key, default)
    {
      v := Get(p, key, default);
      Forget(p, [key]);
    }

    method IsStackable(p: Partition, key: string) returns (b: bool)
      ensures b == ContextStore.IsStackable(Contents(), p, key)
    {
      var all := All(p);
      b := key !in all || IsList(all[key]);
    }

    /** Fails, with nothing changed, when the key is not stackable. */
    method Push(p: Partition, key: string, values: seq<Value>) returns (r: Outcome<PushError>)
      modifies this`data, this`hidden
      ensures r.Fail? <==> ContextStore.Push(old(Contents()), p, key, values).Failure?
      ensures r.Fail? ==> r.error == NotStackable(p, key) && Contents() == old(Contents())
      ensures r.Pass? ==> Contents() == ContextStore.Push(old(Contents()), p, key, values).value
    {
      var stackable := IsStackable(p, key);
      if !stackable {
        return Fail(NotStackable(p, key));
      }
      var all := All(p);
      var stack := if key in all then Items(all[key]) else [];
      SetPart(p, all + map[key := List(stack + values)]);
      r := Pass;
    }

    method IsEmpty() returns (b: bool)
      ensures b == ContextStore.IsEmpty(Contents())
    {
      b := data == map[] && hidden == map[];
    }

    method Flush()
      modifies this`data, this`hidden
      ensures Contents() == Empty && ContextStore.IsEmpty(Contents())
    {
      data := map[];
      hidden := map[];
    }

    method HandleUnserializeExceptionsUsing(handler: Option<Handler>)
      modifies this`unserializeHandler
      ensures unserializeHandler == handler
    {
      unserializeHandler := handler;
    }

    /** Copies the store into a fresh repository, announces the copy, lets
        the dehydrating listeners act on it, and encodes what is left. The
        store itself is not touched. */
    method Dehydrate(listener: Store -> Store, c: Codec) returns (snap: Option<Snapshot>)
      modifies events
      ensures Contents() == old(Contents())
      ensures events.dispatched == old(events.dispatched) + [ContextDehydrating(Contents())]
      ensures events.listeners == old(events.listeners)
      ensures snap == ContextStore.Dehydrate(Contents(), listener, c)
    {
      var instance := new Repository(events);
      instance.Add(Visible, data);
      instance.Add(Hidden, hidden);
      assert instance.Contents() == Contents();
      events.Dispatch(ContextDehydrating(instance.Contents()));
      var changed := listener(instance.Contents());
      instance.data, instance.hidden := changed.data, changed.hidden;
      var empty := instance.IsEmpty();
      snap := if empty then None else Some(Snapshot(EncodeAll(c, instance.data), EncodeAll(c, instance.hidden)));
    }

    /** Restores both partitions first; only when all of them restore (or
        are recovered) is the store flushed, reloaded and announced. A
        failure leaves the store and the dispatcher as they were. */
    method Hydrate(c: Codec, snap: Option<Snapshot>) returns (r: Outcome<DecodeError>)
      modifies this`data, this`hidden, events
      ensures r.Pass? <==> ContextStore.Hydrate(c, unserializeHandler, snap).Some?
      ensures r.Pass? ==> Contents() == ContextStore.Hydrate(c, unserializeHandler, snap).value
      ensures r.Pass? ==> events.dispatched == old(events.dispatched) + [ContextHydrated(Contents())]
      ensures r.Fail? ==> Contents() == old(Contents()) && events.dispatched == old(events.dispatched)
      ensures r.Fail? ==>
                || FailsWith(c, unserializeHandler, RawData(snap), false, r.error)
                || (AllDecode(c, unserializeHandler, RawData(snap), false) &&
                    FailsWith(c, unserializeHandler, RawHidden(snap), true, r.error))
      ensures events.listeners == old(events.listeners)
    {
      var restoredData := DecodeAll(c, unserializeHandler, RawData(snap), false);
      if restoredData.Failure? {
        return Fail(restoredData.error);
      }
      var restoredHidden := DecodeAll(c, unserializeHandler, RawHidden(snap), true);
      if restoredHidden.Failure? {
        return Fail(restoredHidden.error);
      }
      Flush();
      Add(Visible, restoredData.value);
      Add(Hidden, restoredHidden.value);
      events.Dispatch(ContextHydrated(Contents()));
      r := Pass;
    }
  }
}
