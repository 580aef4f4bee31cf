# hybrid-log context and logger, modelled in Dafny

This project models the core of the `hybrid-log` PHP package:

- the **context repository** (`Hybrid\Log\Context\Repository`): a store of
  visible and hidden key/value context for one unit of work, with reads,
  writes, forgetting, stack pushes, and a hand-off protocol: `dehydrate` to
  an encoded snapshot, `hydrate` a fresh repository from it;
- the **logger wrapper** (`Hybrid\Log\Logger`): a sticky context merged
  under every record, a single write path behind every level method, and
  a `MessageLogged` event per record when a dispatcher is attached;
- the **log-configuration parser** (`ParsesLogConfiguration`): level and
  action-level names and the channel name.

Files:

- `Wrappers.dfy`: `Option`, `Result`, `Outcome`, used for `null`, thrown
  exceptions and operations that either complete or throw.
- `Values.dfy`: PHP values. A list and a keyed array are separate
  constructors. `Incomplete` stands for `__PHP_Incomplete_Class`.
- `Codec.dfy`: the serializer as a pair of functions, encode and a
  decode that can fail. It also holds the per-entry restore rule of
  `hydrate` and the recovery hook's type.
- `ContextStore.dfy`: the repository state as a value (`Store`) and each
  operation as a function of it. The `*Hidden` twins are the same function
  on the other `Partition`. The cross-operation properties are lemmas here:
  the dehydrate/hydrate round trip, no partial hydration, substitution by
  the hook, and pushes composing.
- `ContextRepository.dfy`: the `Repository` class. Its fields `data` and
  `hidden` are updated in place. Each method is proved to produce the state
  that the matching `ContextStore` function computes from the old state.
  `forget` keeps its loop over the keys, and `hydrate` keeps its decode
  pass over each partition.
- `Events.dfy`: the events and a dispatcher that records what is
  dispatched and who listens.
- `Logging.dfy`: `formatMessage`, `array_merge` of contexts, the
  underlying writer as a recorded call sequence, and the `Logger` class.
- `LogConfiguration.dfy`: the level table, `level`, `actionLevel` and
  `parseChannel`.

In these cases the code's behaviour goes beyond what its docblocks say:

- `get` returns the default when the key holds `null`, not only when the
  key is absent, because the code uses `??`.
- `push` fails on a key that holds `null`, because `has` is true for it
  and `null` is not an array.
- `level` on an array or object name raises PHP's illegal-offset type
  error. It does not raise the `InvalidArgumentException`.

## Model

| member | source | states |
|---|---|---|
| Codec.DecodeEntry | src/Context/Repository.php:415-429 | a value restores when it decodes and is not an incomplete class; otherwise the hook's value `(error, key, raw, hidden)` replaces it, and without a hook the error propagates; a restored value is never incomplete unless the hook supplied it |
| Codec.RestoreError | src/Context/Repository.php:417-422 | the error raised for an entry is the decoder's own, or the incomplete-class error when decoding produced `__PHP_Incomplete_Class` |
| Values.Items | src/Context/Repository.php:273 | the elements a stackable value contributes: a list its own items in order, an empty array none |
| ContextStore.Get | src/Context/Repository.php:97-110 | the stored value when the key is present and not null, the default when the key is absent or holds null |
| ContextStore.Only | src/Context/Repository.php:144-156 | exactly the stored entries whose key is listed, with their stored values; listed absent keys are omitted |
| ContextStore.Add | src/Context/Repository.php:165-189 | the given keys take the given values, every other entry stays, the other partition is untouched |
| ContextStore.AddIf | src/Context/Repository.php:226-248 | a present key leaves the store unchanged; an absent key is added with the value; nothing else changes |
| ContextStore.Forget | src/Context/Repository.php:197-217 | exactly the listed keys are removed, the other entries and the other partition keep their values, forgetting only absent keys is a no-op |
| ContextStore.Pull | src/Context/Repository.php:119-136 | returns what `get` would return and leaves the key absent, every other entry unchanged |
| ContextStore.Push | src/Context/Repository.php:258-326 | fails with nothing changed iff the key is present and not a list; otherwise the key holds the old list (or the empty one) followed by the values, nothing else changes |
| ContextStore.EncodeAll | src/Context/Repository.php:398-402 | every key of a partition, each value encoded |
| ContextStore.Dehydrate | src/Context/Repository.php:391-404 | no snapshot iff the listener-modified copy is empty; otherwise the snapshot's two key sets are the copy's and each value is the copy's value encoded |
| ContextStore.DecodedAll | src/Context/Repository.php:431-434 | a restored partition has the snapshot's keys, each holding what its entry restores to |
| ContextStore.Hydrate | src/Context/Repository.php:414-441 | succeeds iff every entry of both partitions restores or is recovered; then the store is exactly the restored entries whatever it held; no snapshot gives the empty store |
| ContextStore.AddThenGet | src/Context/Repository.php:58-60 | after adding a key it is present and `get` returns the value, or the default when the value was null |
| ContextStore.ForgetThenHas | src/Context/Repository.php:197-203 | a forgotten key is absent |
| ContextStore.PushTwice | src/Context/Repository.php:258-276 | pushing `xs` then `ys` onto a key equals pushing `xs + ys`, so pushes accumulate in order |
| ContextStore.RoundTrip | src/Context/Repository.php:391-441 | hydrating, on any store, the snapshot of a store rebuilds exactly the listener-modified copy when its values survive the codec |
| ContextStore.NoPartialHydration | src/Context/Repository.php:422-438 | without a hook, one entry that does not restore makes hydration fail as a whole |
| ContextStore.HookSubstitutes | src/Context/Repository.php:423-433 | with a hook, an entry of either partition that does not restore takes the hook's value, called with that partition's hidden flag, and hydration succeeds |
| ContextRepository.DecodeAll | src/Context/Repository.php:431-434 | the decode pass over one partition succeeds iff every entry restores or is recovered, yields the restored map, and otherwise fails with the error of some failing entry |
| ContextRepository.Repository.constructor | src/Context/Repository.php:48-50 | a new repository is empty, has no hook, and uses the given dispatcher |
| ContextRepository.Repository.Has | src/Context/Repository.php:58-70 | presence of the key in the partition, null values included |
| ContextRepository.Repository.All | src/Context/Repository.php:77-88 | the whole partition |
| ContextRepository.Repository.Get | src/Context/Repository.php:97-110 | the result of `ContextStore.Get` on the current state |
| ContextRepository.Repository.Only | src/Context/Repository.php:144-156 | the result of `ContextStore.Only` on the current state |
| ContextRepository.Repository.Add | src/Context/Repository.php:165-189 | the new state is `ContextStore.Add` of the old one |
| ContextRepository.Repository.AddIf | src/Context/Repository.php:226-248 | the new state is `ContextStore.AddIf` of the old one |
| ContextRepository.Repository.Forget | src/Context/Repository.php:197-217 | unsetting the keys one by one leaves the state `ContextStore.Forget` of the old one |
| ContextRepository.Repository.Pull | src/Context/Repository.php:119-136 | returns the old state's `get` value, and the new state is the old one with the key forgotten |
| ContextRepository.Repository.IsStackable | src/Context/Repository.php:312-326 | the key is absent or holds a list |
| ContextRepository.Repository.Push | src/Context/Repository.php:258-304 | fails, with the state unchanged, exactly when `ContextStore.Push` fails; otherwise the new state is its result |
| ContextRepository.Repository.IsEmpty | src/Context/Repository.php:333-335 | true iff both partitions are empty |
| ContextRepository.Repository.Flush | src/Context/Repository.php:378-383 | both partitions become empty |
| ContextRepository.Repository.HandleUnserializeExceptionsUsing | src/Context/Repository.php:367-371 | installs (or, with none, removes) the recovery hook |
| ContextRepository.Repository.Dehydrate | src/Context/Repository.php:391-404 | the repository is unchanged, the copy is announced as `ContextDehydrating`, and the snapshot is `ContextStore.Dehydrate` of the state |
| ContextRepository.Repository.Hydrate | src/Context/Repository.php:414-441 | succeeds iff `ContextStore.Hydrate` does; then the state is its result and `ContextHydrated` is dispatched; on failure the state and the dispatcher are unchanged and the error is a failing entry's, a visible one first |
| Logging.FormatMessage | src/Logger.php:226-240 | arrays are exported; a Jsonable object uses its JSON even when it is also Arrayable; an Arrayable one exports its array; anything else is its string cast |
| Logging.Merge | src/Logger.php:160 | the merged context has every key of either, the call-site value winning on a clash |
| Logging.MergeAssociates | src/Logger.php:172-176 | successive `withContext` merges and a later call-site merge compose into one merge |
| Logging.Logger.constructor | src/Logger.php:43-46 | a logger starts with the given writer and dispatcher and an empty sticky context |
| Logging.Logger.WriteLog | src/Logger.php:157-164 | the writer's level method is called once with the formatted message and the call-site context merged over the sticky one; the same record is dispatched as `MessageLogged` iff a dispatcher is attached; the sticky context is unchanged |
| Logging.Logger.FireLogEvent | src/Logger.php:211-218 | `MessageLogged(level, message, context)` is dispatched iff a dispatcher is attached |
| Logging.Logger.Emergency | src/Logger.php:54-56 | one record at level `emergency` |
| Logging.Logger.Alert | src/Logger.php:64-66 | one record at level `alert` |
| Logging.Logger.Critical | src/Logger.php:74-76 | one record at level `critical` |
| Logging.Logger.Error | src/Logger.php:84-86 | one record at level `error` |
| Logging.Logger.Warning | src/Logger.php:94-96 | one record at level `warning` |
| Logging.Logger.Notice | src/Logger.php:104-106 | one record at level `notice` |
| Logging.Logger.Info | src/Logger.php:114-116 | one record at level `info` |
| Logging.Logger.Debug | src/Logger.php:124-126 | one record at level `debug` |
| Logging.Logger.Log | src/Logger.php:135-137 | one record at the caller's level |
| Logging.Logger.Write | src/Logger.php:146-148 | one record at the caller's level |
| Logging.Logger.WithContext | src/Logger.php:172-176 | the sticky context becomes the old one merged with the given one, later keys winning; returns the logger |
| Logging.Logger.WithoutContext | src/Logger.php:183-187 | the sticky context becomes empty; returns the logger |
| Logging.Logger.Listen | src/Logger.php:195-201 | throws the `RuntimeException` "Events dispatcher has not been set." iff no dispatcher is attached; otherwise registers the callback for `MessageLogged` and dispatches nothing |
| Logging.Logger.SetEventDispatcher | src/Logger.php:265-267 | the given dispatcher is attached |
| LogConfiguration.Coalesce | src/ParsesLogConfiguration.php:26 | `$config[key] ?? default`: the entry when present and not null, the default otherwise |
| LogConfiguration.LookupLevel | src/ParsesLogConfiguration.php:28-32 | succeeds iff the name is a string in the table, with its level; other scalars give `InvalidArgumentException`, arrays and objects the offset type error |
| LogConfiguration.ParseLevel | src/ParsesLogConfiguration.php:25-33 | missing or null `level` gives `debug`; a table name gives its level; any other string gives "Invalid log level." |
| LogConfiguration.ParseActionLevel | src/ParsesLogConfiguration.php:42-50 | the same rules on `action_level`, with "Invalid log action level." |
| LogConfiguration.ParseChannel | src/ParsesLogConfiguration.php:58-60 | the `name` entry when present and not null, the fallback channel name otherwise |
| LogConfiguration.EveryNameParses | src/Traits/Levels.php:16-25 | each of the eight names parses to its own level, for `level` and `action_level` alike |
| LogConfiguration.ParsesReadOneKey | src/ParsesLogConfiguration.php:26-43 | `level` depends only on the `level` entry and `actionLevel` only on the `action_level` entry |

## Left out

- `serialize`, `unserialize`, `getSerializedPropertyValue` and `getRestoredPropertyValue` are foreign calls. They are the `Codec` functions. `json_encode` of an incomplete value in the error text is not modelled.
- Dehydrating listeners registered with `dehydrating` are modelled as one function from store to store. It is applied to the copy at the point of the `ContextDehydrating` dispatch. Registration itself (`dehydrating`, `hydrated`) is event-dispatcher mechanics and is not modelled. Hydrated listeners are not run, because a listener's effect is unknown code.
- The unserialize hook is a process-wide static in the source (src/Context/Repository.php:43, 368, 423-424). Here it is a field of each repository. In the source, a hook installed through any instance governs `hydrate` on every instance, and passing `null` through any instance removes it for all of them; a dehydrating listener can even install one through the copy it is given. In the model, only a hook set on the same object counts.
- A hook that itself throws is not modelled, because the hook is a total function here.
- PHP arrays are ordered and Dafny maps are not. When several entries of one partition fail without a hook, the model says only that the error is one of theirs. The source raises the first in array order.
- Keys are strings. `array_merge` renumbering integer keys is not modelled, and neither is PHP turning numeric-string keys into integers.
- A snapshot array missing its `data` or `hidden` member is not modelled. Both members are always present. A null snapshot gives two empty partitions.
- The `iterator_to_array` branch of `push` is not modelled. It cannot be reached once `isStackable` holds.
- The `RuntimeException` message texts of `push`/`pushHidden` are not modelled. The error is `NotStackable(partition, key)`.
- The fluent `$this` results of the repository's mutators are not modelled. Only `withContext` and `withoutContext` return the logger.
- `value()` defaults (closures) are plain values. The `Macroable` and `Conditionable` traits are not modelled.
- ContextRepository.Repository.Dehydrate: the copy in the source is shallow, so a PHP object stored as a value is shared by handle between the live repository and the copy, and a dehydrating listener that changes such an object also changes the live store. Values here are immutable and the listener is a function from store to store, so "the repository is unchanged" holds more strongly in the model than in the source.
- ContextRepository.Repository.Dehydrate: `serialize` throws on closures and other values it cannot serialize, and `dehydrate` then throws. `encode` is total here, so that failure path is not modelled.
- `Logging.Logger.WriteLog`: the contract states the writer call and the dispatch separately, one log per object. It does not state that the write comes before the dispatch. The method body performs them in that order.
- A level name that is not a method of the underlying writer is not modelled. The writer records any name it is called with.
- The text of `var_export`, `toJson` and the string cast is not modelled. `var_export` is the logger's `varExport` function. The other two are fields of the message.
- `__call` forwarding to the underlying writer is not modelled, because it is a foreign passthrough. `getLogger` and `getEventDispatcher` return a field and are not modelled.
- The Monolog level constants are the `Level` datatype. Their numeric values are not modelled.
- The facades, the service providers and `functions-helpers.php` are container wiring. They are not part of this model.
