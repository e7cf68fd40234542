# CorsEventEmitter: cross-context calls over a shared key-value store

This project models `CorsEventEmitter` from the ocsjs userscript in Dafny.
`CorsEventEmitter` lets one browser context (a tab or frame) call a handler
registered in another context. The two contexts share only the userscript
manager's persisted store and its change notifications. The model covers:

- **Keys.** A call `id` has three temporary keys,
  `_temp_.event.<id>.state|arguments|return`. Each event has one queue key per
  tab, `<tabId>.cors.events.<name>`.
- **`emit`.** It writes `state = 0` and the arguments. It registers a one-shot
  listener on the state key. It then appends the id to the comma-joined queue.
- **The `on` listener.** On a remote change of the queue, it pops the *last*
  id. It stores the handler's result under `return`, sets `state = 1` and
  writes the rest of the queue back.
- **The state listener.** It unregisters itself, hands `return` and the
  `remote` flag to the callback, and deletes the three temporary keys.
- **`on` / `off`.** Registration is idempotent per queue key through `eventMap`.
- **The start-up sweep.** It deletes the keys that match the two patterns of
  `window.onload`.

Layout, one module per file:

- `strings.dfy` (`Strings`): JavaScript `split` and `join` for one separator
  character, and their round trips.
- `values.dfy` (`Values`): stored values, JavaScript truthiness and `String(v)`.
- `keys.dfy` (`Keys`): the key builders. Lemmas show that temporary keys never collide, that a queue key is never a temporary key of a valid call id, and that queue keys of dot-free tab ids never collide; a tab id containing `.cors.events.` can share a queue key.
- `queue.dfy` (`Queue`): the queue's append (`emit`) and pop (listener). Lemmas
  cover the round trip, LIFO order, the empty pop and a deleted queue.
- `protocol.dfy` (`Protocol`): each step as a pure function from store to
  store, plus the whole exchange as one lemma.
- `sweep.dfy` (`Sweep`): the two regular expressions as explicit matchers, and
  the store the sweep leaves.
- `emitter.dfy` (`Emitter`): the imperative side.
  - `Storage` is the shared store, a class with a `map` field.
  - `CorsEventEmitter` is one context. It holds `eventMap`, the change
    listeners it has registered and a log of callback invocations.
  - `Emit`, `ServiceQueue` and `FireStateListener` are proved to write
    exactly what the `Protocol` function for their step says. `On` states
    its one write directly, and `Off` writes nothing to the store.
  - `Exchange` runs one call between two emitter objects over one `Storage`.

Notifications from the platform are explicit. A driver calls
`DeliverChange(lid, curr, remote)` with what the platform would report.

The model proves these behaviours of the code as written:

- The queue is appended at the end and popped from the end, so it works as a
  stack. Of two queued calls, the later one is serviced first, and popping
  the rest the listener writes back yields the earlier one.
- The listener's own write of that rest reaches it as a local change, which
  it ignores, so that pop does not follow by itself. The earlier call is
  popped only by a later remote change whose last piece is its id, for
  example another context writing that rest; a new `emit` appends a newer
  id, and that id is popped instead.
- The listener does nothing when the new queue value converts to the empty
  string or to a string ending in a comma.
- If another context deletes the queue key while a listener is live, the listener sees
  `undefined` and services a call with the id `"undefined"`. A deletion by
  the listener's own context, such as its own start-up sweep, is reported as
  local and ignored.
- `off(name)` looks up `cors.events.<name>` without the tab prefix. When the
  tab id has no dot, this key never matches a key stored by `on`, so `off`
  removes nothing.
- Queue keys keep tabs apart when tab ids contain no dot. A tab id
  such as `a.cors.events.b` shares its queue key with tab `a`.
- A sweep over the whole store also deletes the temporary keys of calls still
  in flight in other tabs.

## Model

| member | source | states |
|---|---|---|
| `Strings.Split` | packages/core/src/interfaces/cors.ts:91 | `split(',')` always yields at least one piece and no piece contains the separator |
| `Strings.JoinSplit` | packages/core/src/interfaces/cors.ts:66 | joining the pieces of a split gives the original string back |
| `Strings.SplitJoin` | packages/core/src/interfaces/cors.ts:104 | splitting a join of one or more separator-free pieces gives those pieces back |
| `Strings.SplitLastEmpty` | packages/core/src/interfaces/cors.ts:93 | the last piece of a split is empty if and only if the string is empty or ends with the separator |
| `Keys.ChannelKeyInjective` | packages/core/src/interfaces/cors.ts:47 | when tab ids have no dot, two queue keys are equal if and only if they have the same tab id and the same event name, so events never cross between tabs |
| `Keys.DottedTabsShareQueueKey` | packages/core/src/interfaces/cors.ts:47 | a tab id containing `.cors.events.` gets the same queue key as a shorter tab id with a different event name |
| `Keys.KeyOfSlot` | packages/core/src/interfaces/cors.ts:22-36 | `tempKey('event', id, slot)` is `_temp_.event.<id>.<slot>` |
| `Keys.TempKeysInjective` | packages/core/src/interfaces/cors.ts:26-36 | two temporary keys are equal if and only if they have the same slot and the same id, for any ids |
| `Keys.TempKeyDots` | packages/core/src/interfaces/cors.ts:22-24 | in a temporary key of a 32-hex-digit id, the dots are exactly at positions 6, 12 and 45 |
| `Keys.ChannelKeyIsNotTempKey` | packages/core/src/interfaces/cors.ts:47-52 | for any tab id and name, a queue key differs from every temporary key of a valid call id |
| `Keys.OffKeyMissesChannelKey` | packages/core/src/interfaces/cors.ts:117-119 | the key `off` looks up never equals a key `on` registered, when the tab id has no dot |
| `Queue.AppendShape` | packages/core/src/interfaces/cors.ts:66 | the new queue is exactly `id` when the old value is falsy, otherwise the old string, a comma and `id` |
| `Queue.EntriesOfJoin` | packages/core/src/interfaces/cors.ts:66 | a queue stored as the join of non-empty, comma-free ids reads back as exactly those ids |
| `Queue.AppendKeepsEntries` | packages/core/src/interfaces/cors.ts:66 | appending keeps every earlier entry in order and adds the id last |
| `Queue.PopAfterAppend` | packages/core/src/interfaces/cors.ts:91-104 | popping what `emit` wrote returns the appended id, and rejoining the rest gives the old queue string back (or `''` for a falsy queue) |
| `Queue.ServicesLast` | packages/core/src/interfaces/cors.ts:91-93 | the listener services the last entry, and the queue it writes back holds the others in order |
| `Queue.LaterCallServicedFirst` | packages/core/src/interfaces/cors.ts:91-93 | with two calls queued one after the other, the later one is popped first, and popping the rewritten rest yields the earlier one |
| `Queue.NothingToService` | packages/core/src/interfaces/cors.ts:93-95 | the popped id is empty if and only if the new queue value converts to `''` or to a string ending in a comma |
| `Queue.DeletedQueuePopsUndefined` | packages/core/src/interfaces/cors.ts:91-95 | a deleted queue (`undefined`) pops the id `"undefined"` with nothing left |
| `Protocol.EmitEffect` | packages/core/src/interfaces/cors.ts:47-66 | `emit` sets state 0 and the arguments, sets the queue to the old queue with the id appended, and changes no other key |
| `Protocol.ServiceEffect` | packages/core/src/interfaces/cors.ts:90-105 | on a remote change popping a valid id, the listener writes `return := handler(arguments)`, `state := 1` and the rest of the queue, and changes no other key |
| `Protocol.ServiceIgnores` | packages/core/src/interfaces/cors.ts:90-95 | a local change, or one whose popped id is empty, leaves the store unchanged |
| `Protocol.RequestResponse` | packages/core/src/interfaces/cors.ts:44-105 | after emit, service and cleanup, the callback reads `handler(args)`; the store equals the old one minus the three temporary keys, with the queue back to its old string |
| `Sweep.TempKeysAreSwept` | packages/core/src/interfaces/cors.ts:132 | every temporary key of a valid call id matches the first pattern |
| `Sweep.ModelQueueKeysAreSwept` | packages/core/src/interfaces/cors.ts:136 | a queue key whose tab id ends in 32 `[0-9a-z]` characters and whose event name starts with `model` matches the second pattern |
| `Sweep.SweepDropsCallRecords` | packages/core/src/interfaces/cors.ts:131-139 | a sweep over all keys deletes the three temporary keys of any valid call, and keeps every key that matches neither pattern with its value |
| `Sweep.SweepIdempotent` | packages/core/src/interfaces/cors.ts:131-139 | a second sweep over the same keys removes nothing more |
| `Emitter.SweepStaleKeys` | packages/core/src/interfaces/cors.ts:131-139 | the loop deletes exactly the listed keys that match either pattern and leaves every other key untouched |
| `Emitter.CorsEventEmitter.constructor` | packages/core/src/interfaces/cors.ts:16 | a new emitter has an empty `eventMap` and no listeners |
| `Emitter.CorsEventEmitter.Emit` | packages/core/src/interfaces/cors.ts:44-67 | the store becomes `EmitStore` of the old store; one state listener for the call is added; `eventMap` is unchanged |
| `Emitter.CorsEventEmitter.On` | packages/core/src/interfaces/cors.ts:76-115 | returns the registered id without any change when the key is already registered; otherwise clears the queue to `''`, adds one queue listener and records its id |
| `Emitter.CorsEventEmitter.Off` | packages/core/src/interfaces/cors.ts:117-124 | removes the registry entry and its listener only when `cors.events.<name>` is registered; otherwise changes nothing |
| `Emitter.CorsEventEmitter.DeliverChange` | packages/core/src/interfaces/cors.ts:54-108 | a removed listener does nothing; a state listener fires as `FireStateListener`, a queue listener as `ServiceQueue` |
| `Emitter.CorsEventEmitter.FireStateListener` | packages/core/src/interfaces/cors.ts:54-63 | unregisters itself, records one callback with the `return` value and the `remote` flag, and leaves none of the three temporary keys |
| `Emitter.CorsEventEmitter.ServiceQueue` | packages/core/src/interfaces/cors.ts:89-108 | the store becomes `ServiceStore` of the old store for that queue key, handler and notification |
| `Emitter.OnTwice` | packages/core/src/interfaces/cors.ts:80-83 | two `on` calls for one event return the same id and register at most one listener |
| `Emitter.OffAfterOn` | packages/core/src/interfaces/cors.ts:117-124 | after `on` and then `off` with the same name, the listener is still registered when the tab id has no dot |
| `Emitter.Exchange` | packages/core/src/interfaces/cors.ts:44-111 | one call between two contexts: the callback fires once with `handler(args)` and `remote = true`; the temporary keys are gone and the queue is restored; a repeated notification delivers nothing |

## Left out

- `getTab`, the asynchronous tab lookup, is not modelled. The tab id is a parameter of `Emit` and `On`.
- `uuid()` is not modelled. The call id is a parameter of `Emit`, required to be 32 lower-case hex digits, as `uuid()` gives with its dashes removed.
- Asynchrony is not modelled: the `Promise` returned by `on`, the `await` on the handler (the handler is a pure function) and the callback's own effects (it is recorded as a `Delivery`).
- `ServiceQueue`: the 100 ms `setTimeout` is taken as elapsed. Writing `state = 1` and rewriting the queue happen right after the `return` write, so no other write can fall in between.
- `ServiceQueue`: the handler is taken to return normally. In the source, if the handler throws or its promise rejects, no `return` is written and the delayed writes are never scheduled. `state` then never becomes 1, the caller waits forever, and the stored queue still holds the id. `RequestResponse` and `Exchange` depend on this assumption too.
- `FireStateListener`: the callback is taken to return normally. In the source, if the callback throws, the three `deleteValue` calls are skipped and the temporary keys stay until the next start-up sweep. `RequestResponse` and `Exchange` depend on this assumption too.
- The platform primitives are not modelled. `setValue`, `getValue` and `deleteValue` act on a `map`. `addConfigChangeListener` hands out ids from a counter that starts at 1. Which listener hears which write, and with which `remote` flag, is chosen by the caller of `DeliverChange`. The unused previous-value argument of the listeners is dropped.
- Races and interleavings between contexts are not modelled, in particular the non-atomic read-modify-write of the queue. Every step is atomic.
- Strings and keys are sequences of Unicode code points. JavaScript strings are sequences of UTF-16 code units. The `Sweep` matchers are therefore an approximation of the two regular expressions, not their exact semantics. A `.` in a pattern without the `u` flag matches one code unit, so a key that has a character outside the Basic Multilingual Plane where a `.` stands (such as `_temp_\U{1F600}event.<id>.state`) matches in the model but not in the program.
- `Num` is an unbounded integer and `IntToString` prints every digit. JavaScript numbers are doubles, so `String(1e21)` is `"1e+21"`. The model does not reproduce this.
- The `curr` value passed to `DeliverChange` is chosen by the caller. The model does not require it to equal the value stored under the key.
- Stored values cover undefined, null, booleans, integers, strings and arrays. Floating-point numbers, `NaN` and plain objects are not modelled.
- The `typeof GM_listValues` guard and the `window.onload` registration are not modelled. `SweepStaleKeys` takes the result of `listValues()` as a parameter.
- The exported singleton `cors` (cors.ts line 146) is not modelled. Each context constructs its own `CorsEventEmitter`.
- packages/core/src/script/index.ts, packages/core/src/components/Tooltip.tsx and packages/scripts/entry.common.js are not part of this model. They are store bootstrap, UI and entry configuration built on libraries not modelled here.
