# Tokebi analytics SDK for RPG Maker MV — a Dafny model

The SDK is a browser plugin. It gives each device a durable player id and
registers the running game with an analytics server. It then sends
flattened gameplay events and one `session_end` per session. This project
models its core:

- **The payload flattener** (`flattenPayload`). A nested payload becomes
  one dictionary from string keys to scalars. Keys are joined with `_`.
  An array under `k` becomes `k_1 … k_n` plus `k_count`. A nested object
  under `k` is flattened under the prefix `k`. Later writes overwrite
  earlier ones.
- **The SDK instance** (`TokebiSDK`). It has a temporary game id and two
  flags, `isInitialized` and `sessionEnded`. The registration request's
  callbacks open the gate. `track` sends only once the gate is open.
  `trackSessionEnd` sends `session_end` at most once.
- **Player-id resolution** (`getOrCreatePlayerId`). It reads `localStorage`,
  which may be absent. Otherwise it makes `player_<seconds>_<random>` and
  stores it.

Files:

- `decimal.dfy` (module `Decimal`): how integers become decimal text when
  concatenated to a string, and the proof that this can be read back.
- `json.dfy` (module `JsonValue`): payload values, and the entries `for…in`
  visits in an object, an array or a string.
- `flatten.dfy` (module `Flattener`): the flattener. `Flatten` and its
  helpers specify it as left folds, where each entry's writes overlay the
  earlier ones. `FlattenPayload`, `FlattenArrayInto` and `Merge` are the
  source's loops, proved equal to those folds. The lemmas state the
  key-naming rules.
- `identity.dfy` (module `Identity`): `localStorage` as a class holding a
  map, the specification `Resolve`, and the method `GetOrCreatePlayerId`.
- `sdk.dfy` (module `Sdk`): the class `TokebiSdk`. Its invariant `Valid()`
  covers the gate, the one-shot session end and the shape of every event
  sent. The transport is a ghost log `sent` of event bodies.

The clock (`Date.now()`) and the random draw (`Math.random()`) are method
parameters. Each clock read in the source is a separate parameter.

How registration ends is modelled by separate entry points:

- The request goes out. Then `OnRegistrationResponse` (completion at
  `readyState 4`) or `OnRegistrationError` (`onerror`) may run.
- Building or sending the request throws synchronously.
  `SendAttempt.Threw`, passed to the constructor, models this.

Behaviour of the code that the model keeps, where a reader might expect
otherwise:

- The synchronous-exception path (TokebiSDK.js:290-293) sets a
  `game_fallback_` id but never sets `isInitialized`. The gate then never
  opens and the instance never sends anything (`ClosedAfterRegistrationThrew`).
  The other failure paths (TokebiSDK.js:266-271, 275-279) do open the
  gate. The model follows the code.
- A browser can run both registration callbacks after a network failure:
  completion with status 0, then `onerror`. So the fallback id can be set
  twice, and the game id need not change exactly once.
- An array element that is itself an array is walked by `for…in` as an
  object. Its elements get 0-based keys (`k_1_0`) and no `_count` entry
  (`NestedArrayExample`).
- The prefix test is JavaScript truthiness. At the top level, where the
  prefix is empty, a nested object under the key `""` gets no prefix at
  all (`EmptyKeyField`). Under a prefix `p` the key `""` is joined like
  any other, so the object is flattened under `p_`: `{a: {"": {x: 1}}}`
  gives `{a__x: 1}` (`EmptyKeyUnderPrefixExample`).
- `track`'s `payload || {}` turns every falsy payload into `{}`. A
  non-empty string payload is walked character by character.

## Model

| member | source | states |
|---|---|---|
| `Flattener.Flatten` | TokebiSDK.js:173-210 | every value of the flattened dictionary is a scalar |
| `Flattener.FlattenUnderPrefix` | TokebiSDK.js:173-210 | under a non-empty prefix `p` every key of the flattened dictionary starts with `p_`, through every level of nested objects and arrays |
| `Flattener.FlattenPayload` | TokebiSDK.js:173-210 | the source's loops (over the enumerated entries, with recursive calls for nested values) return exactly the specified flattening |
| `Flattener.FlattenArrayInto` | TokebiSDK.js:182-195 | the loop over an array writes each element's entries in order over what was there, then `key_count` = the array's length |
| `Flattener.Merge` | TokebiSDK.js:188-190 | copying every nested key one at a time gives the old dictionary overlaid by the nested one (nested keys win) |
| `Flattener.EntriesKeys` | TokebiSDK.js:177-207 | a key is in the result exactly when some enumerated entry writes it |
| `Flattener.EntriesLastWriteWins` | TokebiSDK.js:177-207 | a key holds the value written by the last entry, in enumeration order, that writes it |
| `Flattener.ScalarRecord` | TokebiSDK.js:202-205 | a record of scalars (null included) flattens at top level to exactly its own keys; each holds the value of its last occurrence, so distinct keys are copied unrenamed |
| `Flattener.IndexKeyDistinct` | TokebiSDK.js:192-195 | the element keys `k_1, k_2, …` are pairwise distinct and never equal `k_count` |
| `Flattener.ScalarItems` | TokebiSDK.js:184-194 | each of the first `n` scalar elements is written, element `i` at `k_(i+1)` |
| `Flattener.ScalarItemsOnly` | TokebiSDK.js:184-194 | the first `n` scalar elements write no key other than `k_1 … k_n` |
| `Flattener.ScalarArrayField` | TokebiSDK.js:182-195 | an array of `n` scalars under `k` yields exactly the keys `k_1 … k_n` and `k_count`, holding the elements in order and `n` |
| `Flattener.EmptyArrayField` | TokebiSDK.js:184-195 | an empty array under `k` yields only `k_count = 0` |
| `Flattener.NestedObjectField` | TokebiSDK.js:196-201 | a nested object under a non-empty key `k` is flattened under the prefix `k`: all its keys start with `k_` and `k` itself is not a key |
| `Flattener.EmptyKeyField` | TokebiSDK.js:180 | at the top level a nested object under the key `""` is flattened with no prefix: the result is the inner object's own flattening |
| `Flattener.EmptyKeyUnderPrefixExample` | TokebiSDK.js:180 | under a non-empty prefix the key `""` is joined like any other: `{a: {"": {x: 1}}}` gives `{a__x: 1}` |
| `Flattener.ArrayExample` | TokebiSDK.js:182-195 | `{items:[1,2,3]}` gives `{items_1:1, items_2:2, items_3:3, items_count:3}` |
| `Flattener.NestedExample` | TokebiSDK.js:196-201 | `{a:{b:5}}` gives `{a_b:5}` |
| `Flattener.ArrayOfObjectsExample` | TokebiSDK.js:186-190 | `{hits:[{x:1},{x:2}]}` gives `{hits_1_x:1, hits_2_x:2, hits_count:2}` |
| `Flattener.NestedArrayExample` | TokebiSDK.js:186-187 | an array inside an array gets 0-based keys and no count: `{k:[[7,8]]}` gives `{k_1_0:7, k_1_1:8, k_count:1}` |
| `Flattener.CollisionExample` | TokebiSDK.js:199-204 | on a key collision the later entry wins, in either order of the two entries |
| `Flattener.CountCollisionExample` | TokebiSDK.js:195 | the count key is an ordinary key: a later field or a later array of the same name overwrites it |
| `JsonValue.Entries` | TokebiSDK.js:177-178 | the own properties `for…in` with `hasOwnProperty` visits: an object's fields in order; an array's elements under the 0-based keys `"0"`, `"1"`, …; a string's characters, each as a one-character string, under the same keys; nothing for null, booleans and numbers (what these keys are as numbers is `EntryKeysAreIndices`) |
| `JsonValue.EntryKeysAreIndices` | TokebiSDK.js:177-178 | the keys `for…in` gives an array's or a string's positions are pairwise distinct, and the key of position `i` reads back as the number `i` |
| `Decimal.NatStr` | TokebiSDK.js:192 | a number concatenated to a string renders as a non-empty run of decimal digits, one digit exactly for numbers below 10 (its round trip is `ParseNatStr`) |
| `Decimal.ParseNatStr` | TokebiSDK.js:192 | the decimal text appended to keys and ids reads back as the number it renders |
| `Decimal.NatStrInjective` | TokebiSDK.js:192 | distinct numbers render to distinct decimal text |
| `Identity.GetOrCreatePlayerId` | TokebiSDK.js:115-137 | returns the id and leaves the store exactly as the specification `Resolve` says: a stored truthy id unchanged, otherwise a new `player_<s>_<r>` saved under `tokebi_player_id` when a store exists |
| `Identity.ResolveStores` | TokebiSDK.js:120-136 | the returned id is never empty; a present store ends up holding exactly the returned id under the fixed key; an absent store stays absent |
| `Identity.ResolveTwice` | TokebiSDK.js:120-136 | resolving again against the store a resolution left behind returns the same id and writes nothing, whatever the clock and random draw |
| `Identity.GeneratedIdInjective` | TokebiSDK.js:126-128 | two generated ids are equal exactly when made in the same second from the same random draw |
| `Identity.UnstoredIdsDiffer` | TokebiSDK.js:119-134 | without a store nothing is kept, and ids made in different seconds or from different draws differ |
| `Sdk.PayloadOrEmpty` | TokebiSDK.js:148 | `payload \|\| {}` is never falsy; a truthy payload is kept as it is, and a missing or falsy one becomes the empty object `{}` |
| `Sdk.TokebiSdk.constructor` | TokebiSDK.js:71-113 | a closed instance with the temporary id `game_temp_<ms>` and both flags false; with tracking disabled or no API key, no player id and no registration; otherwise the resolved player id and a registration request, or, if that threw, a fallback id and no request |
| `Sdk.TokebiSdk.RegisterGame` | TokebiSDK.js:246-294 | a sent request carries `{gameName, 'rpgmaker-mv', 'MV', 1}` and leaves the id alone; an exception sets `game_fallback_<ms>` and leaves the gate closed |
| `Sdk.TokebiSdk.OnRegistrationResponse` | TokebiSDK.js:255-273 | status 200/201 with a parseable body: the response `game_id` becomes the id, the gate opens, and exactly one `session_start` with an empty payload is sent; an unparseable body changes nothing; any other status: fallback id, gate open, nothing sent; exactly one `session_start` is counted per instance when registration succeeds, none otherwise |
| `Sdk.TokebiSdk.OnRegistrationError` | TokebiSDK.js:275-279 | fallback id `game_fallback_<ms>` and gate open, nothing sent |
| `Sdk.TokebiSdk.Track` | TokebiSDK.js:140-170 | sends nothing unless tracking is enabled and the gate is open; otherwise appends exactly one event with the given type, the flattened payload (`{}` for a missing or falsy one), the current game and player ids, and platform `rpgmaker-mv`; every event ever sent has a flat payload |
| `Sdk.TokebiSdk.TrackSessionEnd` | TokebiSDK.js:324-332 | before the gate opens, or after the first send, nothing; otherwise `sessionEnded` becomes true and one `session_end` is sent; `sessionEnded` never reverts and at most one `session_end` is ever sent from here |
| `Sdk.TeardownSignals` | TokebiSDK.js:305-320 | the three teardown listeners firing add at most one event; when the gate is open and the session not yet ended they mark it ended and append exactly one `session_end` with an empty payload under the current ids, and otherwise append nothing; the game id, player id and gate are left as they were |
| `Sdk.FallbackThenTrack` | TokebiSDK.js:266-271 | after a rejected registration the next `track` call sends, under the fallback id; the session flag and player id are left as they were |
| `Sdk.ClosedAfterRegistrationThrew` | TokebiSDK.js:290-293 | after the registration request threw, `track` and `trackSessionEnd` never send, and the game id and gate are left as they were |

## Left out

- `sendToAPI` and the HTTP side of `registerGame` are not modelled: the request objects, headers, `JSON.stringify` and result logging (TokebiSDK.js:213-243, 250-253, 281-288). This is network I/O. A sent event is an append to the ghost log `sent`. A sent registration is the ghost `registration` body.
- The wiring of the `beforeunload`, `visibilitychange` and `unload` listeners is not modelled (TokebiSDK.js:302-321). This is host event plumbing. `TeardownSignals` calls `TrackSessionEnd` three times in its place.
- Several host inputs are constructor arguments rather than computed. These are the plugin parameters and the game title lookup (TokebiSDK.js:41-49), the API-key guard that stops the script before any instance exists (TokebiSDK.js:62-68), and the environment detection (TokebiSDK.js:53-55). They are host configuration.
- Logging is not modelled: `log`, `console` and `alert` (TokebiSDK.js:57-60, 94-98). It has no effect on state.
- `test()` (TokebiSDK.js:297-299) is not modelled. It returns a fixed string.
- Clock readings and timestamps are `nat`, so a clock before 1970 is not modelled. The random draw is any `nat`; the source's range 0-9999 is not enforced.
- Numbers are `int`. JavaScript floating point, `NaN`, and the text of non-integer numbers are not modelled. The flattener only copies numbers, so this does not affect key naming.
- The model takes object key order as given. A JavaScript engine would visit integer-like keys first, in ascending order.
- The model allows duplicate keys in an object list; the last occurrence wins. JavaScript objects cannot hold duplicate keys.
- An object with its own field named `hasOwnProperty`, at any depth of a payload, is not modelled as JavaScript treats it. An example is `JSON.parse('{"hasOwnProperty": 1, "a": 2}')`. That field hides the inherited method, so `obj.hasOwnProperty(key)` (TokebiSDK.js:178) throws on the first key. `track`'s `catch` (TokebiSDK.js:167-169) then swallows the error, and nothing is sent. The model treats `hasOwnProperty` as an ordinary key: `Track` sends an event whose payload holds it.
- Some JavaScript values are not modelled: `undefined`, functions, inherited properties, getters and cyclic objects. Exceptions thrown while flattening are not modelled either, so `track`'s `catch` is never reached in the model.
- A `localStorage` that throws on access is not modelled. In the source, `init`'s `catch` would leave the player id null and skip registration. Storage is either absent or a map.
- A 200/201 response whose JSON lacks `game_id` is not modelled. In the source the game id becomes `undefined`.
- Intermediate `readyState` changes are not modelled; they do nothing in the source.
- An output key that is exactly `__proto__` is not modelled as JavaScript treats it. A payload such as `JSON.parse('{"__proto__": 1}')` has an own field `__proto__`. The assignment `flattened['__proto__'] = 1` (TokebiSDK.js:204) then hits the `Object.prototype` setter and stores nothing, so the source returns `{}`. The model treats `__proto__` as an ordinary key and returns `{__proto__: 1}`. The model's dictionaries are plain maps, with no prototype.
- A string payload is walked by `for…in` one UTF-16 code unit at a time (TokebiSDK.js:177). The model's `Entries` walks Unicode scalar values instead. The two differ only for characters outside the Basic Multilingual Plane: an emoji gives JavaScript two entries (the two halves of a surrogate pair) and the model one. Dafny's `char` is a Unicode scalar value and cannot hold half a surrogate pair.
