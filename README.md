# Session write-through model

A Dafny model of the `session` middleware and the `RedisStore` wrapper in
`src/middlewares/session.ts` (express-redis-session-store), for one request.

At request start the middleware builds a default session
(`path "/"`, `httpOnly true`, `secure false`, overridden by the configured
`cookie` options). When the request carries a session cookie, it decrypts a
session ID from it. When the store holds a record under that ID, the record
replaces the session. The handler then sees the session behind two
intercepting `set` traps:

- writes to single cookie attributes go through the cookie trap, where
  `expires` and `maxAge` clear each other;
- writes to `cookie`, `user` or any other key of the session go through the
  session trap.

Each intercepted write ends with the same persist step:

1. allocate `prefix + genId(req)` if there is no ID yet;
2. send one cookie carrying `encrypt(sessionID, secret)` and the current attributes;
3. make one `store.set` of the whole session, with TTL `|expires - now|` if
   `expires` is set, else `maxAge`.

Layout:

- `wrappers.dfy`: `Option`, standing for `undefined`.
- `cookies.dfy` (module `Cookies`): the cookie attribute set. It is a map from
  attribute name to a value of that attribute's shape. Object literals are
  sequences of properties with distinct keys, in key order. The module holds
  the pure rules: object spread, trap assignment, the bulk clash rule and the TTL.
- `store.dfy` (modules `Store`, `StoreFacts`): the `RedisStore` class over an
  in-memory keyspace `map<string, Entry>`, the pure functions its methods are
  proved against, and their properties.
- `session.dfy` (module `Session`): the pure step functions `Start`,
  `Persisted`, `Step` and `Run`. Beside them is the class `SessionRequest`,
  whose constructor and methods change the session, the ID, the sent-cookie
  list and the store in place. Each is proved equal to the matching step function.
- `session_facts.dfy` (module `SessionFacts`): the protocol's properties,
  proved over the step functions.

Parameters stand for what the model does not define:

- `encrypt` and `decrypt` are function-valued fields of `Config`.
- The value `genId(req)` would return is a per-write parameter `generated`.
  The state counts how often `genId` was called.
- `Date.now()` is a per-write parameter `now`.
- Redis `KEYS` matching is a `matches` function passed to `Delete`.

Two behaviours of the code worth knowing:

- A bulk `session.cookie = {...}` clears the other of `expires` and `maxAge`
  only when both are supplied, so both can end up set. `BulkMayLeaveBoth`
  shows such a case.
- There is no handling of a failed decryption: whatever `decrypt` returns is
  used as the session ID.

## Model

| member | source | states |
|---|---|---|
| `Cookies.Put` | src/middlewares/session.ts:205 | a plain assignment sets the one attribute (absent for `undefined`) and leaves every other attribute as it was |
| `Cookies.Assign` | src/middlewares/session.ts:200-205 | the cookie trap's assignment: the written key holds the new value, writing `expires` leaves `maxAge` absent and vice versa, every other attribute is unchanged |
| `Cookies.KeyIndex` | src/middlewares/session.ts:228-229 | `Object.keys(o).indexOf(k)`: -1 exactly when `k` is not an own key, otherwise the first position holding `k` |
| `Cookies.Loser` | src/middlewares/session.ts:227-233 | a key is dropped exactly when both `expires` and `maxAge` are supplied; it is one of those two, and it is `expires` exactly when `expires` comes earlier in key order (and `maxAge` exactly when `maxAge` does) |
| `Cookies.Without` | src/middlewares/session.ts:230-232 | `delete o[k]`: removes exactly the properties named `k`, keeps the rest, and keeps the result a well-formed object |
| `Cookies.ResolveClash` | src/middlewares/session.ts:227-234 | after the clash test the object never holds both `expires` and `maxAge`; it is the input minus the dropped key's property, and the input itself when nothing clashes |
| `Cookies.Overlay` | src/middlewares/session.ts:235-238 | object spread `{...c, ...o}`: each property of `o` overrides its attribute, every attribute `o` does not name keeps its value |
| `Cookies.BulkAssign` | src/middlewares/session.ts:226-238 | the attributes after `session.cookie = o`: the surviving properties of `o` override; keys `o` does not supply, and the dropped key, keep their old values |
| `Cookies.Initial` | src/middlewares/session.ts:185-187 | a fresh session has `path "/"`, `httpOnly true`, `secure false` unless the configured options override them; no other attribute is set unless configured |
| `Cookies.Ttl` | src/middlewares/session.ts:210-213 | the TTL is absent exactly when neither `expires` nor `maxAge` is set, and is non-negative when it comes from `expires` |
| `Store.Expiry` | src/middlewares/session.ts:114-125 | a non-zero TTL becomes a `PX` expiry equal to it; 0 or absent gives no expiry |
| `Store.Stored` | src/middlewares/session.ts:114-125 | `set` adds or overwrites only `key`, with the value and the expiry of its TTL; every other key keeps its entry |
| `Store.Fetched` | src/middlewares/session.ts:127-132 | `get` finds a value exactly when the key is present, and it is the stored value |
| `Store.Purged` | src/middlewares/session.ts:133-141 | `delete(pattern)` keeps exactly the keys the pattern does not match, with their entries unchanged |
| `Store.RedisStore.constructor` | src/middlewares/session.ts:54-55 | the store keeps the configured prefix, over the keyspace it finds |
| `Store.RedisStore.Set` | src/middlewares/session.ts:114-126 | the keyspace after `set` is `Stored` of the old one |
| `Store.RedisStore.Get` | src/middlewares/session.ts:127-132 | `get` on the live keyspace finds a value exactly when the key is present, and it is the stored value |
| `Store.RedisStore.Delete` | src/middlewares/session.ts:133-141 | the keyspace after `delete` is `Purged` of the old one |
| `StoreFacts.GetAfterSet` | src/middlewares/session.ts:114-132 | `get` returns the value last set under a key; a `set` leaves other keys' values unchanged |
| `StoreFacts.SetExpiry` | src/middlewares/session.ts:115-125 | TTL 0 or absent records no expiry; a non-zero TTL records that expiry |
| `StoreFacts.DeleteNoMatch` | src/middlewares/session.ts:136-140 | a pattern that matches nothing leaves the keyspace unchanged |
| `Session.Start` | src/middlewares/session.ts:185-196 | request start sends no cookie, writes nothing to the store, calls `genId` zero times, and leaves the cookie intercepted |
| `Session.Persisted` | src/middlewares/session.ts:206-214 | the persist step: an ID that is already set is kept; otherwise the ID becomes `prefix + genId` and `genId` is called once; exactly one cookie `encrypt(id, secret)` with the current attributes is appended; the keyspace is that of one `set` of the whole session under the ID, with the TTL of the current attributes |
| `Session.Step` | src/middlewares/session.ts:198-257 | the new session per write kind: a trap attribute write gives `Assign` of the old attributes, a later attribute write `Put`, a bulk assignment `BulkAssign`, each with the user unchanged; a `user` write stores the user and keeps the attributes; any other key leaves the session unchanged. An intercepted write sends one cookie carrying the encrypted ID and the new attributes, and the keyspace is that of one `set` of the new session under the ID; a non-intercepted write sends and stores nothing and keeps the ID; an ID already set is never replaced, a missing one becomes `prefix + genId` with one `genId` call; only a bulk `cookie` assignment ends interception |
| `Session.SessionRequest.constructor` | src/middlewares/session.ts:185-196 | the request's initial state is `Start` of the configuration, the incoming cookie and the store |
| `Session.SessionRequest.Persist` | src/middlewares/session.ts:243-253 | the ID, the sent cookies and the store change exactly as `Persisted` says |
| `Session.SessionRequest.SetCookieAttribute` | src/middlewares/session.ts:199-216 | an attribute write changes the state exactly as `Step` says for it |
| `Session.SessionRequest.AssignCookie` | src/middlewares/session.ts:226-238 | a bulk `cookie` assignment changes the state exactly as `Step` says for it |
| `Session.SessionRequest.AssignUser` | src/middlewares/session.ts:240-242 | a `user` assignment changes the state exactly as `Step` says for it |
| `Session.SessionRequest.AssignOther` | src/middlewares/session.ts:225-254 | a write to any other key changes the state exactly as `Step` says for it |
| `SessionFacts.TrapWriteExcludes` | src/middlewares/session.ts:200-205 | through the cookie trap, writing `expires` leaves `maxAge` absent and vice versa; the written key holds the new value; other attributes and the user are unchanged |
| `SessionFacts.UserWriteStores` | src/middlewares/session.ts:240-253 | in every state, assigning `user` stores it, keeps the cookie attributes, sends one cookie, and stores the session with the new user under the ID with the TTL of the attributes |
| `SessionFacts.BulkWriteStores` | src/middlewares/session.ts:226-253 | a bulk `cookie` assignment keeps the user, gives the attributes of `BulkAssign`, ends interception, and stores the new session under the ID |
| `SessionFacts.PlainWriteAfterBulk` | src/middlewares/session.ts:235 | after a bulk assignment, an attribute write does not clear its rival and sends and stores nothing |
| `SessionFacts.BulkLaterWins` | src/middlewares/session.ts:227-238 | with both `expires` and `maxAge` supplied, the later one in key order takes its supplied value; the earlier one keeps its old value |
| `SessionFacts.BulkMayLeaveBoth` | src/middlewares/session.ts:235-238 | supplying only `expires` over an existing `maxAge` leaves both set |
| `SessionFacts.BulkLaterUndefinedWins` | src/middlewares/session.ts:227-238 | an explicit `maxAge: undefined` after `expires` wins: `maxAge` is cleared and the old `expires` survives |
| `SessionFacts.TtlChoice` | src/middlewares/session.ts:250-253 | the TTL is `abs(expires - now)` whenever `expires` is set, whatever `maxAge` holds; otherwise it is `maxAge` |
| `SessionFacts.TtlExamples` | src/middlewares/session.ts:210-213 | `maxAge 60000` gives 60000; `expires T+60000` gives 60000 at time T and its distance at other write times; a past `expires` gives a positive TTL |
| `SessionFacts.ExpiresNowStoresForever` | src/middlewares/session.ts:210-214 | an `expires` equal to the write time gives TTL 0, so the record is stored with no expiry |
| `SessionFacts.OtherKeyStillPersists` | src/middlewares/session.ts:225-254 | a write to a key other than `cookie`/`user` leaves the session unchanged but still sends one cookie and writes the store once |
| `SessionFacts.RunKeepsId` | src/middlewares/session.ts:206 | an ID that is already set survives every sequence of writes, and `genId` is never called |
| `SessionFacts.RunAllocatesOnce` | src/middlewares/session.ts:243 | if `genId` never yields an empty ID, a request calls it at most once, and once it has been called the ID is set |
| `SessionFacts.RunSendsOnePerWrite` | src/middlewares/session.ts:207-214 | a sequence of writes sends exactly one cookie per intercepted write, appended after the earlier ones |
| `SessionFacts.StartFresh` | src/middlewares/session.ts:185-190 | without a session cookie the session has the initial attributes, no user and no ID |
| `SessionFacts.StartResumesStored` | src/middlewares/session.ts:190-195 | a record stored under the decrypted ID becomes the session as it is, with no merge of the defaults |
| `SessionFacts.UnknownIdKept` | src/middlewares/session.ts:190-196 | a decrypted ID with no stored record is kept with the default session; later writes use it, and `genId` is never called |
| `SessionFacts.NewUserScenario` | src/middlewares/session.ts:240-253 | a request without a cookie that sets `user` generates one ID and sends one cookie with its encryption; the store holds the session with that user under the ID |
| `SessionFacts.ExpiresAfterMaxAge` | src/middlewares/session.ts:200-214 | `maxAge` then `expires` through the trap persists `expires` only, with the TTL taken at the second write |
| `SessionFacts.NextRequestResumes` | src/middlewares/session.ts:189-214 | if `decrypt` inverts `encrypt` on the ID and the cookie value is not empty, the next request that presents the sent cookie resumes the stored session under the same ID |

## Left out

- `src/store/redis.store.ts` is not part of this model: it repeats the store class with connection plumbing.
- The `RedisStore` constructor's dispatch over connection shapes (54-84), `handleEventConnect`, `handleTimeoutError`, the module-level timeout and the SIGINT hook. These are connection lifecycle, timers and process signals.
- Express plumbing (`req.get`, `parse`, `res.cookie` header formatting, `next()`). A sent cookie is a recorded (name, value, attributes) triple. The incoming cookie is an `Option<string>`.
- `encrypt`/`decrypt` are function parameters with no defined meaning, so `NextRequestResumes` takes their round trip as a hypothesis. `crypto.randomBytes` in `genIdDefault` is not modelled: the value `genId` returns is a parameter.
- JSON serialisation. The stored value is the structured session record. In the code, `JSON.parse` turns a stored `expires` back into a string, not a `Date`. A later write that reads `expires.getTime()` would then throw. The model keeps it a time.
- Stored records with keys other than `cookie` and `user`; a record read back without a `cookie`.
- Redis TTL eviction. `get` returns the last value set, and an entry's `PX` expiry is recorded but not enforced. Redis's rejection of a negative `PX` value is not modelled either.
- Redis `KEYS` glob semantics; an abstract `matches` function decides which keys a pattern names.
- Async/await and the ioredis callbacks. Store errors thrown from callbacks are not modelled; every store call happens immediately, in order.
- `resave` and `saveUninitialized`, which are destructured but never used.
- Numbers are integers: no fractional milliseconds, `NaN` or invalid dates.
- Cookie options other than `path`, `domain`, `sameSite`, `httpOnly`, `secure`, `expires` and `maxAge`. Options such as `signed` or `priority` follow the same rules as `domain`.
- A value of the wrong shape assigned to a cookie attribute, or a non-object assigned to `session.cookie`.
- `delete newValue.expires` also removes the key from the handler's own object. The model works on values, so it does not show this, and it does not show writes through a reference to the old cookie proxy kept from before a bulk assignment.
- The `delete` operator applied to the session proxy or to the cookie proxy (`delete session.cookie.maxAge`), and nested writes inside `session.user`. None of them reaches a `set` trap: they change the session without persisting, and the model has no operation for them.
- The store is a map, so the model shows the keyspace after one `set` rather than counting `set` calls; the count of writes is shown for sent cookies only.
