# gopush notification distribution engine, in Dafny

This project models the core of gopush, a push-notification relay. Publishers
are identified by a mail address and an RSA key pair. They create notification
centers, post messages into them and remove them. Subscribers read a center's
last message by polling, or receive each message live over a websocket.

The model has three parts, each a state machine over finite maps and sets:

- **Center registry and authentication gate** (`notifications.dfy`, `ping.dfy`).
  `GoPushService` holds `lastState` (the last message of each center) and
  `hubs` (the hub of each center). Both maps are keyed by the center id
  `mail + "____" + center`. It also holds the pending expiry timers. The
  handlers for create, notify and remove answer 404 to a non-POST request and
  401 when authentication fails, and in both cases touch nothing. Only then do
  they read or update the registry. `CheckAuth` fails closed. It rejects a
  missing mail, a header without the `"GoPush "` prefix and an unknown mail.
  Otherwise its answer is the signature check, and `CheckAuthAcceptsSigned`
  proves that it accepts exactly the requests signed by the mail's key. The
  poll handler is a pure function of `lastState`.
- **Hub** (`websockethub.dfy`). Each arm of the hub's `select` loop is a method:
  `Register`, `Unregister`, `Broadcast` and `Quit`. A broadcast appends the
  message to every registered queue that has room. A queue that is already at
  its capacity of 256 gets its connection evicted: the connection leaves the
  set, and its queue and socket are closed. The hub invariant `Valid` says
  that every registered queue is open and within capacity.
- **Key directory** (`backend_dummy.dfy`, `backend_mysql.dfy`). The in-memory
  backend is a map from mail to PEM key. The MySQL backend puts a read-through
  cache in front of a table keyed by mail. Its invariant states cache
  coherence: every cached key is the parse of the stored row. The cached lookup
  is proved to return exactly what the table lookup returns.

Foreign code enters as function-typed parameters: PEM parsing (`KeyParser`),
RSASSA-PKCS1-v1_5 with SHA-1 verification per section 8.2 of RFC 8017
(`Verifier`), and JSON string encoding in the poll handler. The key directory's
lookup is passed to the handlers as `keyOf`. Goroutines become sequential
steps:

- The notify handler's hand-off to the hub is a direct call to `Broadcast`.
- The hub loop is the order in which its methods are called.
- The expiry goroutine is an `Expire` step on a pending timer.

Strings in the model stand for Go's byte strings: each `char` is one byte. So
`|authorization| < |AuthName|` compares byte lengths, as `len` does in
notifications.go:25. The responses every 404 and 401 path writes are the
helpers `Http.NotFound` and `Http.Unauthorized`, which model `serve404` and
`serve401` (src/gopush/server.go:9-19), including the `"chatset"` spelling of
the 401 content type.

`Scenarios.InboxRound` is the model's own example of a publisher round, in
the shape of the integration tests' create, notify, poll and remove steps. It
creates `alice____inbox`, polls `""`, notifies `"hello"`, polls `"hello"`, is
refused a stranger's notify with 401, removes the center, and then polls 404.

Where the code behaves surprisingly, the model follows the code:

- The remove handler takes the center name from the body and the mail from the
  query. It does not take a center id.
- The MySQL `Add` never touches the cache. Coherence still holds because an
  insert of an existing mail fails on the primary key.
- A center id is ambiguous when a mail contains `"____"` or ends with `_`.
  `CenterNameInjective` proves that ids are unique apart from those cases, and
  `CenterNameCollisions` shows both cases.

One surprise the handlers do not follow: a short Authorization header crashes
the request in the source. `CheckAuthAsWritten` models the crash; the three
handlers use the corrected `CheckAuth` and answer 401 (see Findings).

## Model

| member | source | states |
|---|---|---|
| Notifications.CenterName | src/gopush/notifications.go:131-133 | the id is the mail, then "____", then the center, and splits back into them at known positions |
| Notifications.CenterNameInjectiveForMail | src/gopush/notifications.go:131-133 | two centers of one mail never share an id |
| Notifications.CenterNameInjective | src/gopush/notifications.go:131-133 | if no mail contains "____" or ends with '_', equal ids have the same mail and the same center, so one identity's requests cannot address another identity's centers |
| Notifications.ShorterMailCollides | src/gopush/notifications.go:131-133 | a shorter mail shares an id with a longer mail only when the longer one contains "____" or ends with '_' |
| Notifications.CenterNameCollisions | src/gopush/notifications.go:131-133 | two concrete pairs of distinct identities whose centers have the same id |
| Notifications.CheckAuth | src/gopush/notifications.go:17-45 | rejects when the mail is empty, the header lacks the "GoPush " prefix or no key is found; when it accepts, the signature (header after the prefix) verifies the body under the mail's key |
| Notifications.CheckAuthAcceptsSigned | src/gopush/notifications.go:17-45 | CheckAuth accepts if and only if the mail is non-empty, has a key, and the header is "GoPush " followed by a signature that verifies the body under that key |
| Notifications.CheckAuthAsWritten | src/gopush/notifications.go:17-45 | checkAuth as written aborts (the header slice goes out of range) exactly when the mail is present and the header is non-empty but shorter than "GoPush "; when it accepts, the header has the prefix and the rest verifies the body under the mail's key |
| Notifications.CheckAuthAsWrittenAgrees | src/gopush/notifications.go:17-45 | wherever checkAuth as written does not abort, it accepts exactly when CheckAuth does |
| Notifications.ShortHeaderAborts | src/gopush/notifications.go:24-27 | the header "GoPush" aborts the request as written, where CheckAuth rejects it |
| Notifications.GoPushService.constructor | src/gopush/gopush.go:37-41 | the service starts with no centers, as NewService's empty `lastState` map does; that constructor has no `hubs` field, so the empty hubs and timers are the model's |
| Notifications.GoPushService.CreateCenter | src/gopush/notifications.go:135-150 | returns CenterName(mail, center); that id's last message becomes "" and its hub a fresh running hub with no connections, replacing any earlier entry; other centers keep their hubs; a timer is added exactly when the timeout is positive; both maps keep the same keys |
| Notifications.GoPushService.RemoveCenter | src/gopush/notifications.go:152-157 | the id leaves lastState and hubs together; its hub stops running and every connection it held is told to quit; timers are unchanged |
| Notifications.GoPushService.Expire | src/gopush/notifications.go:140-146 | consumes one pending timer; removes the center exactly when hubs still holds its id (also when the center was re-created), otherwise changes nothing; timers exist only when the timeout is positive |
| Notifications.GoPushService.HandleNewCenter | src/gopush/notifications.go:47-71 | non-POST gives 404 and failed authentication gives 401, both with the registry unchanged; otherwise 201 with the id CenterName(mail, body) and the create effects |
| Notifications.GoPushService.HandleNotify | src/gopush/notifications.go:73-101 | 404 for non-POST, 401 for failed authentication, 404 for an id missing from lastState, each with no change; 200 exactly when all checks pass, and then lastState[id] is the body, other centers are unchanged and the body is broadcast to hubs[id] |
| Notifications.GoPushService.HandleRemoveCenter | src/gopush/notifications.go:103-129 | 404 for non-POST, 401 for failed authentication, 404 for an unknown center named by the body, each with no change; 200 exactly when all checks pass, and then the id leaves both maps and its hub is shut down |
| Ping.HandlePing | src/gopush/ping.go:10-36 | 200 exactly for a GET of a non-empty center present in lastState, else 404; without a callback the body is lastState[center] as plain text, with one it is callback + "(" + JSON(lastState[center]) + ");" |
| Ping.PollAfterWrite | src/gopush/ping.go:26-29 | after a center's last message is set to msg, a plain poll returns exactly msg |
| Ping.PollAfterDelete | src/gopush/ping.go:21-24 | after a center leaves lastState, every poll of it is 404 |
| WebSocketHub.WSConnection.constructor | src/gopush/websocketconn.go:48-54 | a new connection has an empty open send queue, an open socket and no quit request |
| WebSocketHub.WSHub.constructor | src/gopush/websockethub.go:15-23 | a new hub runs and has no connections |
| WebSocketHub.WSHub.Register | src/gopush/websockethub.go:28-29 | a running hub adds c to its set; no queue changes |
| WebSocketHub.WSHub.Unregister | src/gopush/websockethub.go:30-32 | a running hub removes c and closes its queue unconditionally; reports a double close exactly when c's queue was already closed |
| WebSocketHub.WSHub.UnregisterOnce | src/gopush/websockethub.go:30-32 | removes c, and closes its queue only if the hub held it, so a queue is closed only while open |
| WebSocketHub.WSHub.Broadcast | src/gopush/websockethub.go:33-43 | the set afterwards is exactly the earlier connections whose queues had room; each of them has m appended after its earlier contents; each full one keeps its contents and has queue and socket closed; no queue exceeds 256 |
| WebSocketHub.WSHub.Quit | src/gopush/websockethub.go:44-50 | quit(true) tells every registered connection to stop and ends the loop for good; quit(false) changes nothing |
| WebSocketHub.EvictedThenUnregisteredClosesTwice | src/gopush/websocketconn.go:48-56 | a connection evicted by a broadcast and then unregistered by its own handler has its queue closed twice |
| BackendDummy.DummyBackend.constructor | src/gopush/backend_dummy.go:11-15 | the map starts empty |
| BackendDummy.DummyBackend.GetPublicKey | src/gopush/backend_dummy.go:17-23 | None for an unknown mail; a key found is the parse of the string stored for that mail |
| BackendDummy.DummyBackend.GetAll | src/gopush/backend_dummy.go:25-37 | one token per stored mail, each with its stored key and Admin false, with no mail twice, in any order; none after Stop; no error |
| BackendDummy.DummyBackend.Add | src/gopush/backend_dummy.go:39-43 | stores the token's key under its mail, overwriting; GetPublicKey(mail) is then the parse of that key; no error |
| BackendDummy.DummyBackend.Remove | src/gopush/backend_dummy.go:45-49 | deletes only that mail's entry; its lookup is None and other lookups are unchanged; no error |
| BackendDummy.DummyBackend.Stop | src/gopush/backend_dummy.go:51-53 | the map is gone: every lookup is None |
| BackendMySQL.MySQLBackend.constructor | src/gopush/backend_mysql.go:27-31 | the cache starts empty over the existing table, with the configured cache switch |
| BackendMySQL.MySQLBackend.GetPublicKeyWithoutCache | src/gopush/backend_mysql.go:64-72 | None when no row exists for the mail; a key found is the parse of that row's PEM |
| BackendMySQL.MySQLBackend.GetPublicKey | src/gopush/backend_mysql.go:74-88 | always returns the table's answer; cache off: cache untouched; hit: the cached key; miss with a key: that key is inserted; no key: cache unchanged; cache coherence is preserved |
| BackendMySQL.MySQLBackend.Add | src/gopush/backend_mysql.go:111-117 | inserts the row for a new mail; a mail already present gives a duplicate-key error and leaves the table as it was; the cache never changes |
| BackendMySQL.MySQLBackend.Remove | src/gopush/backend_mysql.go:119-129 | drops the mail from the cache (when on) and from the table, so a later lookup misses both; no error |
| Scenarios.InboxRound | src/gopush/gopush_test.go:337-349 | the model's own round in the shape of the test's create, notify, poll, remove and poll-404 steps: create, poll, notify, poll, a stranger's notify, remove and poll give 201 "alice____inbox", "", 200, "hello", 401, 200 and 404 |
| Scenarios.StaleTimerRemovesRecreatedCenter | src/gopush/notifications.go:140-146 | a timer from a removed center removes a re-created center with the same id |

## Left out

- Concurrency: the source runs every handler, hub loop and expiry timer in its own goroutine. It reads and writes `lastState` and `hubs` without a lock. The model runs one step at a time, so it does not capture data races or the ordering between a notify returning and its broadcast arriving.
- Real time: `Expire` may fire any pending timer at any point. The timeout's duration is not modelled.
- Cryptography: PEM/x509 parsing, SHA-1, hex decoding and RSA PKCS#1 v1.5 verification are foreign code. They are the `KeyParser` and `Verifier` parameters. `encoding/json` string marshalling in the poll handler is a parameter too.
- The service's own declarations (`GoPushService`, `APIToken`, the route table, `getPublicKeyForMailAddress`) are not part of this model. The key lookup is the `keyOf` parameter. The `"GoPush "` prefix is the value set in src/gopush/gopush.go:39 and used by the tests.
- The listen handler that attaches websocket sessions to a center is not part of this model. So the registry has no attach operation, and `Register` is a hub method only.
- src/gopush/websocketconn.go: the reader and writer pumps and socket I/O. Only the queue capacity, the new connection's state and the register/unregister protocol are modelled.
- `Quit` blocks in the source until each writer takes its stop signal, which can deadlock if a writer has already exited. The model sets a flag. An event sent to a hub that has stopped blocks its sender forever in the source. The model leaves that hub unchanged.
- `CreateCenter` over an existing id: the replaced hub keeps running with its subscribers. The model drops it from the map and does not follow it further.
- Notifications.GoPushService.HandleNewCenter, Notifications.GoPushService.HandleNotify, Notifications.GoPushService.HandleRemoveCenter: they authenticate with the corrected `CheckAuth`, so a non-empty Authorization header shorter than `"GoPush "` gets 401 here, where the source's `checkAuth` panics and the client gets no response. The as-written gate is `CheckAuthAsWritten`.
- `BackendDummy.DummyBackend.Add` requires that `Stop` has not run, because writing to the nil map left by `Stop` panics in Go.
- MySQL backend: connection setup, table creation, `GetAll` (a database query with `ORDER BY`) and `Stop` (closing the connection) are database I/O and are left out. The only database error modelled is the duplicate primary key on insert. Connection and query failures are not modelled. The package-level `userCache` variable (backend_mysql.go:19) is unused by the backend and not modelled.
- The `Backend` interface (src/gopush/backend.go) is not a declaration here. Both backend classes expose its operations under the same names.
- Request bodies are byte slices in the source and strings in the model. The conversion `string(body)` is the identity here. Model strings are byte strings, one `char` per byte; UTF-8 decoding is not modelled, and none of the modelled code decodes it.
- Key parsing: `stringToPublicKey` (src/gopush/crypto.go:39-48) panics when the text holds no PEM block and when the key is not RSA. The `KeyParser` parameter folds those cases into its `None`/`Some` answer, so a stored key of either kind (no PEM block, or a key that is not RSA) makes every lookup and every `checkAuth` for that mail abort in the source, where the model answers None or 401.
- BackendMySQL.MySQLBackend.GetPublicKey, BackendMySQL.MySQLBackend.Remove: the table is a map that compares mails exactly. The source's table (backend_mysql.go:12-17) uses the server's default collation, which usually ignores case and trailing spaces in `WHERE Mail = ?` and in the primary key, while `userCache` is a Go map keyed by the exact string. Cache coherence is proved only under exact comparison; under a case-insensitive collation a key cached under "TEST@example.com" survives `Remove("test@example.com")`.
- HTTP plumbing, the admin pages, output templates, configuration loading and the command-line mains are outside the core. The older copies of the registry in src/gopush/gopush.go, gopush/gopush.go and src/gopush/db.go are superseded and not modelled, except that the service's empty start and its `"GoPush "` prefix come from `NewService` in src/gopush/gopush.go:37-41.

## Findings

| source | as written | input that shows it | evidently intended | confidence | as-written member | corrected member |
|---|---|---|---|---|---|---|
| src/gopush/notifications.go:25 | a non-empty Authorization header shorter than "GoPush " is sliced as `authheader[0:7]`, which is out of range and panics, so the request gets no response | mail `test@example.com` with header `GoPush` (no space) | reject with 401, like any header without the prefix | high; not executed | Notifications.ShortHeaderAborts | Notifications.CheckAuth |
| src/gopush/websockethub.go:30-32 | unregister closes `c.send` even when a broadcast already evicted `c` and closed it, so the handler's deferred unregister closes a closed channel and panics | a subscriber whose 256-slot queue is full when a message is broadcast, which then disconnects | close only a connection the hub still holds | high; not executed | WebSocketHub.EvictedThenUnregisteredClosesTwice | WebSocketHub.WSHub.UnregisterOnce |
