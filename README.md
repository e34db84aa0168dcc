# Matchmaking server model

A Dafny model of the matchmaking engine of a websocket rendezvous server for
peer-to-peer game clients (`servidorMatch.py`). Clients send a `register`
message with a player id, a game, an ip and a port. The server keeps them in
one global list, `waiting_players`. After every registration, while two or
more players wait, it pops the two oldest entries and sends each of them a
`match_found` notice. The notice
carries the opponent's ip and port, a match id shared by both sides, and a
role (1 for the earlier-queued player, 2 for the later one). When a
connection ends, every entry it registered is filtered out of the list.

Layout:

- `json.dfy` (module `Json`): decoded JSON values, `dict.get`, and Python
  truthiness.
- `protocol.dfy` (module `Protocol`): the waiting-player record, the
  `match_found` notice, the two notices of one match, and the handler's
  dispatch of one decoded message (`Classify`).
- `pairing.dfy` (module `Pairing`): what one drain of the list does, as pure
  functions of the list on entry. `Pairs` gives the matches, `Leftover` the
  players left waiting, `NoticesFor` the notices, and `Attempts` the sends
  with their outcomes. Lemmas state FIFO order, exactly-once matching,
  match ids, and that draining after every append equals draining once.
- `cleanup.dfy` (module `Cleanup`): the `finally` filter (`Without`) and its
  properties. It keeps the other connections' entries in order, is
  idempotent, and changes nothing when the connection has no entry.
- `server.dfy` (module `Server`): class `Matchmaker`. Its fields are the
  waiting list, the log of attempted sends and the match-id counter. Its
  methods are `TryMatchmaking` (the `while` loop), `PairOldest` (one pass of
  that loop), `RegisterPlayer`, `Handle` (one message), `Disconnect` (the
  `finally` block) and `Serve` (one connection's whole `handler`). Each
  method is proved against the functions of `Pairing` and `Cleanup`.

Environment inputs:

- The id from `uuid.uuid4()` is the counter `nextId`. One value is used per
  match, and both notices of the match share it.
- The outcome of each `websocket.send` is the parameter `outcome: nat -> bool`,
  indexed by send number. A false value stands for `ConnectionClosed`, which
  the source catches and logs.

Three behaviours of the code are worth noting, and the model follows them:

- The `ip` stored and sent to the peer is the one the client put in its
  message (servidorMatch.py:63). It is not the transport's source address.
- A registration is accepted when `player_id`, `game`, `ip` and `port` are
  all truthy in Python's sense. A port is therefore not required to be a
  positive integer: any non-zero number, non-empty string, list or object
  passes.
- Pairing ignores `game`. A second registration from the same connection is
  enqueued like any other, so a connection can be matched with itself.

## Model

| member | source | states |
|---|---|---|
| Json.FalsyValues | servidorMatch.py:66 | Python's truth test, as the handler applies it to the four fields: a value is falsy exactly when it is `None`, `False`, `0`, `""`, `[]` or `{}`. |
| Json.Get | servidorMatch.py:58-64 | `data.get(key)` returns the stored value when the key is present, and reads as `None` exactly when the key is missing or mapped to `null`. |
| Protocol.PairNotices | servidorMatch.py:37-47 | The two notices of a match go first to the earlier-queued player, then to the later one. Notice i carries side i's own game and the other side's ip and port. Both carry the same match id, and the roles are 1 and 2, summing to 3. |
| Protocol.Classify | servidorMatch.py:58-71 | A message is a registration exactly when its action (read with `Get`) is the string "register" and all four fields are truthy (`Truthy`, see `Json.FalsyValues`). The accepted fields are passed on unchanged. Any other action is reported as unknown. |
| Protocol.MissingFieldRejected | servidorMatch.py:61-69 | A register message that lacks any of `player_id`, `game`, `ip` or `port` is never accepted. |
| Pairing.Pairs | servidorMatch.py:34-36 | Draining forms one match per two players, in FIFO order. Match k pairs the players at positions 2k and 2k+1 of the list on entry, the earlier one first. |
| Pairing.Leftover | servidorMatch.py:34 | After draining, the number of players left is the initial length mod 2, so fewer than two remain. |
| Pairing.LeftoverIsSuffix | servidorMatch.py:34-36 | The players left waiting are the last `len % 2` entries of the list on entry. |
| Pairing.NoticesAt | servidorMatch.py:37-47 | The notices of match k are sends 2k and 2k+1. Role 1 goes to the earlier player with the later one's address, role 2 the other way round, and both carry id `firstId + k`. |
| Pairing.MatchIds | servidorMatch.py:37 | The two notices of one match share an id, and notices of different matches in one drain have different ids. |
| Pairing.AttemptAt | servidorMatch.py:48-52 | Every notice is attempted exactly once, in order, and each attempt carries the outcome of its own send. A failure does not skip or repeat any notice. |
| Pairing.Partition | servidorMatch.py:34-36 | The matched players in pop order, followed by the leftover, are exactly the list on entry. Nobody is matched twice or lost. |
| Pairing.MatchedOnce | servidorMatch.py:34-36 | The multiset of matched players plus the multiset of leftover players equals the multiset on entry. |
| Pairing.DrainIncremental | servidorMatch.py:29-36 | Appending and then draining gives the same matches and leftover as draining first, then appending and draining again. |
| Pairing.JoinShortQueue | servidorMatch.py:29-36 | A registration joining a list of at most one player either waits alone or forms one match with the waiting player, which gets role 1. |
| Pairing.ReplayIsFifo | servidorMatch.py:21-36 | Registrations arriving in order with no disconnects, each followed by a drain, pair registration 1 with 2, 3 with 4, and so on. An odd last registration is left waiting. |
| Cleanup.Without | servidorMatch.py:76-79 | The cleanup keeps a record exactly when it belongs to another connection. |
| Cleanup.WithoutAppend | servidorMatch.py:76-79 | The filter works element by element, so the kept records stay in their original order. |
| Cleanup.WithoutCount | servidorMatch.py:76-79 | Every record of another connection keeps its multiplicity. No record of the closing connection remains. |
| Cleanup.WithoutAbsent | servidorMatch.py:76-79 | When no record belongs to the connection, the cleanup is a no-op. |
| Cleanup.WithoutIdempotent | servidorMatch.py:76-79 | Cleaning up twice is the same as cleaning up once. |
| Server.Matchmaker.constructor | servidorMatch.py:19 | The server starts with nobody waiting and nothing sent. |
| Server.Matchmaker.TryMatchmaking | servidorMatch.py:33-52 | The list becomes `Leftover` of the list on entry, so fewer than two wait. One id is consumed per match. The send log grows by the outcome-labelled notices of `Pairs` of the list on entry. The new list and ids do not depend on send outcomes. |
| Server.Matchmaker.PairOldest | servidorMatch.py:35-52 | One pass pops the two oldest players, takes a fresh id, and attempts both notices in order whatever the first send's outcome. It moves exactly one match from pending to sent. |
| Server.Matchmaker.RegisterPlayer | servidorMatch.py:21-31 | One record with the given fields and connection is appended at the tail and the list is drained. Waiting, ids and the send log are as `TryMatchmaking` gives for the grown list. |
| Server.Matchmaker.Handle | servidorMatch.py:56-71 | An accepted registration behaves as `RegisterPlayer`. An incomplete registration or another action leaves the list, the log and the id counter unchanged. |
| Server.Matchmaker.Disconnect | servidorMatch.py:74-79 | The list becomes `Without` of the old list. No record of the connection remains, and nothing is sent. |
| Server.Matchmaker.Serve | servidorMatch.py:54-79 | A connection handled on its own runs until the frames end or a frame is not a JSON object, then cleans up. Afterwards none of its records waits. What waits is a trailing part of the other connections' records that waited before, in order. The send log only grew, by exactly two sends per match id taken. |

## Left out

- Process start-up, `websockets.serve`, the `PORT` environment lookup and
  the final `asyncio.Future()` wait (servidorMatch.py:81-88): transport and
  process plumbing.
- Logging calls: they do not affect state.
- `json.loads` and `json.dumps`: messages are modelled already decoded, and
  notices as records. A frame that does not decode, or that decodes to
  something other than an object, ends the handler's loop (`Serve`). The
  exception it raises is not modelled.
- JSON floating-point numbers: `Json` has integers only, so a float `0.0`
  port is not represented.
- `uuid.uuid4()`: replaced by a counter. The model only relies on
  freshness within one server run.
- The websocket itself: a connection is a number. `send` is the outcome
  parameter, and exceptions other than `ConnectionClosed` are not modelled.
- Interleaving of connection tasks: each operation runs to completion.
  Under asyncio, other tasks can run at each `await send` inside the
  matchmaking loop. The check on the list's length and the two pops run
  together with no await between them, but the model treats a whole drain
  as one step.
- Server.Matchmaker.Serve: its ensures do not say which notices the session
  sent nor which of the earlier records it matched. They give only that the
  send log grows by two sends per match id taken (`old(sent) <= sent`) and
  that the final list is a trailing part of `Without(old(waiting), conn)`.
  What each frame does is stated by `Handle`'s contract, which `Serve`
  applies frame by frame.
