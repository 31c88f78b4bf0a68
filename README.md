# MineVersus matchmaking server, modelled in Dafny

MineVersus is a 1v1 puzzle battle game. Its server (`server.js`) keeps one
waiting slot for matchmaking, pairs the next client that sends `joinQueue`
with the waiting one, and from then on relays moves between the two players
and runs their rounds: a `boardCleared` deals a flat 15 damage to the
opponent, a `roundLost` deals damage scaled by the gap between the two finish
times, and either one starts the next round on a board one size larger.

The project models that state machine:

- `protocol.dfy` (module `Protocol`): connection identities and the decoded
  client and server messages.
- `scoring.dfy` (module `Scoring`): the damage formula, computed in integers
  and proved equal to JavaScript's `Math.round` of the exact value.
- `machine.dfy` (module `Machine`): the whole server state (waiting slot,
  per-connection fields, installed listeners with their own counters, every
  message sent) and one pure transition function per callback.
- `properties.dfy` (module `Properties`): what the transitions guarantee,
  including the code's quirks.
- `server.dfy` (module `Server`): class `GameServer`, whose fields the
  callbacks update in place; each method is proved to perform exactly the
  `Machine` transition of its callback, so the properties carry over.

Each callback runs to completion before the next event is handled, so every
event is one atomic step. Each listener installed by `setupPlayerCommunication`
is kept as a record (sender, peer, board size, round); a message from a
connection runs every listener of that connection in installation order, as
the socket's event emitter does. This keeps two cases faithful: a connection
paired with itself, and a matched connection that joins again and gets a
second listener.

Behaviour of the code that the model keeps and proves:

- Nothing stops the waiting connection from being paired with itself
  (`Properties.SelfMatch`).
- A matched connection may join the queue again and be parked or paired a
  second time (`Properties.JoinQueueParks` has no precondition about it).
- `boardSize` and `round` are passed by value to each of the two
  `setupPlayerCommunication` calls. The two directions of a pair therefore
  count rounds separately, both starting from 5 and 1
  (`Properties.CountersPerSender`, `Machine.Deliver`).
- The `roundLost` guard never blocks. The flag it sets is cleared by
  `resetRoundState` in the same callback. A repeated `roundLost` is processed
  again (`Properties.RoundLostTwice`).
- `opponentLeft` is never sent. The close handler tests the connection
  callback's local `opponent`, which nothing assigns; only the socket property
  of the same name is set (`Properties.CloseOnlyFreesSlot`).

## Model

| member | source | states |
|---|---|---|
| `Scoring.RoundThousandths` | server.js:112 | the result is the nearest integer to the exact quotient by 1000, halves rounded up, as `Math.round` does |
| `Scoring.Damage` | server.js:109-112 | the result is `Math.round(10 + gap/1000*5)` evaluated on exact reals |
| `Scoring.RoundLostDamage` | server.js:105-112 | damage of a `roundLost` is the rounded value for the absolute gap between the two times, and is at least the base damage 10 |
| `Scoring.DamageClosedForm` | server.js:109-112 | for an integer gap `d`, the damage is `10 + (d + 100) / 200` in integer division |
| `Scoring.DamageAtLeastBase` | server.js:109-112 | the damage is never below 10 |
| `Scoring.DamageMonotone` | server.js:111-112 | a larger time gap never gives less damage |
| `Scoring.DamageExample` | server.js:105-112 | times 2000 ms and 2600 ms (a 600 ms gap) give 13 |
| `Machine.Init` | server.js:29 | the server starts with an empty slot, no connections, no open sockets, no listeners and nothing sent, in a valid state |
| `Machine.Connect` | server.js:31-35 | the open sockets and the connections gain exactly the new socket, whose record is empty (no closure opponent, no opponent, flag false, no start time); every other connection, the slot, listeners and messages are unchanged; validity is preserved |
| `Machine.JoinOrMatch` | server.js:40-65 | `joinQueue` keeps the state well formed and valid, keeps every existing listener and only appends new ones |
| `Machine.Close` | server.js:68-75 | closing removes the socket from the open ones, never leaves it in the slot, and changes no connection field or listener |
| `Machine.ResetRoundState` | server.js:138-143 | both players' flags are cleared and start times set to now; every other connection and everything else is unchanged |
| `Machine.RunHandler` | server.js:79-134 | one listener run keeps the state well formed and valid and changes no other listener, the slot or the open sockets |
| `Machine.BoardClearedBranch` | server.js:88-101 | the branch sends `roundLost{15}` to the peer, `roundWon{15}` to the sender, then `nextRound` with both counters one higher to both, and keeps the state well formed and valid |
| `Machine.RoundLostBranch` | server.js:104-133 | with the sender's flag set the branch changes nothing; otherwise it is the guarded body applied to the damage computed from the reported time and the peer's time in the round |
| `Machine.ScoreRoundLost` | server.js:115-131 | the guarded body sends `applyDamage` to the sender and `roundWon` to the peer with the same damage, then `nextRound` with both counters one higher to both, and keeps the state well formed and valid |
| `Machine.Dispatch` | server.js:78-79 | running a connection's listeners changes only that connection's listeners' counters and never a listener's sender or peer |
| `Machine.Deliver` | server.js:37-134 | any message from P preserves validity and leaves the counters of every listener of another sender untouched |
| `Properties.JoinQueuePairs` | server.js:41-61 | with W waiting, `joinQueue` from C sends `matchFound{isPlayer1:true,5,1}` to W and `{false,5,1}` to C, makes each the other's opponent, stamps both start times, empties the slot and installs one listener per direction |
| `Properties.JoinQueueParks` | server.js:62-64 | with the slot empty, `joinQueue` stores the caller in the slot and changes nothing else, sending nothing |
| `Properties.SelfMatch` | server.js:41-51 | when the waiting connection joins again it is paired with itself: both `matchFound` go to it and it becomes its own opponent |
| `Properties.CloseOnlyFreesSlot` | server.js:68-75 | closing clears the slot exactly when it holds that connection, otherwise keeps it, and sends nothing |
| `Properties.DeliverSole` | server.js:78-79 | a connection with a single listener has each message handled exactly once, by that listener |
| `Properties.Relays` | server.js:83-85 | a `move` produces at most one relay per listener, and every relay carries the sender's frame unchanged |
| `Properties.DeliverMove` | server.js:83-85 | a `move` appends the relays to the sender's peers and changes nothing else |
| `Properties.MoveToPeerOnly` | server.js:83-85 | with one listener, a `move` is forwarded unchanged to the opponent only |
| `Properties.BoardClearedRound` | server.js:88-101 | `boardCleared` from P sends `roundLost{15}` to O, `roundWon{15}` to P, then the same `nextRound` to both; P's counters grow by one; both flags are false and both start times are now |
| `Properties.RoundLostRound` | server.js:104-132 | `roundLost` from P sends `applyDamage` to P and `roundWon` to O with the same time-scaled damage, advances P's counters by one and ends with both flags false |
| `Properties.BoardClearedEffect` | server.js:88-101 | the `boardCleared` branch alone sends the four round-end messages and starts the next round for its listener |
| `Properties.RoundLostEffect` | server.js:104-133 | the `roundLost` branch alone, in a valid state, passes its guard, sends the four round-end messages and starts the next round |
| `Properties.RoundLostTwice` | server.js:114-124 | two `roundLost` in a row are both processed: two `applyDamage` messages and two round advances |
| `Properties.TwoPlayersMatch` | server.js:40-64 | two fresh clients joining in turn: the first waits, then both get `matchFound` with complementary `isPlayer1`, size 5, round 1 |
| `Properties.CountersPerSender` | server.js:78-101 | after A's `boardCleared` announces round 2 on size 6, B's `boardCleared` announces round 2 on size 6 again |
| `Server.GameServer.constructor` | server.js:29 | the running server starts in `Machine.Init` |
| `Server.GameServer.OnConnection` | server.js:31-35 | the new state is `Machine.Connect` of the old one, and stays valid |
| `Server.GameServer.OnMessage` | server.js:37-134 | the new state is `Machine.Deliver` of the old one, and stays valid; the loop runs the sender's listeners in order |
| `Server.GameServer.OnClose` | server.js:68-75 | the new state is `Machine.Close` of the old one; validity is kept |
| `Server.GameServer.JoinOrMatch` | server.js:40-65 | the fields are updated in place to `Machine.JoinOrMatch` of the old state |
| `Server.GameServer.RunListeners` | server.js:78-79 | the loop runs the sender's listeners in installation order; the fields end as `Machine.Dispatch` of the old state |
| `Server.GameServer.PairListener` | server.js:79-134 | the fields are updated in place to `Machine.RunHandler` of the old state |
| `Server.GameServer.BoardClearedBranch` | server.js:88-101 | the `boardCleared` branch updates the fields in place to `Machine.BoardClearedBranch` of the old state |
| `Server.GameServer.RoundLostBranch` | server.js:104-133 | the `roundLost` branch computes the damage and tests the guard; the fields end as `Machine.RoundLostBranch` of the old state |
| `Server.GameServer.ScoreRoundLost` | server.js:115-131 | the guarded body sets the flag, sends, increments `round`, resets, increments `boardSize` and sends, in that order; the fields end as `Machine.ScoreRoundLost` of the old state |
| `Server.GameServer.ResetRoundState` | server.js:138-143 | the fields are updated in place to `Machine.ResetRoundState` of the old state |
| `Server.GameServer.Send` | server.js:84 | one `send` appends exactly one envelope to the outbox and changes no other field |

## Left out

- HTTP and WebSocket set-up, static files and the listening socket (server.js:1-27, 146-148) are not modelled. `send` is modelled as an append to the outbox.
- The transport drops a `send` to a closed socket. The outbox still records it, because the server makes the call.
- `JSON.parse` is replaced by the decoded `Inbound` datatype. A malformed frame makes `JSON.parse` throw inside the listener. Nothing catches it, so the socket's remaining listeners are skipped and the error reaches the process. That path is not modelled.
- A `roundLost` without a numeric `time` would give `NaN` damage. Client times are integer milliseconds here.
- `Date.now()` is the `now` parameter of each callback. The two or three readings taken within one callback are taken to be equal.
- Scoring.Damage: computed on exact rationals, not IEEE doubles. A gap whose double product lands just beside a half could round differently in JavaScript.
- Machine.RunHandler: requires the peer's start time to be set. In the code it always is, because it is stamped at pairing, so the `NaN` of an unset start time cannot arise.
- Each event is one atomic step. The Node event loop runs callbacks one at a time, so no other interleaving exists.
- mongoose.js (database connection), models/Game.js (a schema with no logic) and the models/Player import are not part of this model.
- public/App.js, the browser client (rendering, HTTP calls, the bomb cooldown), is not part of this model.
