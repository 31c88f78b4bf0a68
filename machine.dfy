/** The matchmaking and round state machine of server.js as pure transition
    functions: one function per callback, each taking the whole server state
    before the callback and giving the state after it. Node runs every
    callback to completion, so each one is a single atomic step. */
module Machine {
  import opened Protocol
  import Scoring

  /** The connection-scope `boardSize` and `round` (server.js:34-35). Nothing
      assigns them after initialisation, so every match starts from these. */
  const InitialBoardSize: int := 5
  const InitialRound: int := 1

  /** What the server keeps per connection. `closureOpponent` is the variable
      declared in the connection callback (server.js:32), which only the
      close handler reads; `opponent`, `roundLost` and `startTime` are the
      properties set on the socket object. `startTime` is undefined until the
      connection is matched; an undefined `roundLost` is falsy, hence false. */
  datatype Conn = Conn(closureOpponent: Option<ConnId>, opponent: Option<ConnId>,
                       roundLost: bool, startTime: Option<int>)

  /** One listener installed by `setupPlayerCommunication(player, peer,
      boardSize, round)` (server.js:78). The counters are its own copies,
      captured by value and updated only by this listener. */
  datatype Handler = Handler(player: ConnId, peer: ConnId, boardSize: int, round: int)

  /** The whole server: the waiting slot (server.js:29), the connections, the
      ones whose socket is still open, the pair listeners in the order they
      were installed, and every `send` made so far. */
  datatype State = State(waiting: Option<ConnId>, conns: map<ConnId, Conn>, open: set<ConnId>,
                         handlers: seq<Handler>, outbox: seq<Envelope>)

  /** A listener's two sockets exist and both have a start time. */
  predicate Linked(s: State, h: Handler)
  {
    h.player in s.conns && h.peer in s.conns &&
    s.conns[h.player].startTime.Some? && s.conns[h.peer].startTime.Some?
  }

  /** Well-formedness every transition needs: the slot holds an open
      connection, and every listener refers to stamped connections. */
  predicate Wired(s: State)
  {
    s.open <= s.conns.Keys &&
    (s.waiting.Some? ==> s.waiting.value in s.open) &&
    forall i :: 0 <= i < |s.handlers| ==> Linked(s, s.handlers[i])
  }

  /** Between callbacks no `roundLost` flag is set, and no connection's
      closure `opponent` variable holds anyone. */
  predicate Settled(s: State)
  {
    forall c :: c in s.conns ==> !s.conns[c].roundLost && s.conns[c].closureOpponent.None?
  }

  /** Each listener's two counters advance together from (5, 1). */
  predicate InStep(s: State)
  {
    forall i :: 0 <= i < |s.handlers| ==>
      s.handlers[i].round >= InitialRound &&
      s.handlers[i].boardSize - s.handlers[i].round == InitialBoardSize - InitialRound
  }

  /** The invariant of every state the server reaches. */
  predicate Valid(s: State)
  {
    Wired(s) && Settled(s) && InStep(s)
  }

  /** The server as it starts: nobody waiting, no connections. */
  function Init(): (s: State)
    ensures Valid(s) && s.waiting.None? && s.outbox == [] && s.handlers == []
    ensures s.conns == map[] && s.open == {}
  {
    State(None, map[], {}, [], [])
  }

  /** A new socket (server.js:31-35). */
  function Connect(s: State, c: ConnId): (r: State)
    requires c !in s.conns
    ensures Valid(s) ==> Valid(r)
    ensures r.open == s.open + {c} && r.conns.Keys == s.conns.Keys + {c}
    ensures r.conns[c] == Conn(None, None, false, None)
    ensures forall x :: x in s.conns ==> r.conns[x] == s.conns[x]
    ensures r.waiting == s.waiting && r.handlers == s.handlers && r.outbox == s.outbox
  {
    s.(conns := s.conns[c := Conn(None, None, false, None)], open := s.open + {c})
  }

  /** The `joinQueue` branch of the connection listener (server.js:40-65).
      The waiting connection, if any, becomes player 1 and the caller player 2;
      nothing checks that the two differ. */
  function JoinOrMatch(s: State, c: ConnId, now: int): (r: State)
    requires Wired(s) && c in s.open
    ensures Wired(r) && (Valid(s) ==> Valid(r))
    ensures r.open == s.open && r.conns.Keys == s.conns.Keys
    ensures |r.handlers| >= |s.handlers| && r.handlers[..|s.handlers|] == s.handlers
  {
    match s.waiting
    case None => s.(waiting := Some(c))
    case Some(w) =>
      var player1, player2 := w, c;
      var sent := s.outbox + [Envelope(player1, MatchFound(true, InitialBoardSize, InitialRound)),
                              Envelope(player2, MatchFound(false, InitialBoardSize, InitialRound))];
      var c1 := s.conns[player1 := s.conns[player1].(opponent := Some(player2))];
      var c2 := c1[player2 := c1[player2].(opponent := Some(player1))];
      var c3 := c2[player1 := c2[player1].(startTime := Some(now))];
      var c4 := c3[player2 := c3[player2].(startTime := Some(now))];
      var hs := s.handlers + [Handler(player1, player2, InitialBoardSize, InitialRound),
                              Handler(player2, player1, InitialBoardSize, InitialRound)];
      var r := State(None, c4, s.open, hs, sent);
      assert forall i :: 0 <= i < |s.handlers| ==> r.handlers[i] == s.handlers[i];
      r
  }

  /** The close listener (server.js:68-75). */
  function Close(s: State, c: ConnId): (r: State)
    requires Wired(s) && c in s.open
    ensures Wired(r) && (Valid(s) ==> Valid(r))
    ensures r.open == s.open - {c} && c !in r.open
    ensures r.waiting != Some(c)
    ensures r.conns == s.conns && r.handlers == s.handlers
  {
    var slot := if s.waiting == Some(c) then None else s.waiting;
    var sent := match s.conns[c].closureOpponent
                case Some(o) => s.outbox + [Envelope(o, OpponentLeft)]
                case None => s.outbox;
    s.(waiting := slot, outbox := sent, open := s.open - {c})
  }

  /** `resetRoundState(player, opponent)` (server.js:138-143). */
  function ResetRoundState(s: State, player: ConnId, opponent: ConnId, now: int): (r: State)
    requires player in s.conns && opponent in s.conns
    ensures r.conns.Keys == s.conns.Keys
    ensures r.conns[player] == s.conns[player].(roundLost := false, startTime := Some(now))
    ensures r.conns[opponent] == s.conns[opponent].(roundLost := false, startTime := Some(now))
    ensures forall x :: x in s.conns && x != player && x != opponent ==> r.conns[x] == s.conns[x]
    ensures r.(conns := s.conns) == s
  {
    var c1 := s.conns[player := s.conns[player].(roundLost := false)];
    var c2 := c1[opponent := c1[opponent].(roundLost := false)];
    var c3 := c2[player := c2[player].(startTime := Some(now))];
    var c4 := c3[opponent := c3[opponent].(startTime := Some(now))];
    s.(conns := c4)
  }

  /** The message listener installed by `setupPlayerCommunication` for
      listener `i` (server.js:79-134), run on one inbound message. */
  function RunHandler(s: State, i: nat, m: Inbound, now: int): (r: State)
    requires Wired(s) && i < |s.handlers|
    ensures Keeps(s, r, i)
  {
    match m
    case Move(raw) => s.(outbox := s.outbox + [Envelope(s.handlers[i].peer, MoveRelay(raw))])
    case BoardCleared => BoardClearedBranch(s, i, now)
    case RoundLost(playerTime) => RoundLostBranch(s, i, playerTime, now)
    case JoinQueue => s
    case Unknown(_) => s
  }

  /** The `boardCleared` branch of listener `i` (server.js:88-101). */
  function BoardClearedBranch(s: State, i: nat, now: int): (r: State)
    requires Wired(s) && i < |s.handlers|
    ensures Keeps(s, r, i)
    ensures var h := s.handlers[i];
      r.outbox == s.outbox + [Envelope(h.peer, LostRound(Scoring.BoardClearedDamage)),
                              Envelope(h.player, WonRound(Scoring.BoardClearedDamage)),
                              Envelope(h.player, NextRound(h.boardSize + 1, h.round + 1)),
                              Envelope(h.peer, NextRound(h.boardSize + 1, h.round + 1))]
  {
    var h := s.handlers[i];
    var player, opponent := h.player, h.peer;
    var damage := Scoring.BoardClearedDamage;
    var s1 := s.(outbox := s.outbox + [Envelope(opponent, LostRound(damage)),
                                       Envelope(player, WonRound(damage))]);
    var h1 := h.(round := h.round + 1, boardSize := h.boardSize + 1);
    var s2 := ResetRoundState(s1.(handlers := s1.handlers[i := h1]), player, opponent, now);
    s2.(outbox := s2.outbox + [Envelope(player, NextRound(h1.boardSize, h1.round)),
                               Envelope(opponent, NextRound(h1.boardSize, h1.round))])
  }

  /** The `roundLost` branch of listener `i` (server.js:104-133). */
  function RoundLostBranch(s: State, i: nat, playerTime: int, now: int): (r: State)
    requires Wired(s) && i < |s.handlers|
    ensures Keeps(s, r, i)
    ensures s.conns[s.handlers[i].player].roundLost ==> r == s
    ensures var h := s.handlers[i];
      var d := Scoring.RoundLostDamage(playerTime, now - s.conns[h.peer].startTime.value);
      !s.conns[h.player].roundLost ==> r == ScoreRoundLost(s, i, d, now)
  {
    var h := s.handlers[i];
    var opponentTime := now - s.conns[h.peer].startTime.value;
    var damage := Scoring.RoundLostDamage(playerTime, opponentTime);
    if !s.conns[h.player].roundLost then ScoreRoundLost(s, i, damage, now) else s
  }

  /** The guarded body of the `roundLost` branch (server.js:115-131): the
      flag is set, the damage is sent to both players, the round advances,
      `resetRoundState` runs, then the board grows and `nextRound` is sent. */
  function ScoreRoundLost(s: State, i: nat, damage: int, now: int): (r: State)
    requires Wired(s) && i < |s.handlers|
    ensures Keeps(s, r, i)
    ensures var h := s.handlers[i];
      r.outbox == s.outbox + [Envelope(h.player, ApplyDamage(damage)), Envelope(h.peer, WonRound(damage)),
                              Envelope(h.player, NextRound(h.boardSize + 1, h.round + 1)),
                              Envelope(h.peer, NextRound(h.boardSize + 1, h.round + 1))]
  {
    var h := s.handlers[i];
    var player, opponent := h.player, h.peer;
    var s1 := s.(conns := s.conns[player := s.conns[player].(roundLost := true)]);
    var s2 := s1.(outbox := s1.outbox + [Envelope(player, ApplyDamage(damage)),
                                         Envelope(opponent, WonRound(damage))]);
    var h1 := h.(round := h.round + 1);
    var s3 := ResetRoundState(s2.(handlers := s2.handlers[i := h1]), player, opponent, now);
    var h2 := h1.(boardSize := h1.boardSize + 1);
    var s4 := s3.(handlers := s3.handlers[i := h2]);
    s4.(outbox := s4.outbox + [Envelope(player, NextRound(h2.boardSize, h2.round)),
                               Envelope(opponent, NextRound(h2.boardSize, h2.round))])
  }

  /** What a listener run keeps: well-formedness, validity, the slot, the
      open sockets, every other listener, and this listener's two ends. */
  predicate Keeps(s: State, r: State, i: nat)
    requires i < |s.handlers|
  {
    Wired(r) && (Valid(s) ==> Valid(r)) &&
    r.waiting == s.waiting && r.open == s.open && r.conns.Keys == s.conns.Keys &&
    |r.handlers| == |s.handlers| &&
    (forall j :: 0 <= j < |s.handlers| && j != i ==> r.handlers[j] == s.handlers[j]) &&
    r.handlers[i].player == s.handlers[i].player && r.handlers[i].peer == s.handlers[i].peer
  }

  /** Every pair listener of `c` installed at index `i` or later, run in
      installation order on one message, as the socket's event emitter does. */
  function Dispatch(s: State, c: ConnId, m: Inbound, now: int, i: nat): (r: State)
    requires Wired(s) && i <= |s.handlers|
    ensures Wired(r) && (Valid(s) ==> Valid(r))
    ensures r.waiting == s.waiting && r.open == s.open && r.conns.Keys == s.conns.Keys
    ensures |r.handlers| == |s.handlers|
    ensures forall j :: 0 <= j < |s.handlers| ==>
      r.handlers[j].player == s.handlers[j].player && r.handlers[j].peer == s.handlers[j].peer
    ensures forall j :: 0 <= j < |s.handlers| && (j < i || s.handlers[j].player != c) ==>
      r.handlers[j] == s.handlers[j]
    decreases |s.handlers| - i
  {
    if i == |s.handlers| then s
    else
      var next := if s.handlers[i].player == c then RunHandler(s, i, m, now) else s;
      Dispatch(next, c, m, now, i + 1)
  }

  /** One step of `Dispatch`. */
  lemma DispatchStep(s: State, c: ConnId, m: Inbound, now: int, i: nat)
    requires Wired(s) && i < |s.handlers|
    ensures Dispatch(s, c, m, now, i)
         == Dispatch(if s.handlers[i].player == c then RunHandler(s, i, m, now) else s, c, m, now, i + 1)
  {
  }

  /** A message from open connection `c`: the connection listener handles
      `joinQueue`; the pair listeners have no branch for it and handle the
      rest. Listeners of other connections are never touched. */
  function Deliver(s: State, c: ConnId, m: Inbound, now: int): (r: State)
    requires Wired(s) && c in s.open
    ensures Wired(r) && (Valid(s) ==> Valid(r))
    ensures r.open == s.open && r.conns.Keys == s.conns.Keys
    ensures |r.handlers| >= |s.handlers|
    ensures forall j :: 0 <= j < |s.handlers| && s.handlers[j].player != c ==>
      r.handlers[j] == s.handlers[j]
  {
    if m.JoinQueue? then JoinOrMatch(s, c, now) else Dispatch(s, c, m, now, 0)
  }
}
