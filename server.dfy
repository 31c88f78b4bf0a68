/** The server of server.js as it runs: mutable state updated in place by
    one method per callback. Each method is proved to perform exactly the
    transition Machine gives for that callback, so every property proved in
    Properties holds of the running server. */
module Server {
  import opened Protocol
  import Machine
  import Scoring

  class GameServer {
    /** `waitingPlayer` (server.js:29). */
    var waiting: Option<ConnId>
    /** The per-connection closure variable and socket properties. */
    var conns: map<ConnId, Machine.Conn>
    /** Sockets not yet closed. */
    var open: set<ConnId>
    /** The pair listeners, in the order `setupPlayerCommunication` installed them. */
    var handlers: seq<Machine.Handler>
    /** Every `send` so far, in order. */
    var outbox: seq<Envelope>

    function State(): Machine.State
      reads this
    {
      Machine.State(waiting, conns, open, handlers, outbox)
    }

    ghost predicate Valid()
      reads this
    {
      Machine.Valid(State())
    }

    constructor ()
      ensures State() == Machine.Init() && Valid()
    {
      waiting, conns, open, handlers, outbox := None, map[], {}, [], [];
    }

    /** A socket connects (server.js:31-35). */
    method OnConnection(c: ConnId)
      requires Valid() && c !in conns
      modifies this
      ensures State() == Machine.Connect(old(State()), c) && Valid()
    {
      conns := conns[c := Machine.Conn(None, None, false, None)];
      open := open + {c};
    }

    /** A message arrives on open socket `c` at time `now`: the connection
        listener runs, then each pair listener of `c` in installation order. */
    method OnMessage(c: ConnId, m: Inbound, now: int)
      requires Valid() && c in open
      modifies this
      ensures State() == Machine.Deliver(old(State()), c, m, now) && Valid()
    {
      if m.JoinQueue? {
        JoinOrMatch(c, now);
      } else {
        RunListeners(c, m, now);
      }
    }

    /** Each pair listener of `c`, in installation order, on message `m`. */
    method RunListeners(c: ConnId, m: Inbound, now: int)
      requires Machine.Wired(State())
      modifies this
      ensures State() == Machine.Dispatch(old(State()), c, m, now, 0)
    {
      var i := 0;
      while i < |handlers|
        invariant i <= |handlers| == |old(handlers)|
        invariant Machine.Wired(State())
        invariant Machine.Dispatch(State(), c, m, now, i) == Machine.Dispatch(old(State()), c, m, now, 0)
      {
        Machine.DispatchStep(State(), c, m, now, i);
        if handlers[i].player == c {
          PairListener(i, m, now);
        }
        i := i + 1;
      }
    }

    /** The socket of `c` closes (server.js:68-75). Only well-formedness is
        required, so that the branch on the closure `opponent` is kept; in a
        valid state that variable is unset and the branch is never taken. */
    method OnClose(c: ConnId)
      requires Machine.Wired(State()) && c in open
      modifies this
      ensures State() == Machine.Close(old(State()), c)
      ensures old(Valid()) ==> Valid()
    {
      if waiting == Some(c) {
        waiting := None;
      }
      match conns[c].closureOpponent {
        case Some(o) => Send(o, OpponentLeft);
        case None =>
      }
      open := open - {c};
    }

    /** The `joinQueue` branch (server.js:40-65). */
    method JoinOrMatch(c: ConnId, now: int)
      requires Machine.Wired(State()) && c in open
      modifies this
      ensures State() == Machine.JoinOrMatch(old(State()), c, now)
    {
      match waiting
      case Some(w) =>
        var player1, player2 := w, c;
        Send(player1, MatchFound(true, Machine.InitialBoardSize, Machine.InitialRound));
        Send(player2, MatchFound(false, Machine.InitialBoardSize, Machine.InitialRound));
        conns := conns[player1 := conns[player1].(opponent := Some(player2))];
        conns := conns[player2 := conns[player2].(opponent := Some(player1))];
        conns := conns[player1 := conns[player1].(startTime := Some(now))];
        conns := conns[player2 := conns[player2].(startTime := Some(now))];
        waiting := None;
        handlers := handlers + [Machine.Handler(player1, player2, Machine.InitialBoardSize, Machine.InitialRound)];
        handlers := handlers + [Machine.Handler(player2, player1, Machine.InitialBoardSize, Machine.InitialRound)];
      case None =>
        waiting := Some(c);
    }

    /** Pair listener `i` handling one message (server.js:79-134). */
    method PairListener(i: nat, m: Inbound, now: int)
      requires Machine.Wired(State()) && i < |handlers|
      modifies this
      ensures State() == Machine.RunHandler(old(State()), i, m, now)
    {
      match m
      case Move(raw) => Send(handlers[i].peer, MoveRelay(raw));
      case BoardCleared => BoardClearedBranch(i, now);
      case RoundLost(playerTime) => RoundLostBranch(i, playerTime, now);
      case JoinQueue =>
      case Unknown(_) =>
    }

    /** The `boardCleared` branch (server.js:88-101). */
    method BoardClearedBranch(i: nat, now: int)
      requires Machine.Wired(State()) && i < |handlers|
      modifies this
      ensures State() == Machine.BoardClearedBranch(old(State()), i, now)
    {
      var player, opponent := handlers[i].player, handlers[i].peer;
      var boardSize, round := handlers[i].boardSize, handlers[i].round;
      var damage := Scoring.BoardClearedDamage;
      Send(opponent, LostRound(damage));
      Send(player, WonRound(damage));
      round := round + 1;
      boardSize := boardSize + 1;
      handlers := handlers[i := Machine.Handler(player, opponent, boardSize, round)];
      ResetRoundState(player, opponent, now);
      Send(player, NextRound(boardSize, round));
      Send(opponent, NextRound(boardSize, round));
    }

    /** The `roundLost` branch (server.js:104-133). */
    method RoundLostBranch(i: nat, playerTime: int, now: int)
      requires Machine.Wired(State()) && i < |handlers|
      modifies this
      ensures State() == Machine.RoundLostBranch(old(State()), i, playerTime, now)
    {
      var player, opponent := handlers[i].player, handlers[i].peer;
      var opponentTime := now - conns[opponent].startTime.value;
      var damage := Scoring.RoundLostDamage(playerTime, opponentTime);
      if !conns[player].roundLost {
        ScoreRoundLost(i, damage, now);
      }
    }

    /** The guarded body of the `roundLost` branch (server.js:115-131). */
    method ScoreRoundLost(i: nat, damage: int, now: int)
      requires Machine.Wired(State()) && i < |handlers|
      modifies this
      ensures State() == Machine.ScoreRoundLost(old(State()), i, damage, now)
    {
      var player, opponent := handlers[i].player, handlers[i].peer;
      var boardSize, round := handlers[i].boardSize, handlers[i].round;
      conns := conns[player := conns[player].(roundLost := true)];
      Send(player, ApplyDamage(damage));
      Send(opponent, WonRound(damage));
      round := round + 1;
      handlers := handlers[i := Machine.Handler(player, opponent, boardSize, round)];
      ResetRoundState(player, opponent, now);
      boardSize := boardSize + 1;
      handlers := handlers[i := Machine.Handler(player, opponent, boardSize, round)];
      Send(player, NextRound(boardSize, round));
      Send(opponent, NextRound(boardSize, round));
    }

    /** `resetRoundState(player, opponent)` (server.js:138-143). */
    method ResetRoundState(player: ConnId, opponent: ConnId, now: int)
      requires player in conns && opponent in conns
      modifies this
      ensures State() == Machine.ResetRoundState(old(State()), player, opponent, now)
    {
      conns := conns[player := conns[player].(roundLost := false)];
      conns := conns[opponent := conns[opponent].(roundLost := false)];
      conns := conns[player := conns[player].(startTime := Some(now))];
      conns := conns[opponent := conns[opponent].(startTime := Some(now))];
    }

    /** One `send`: appended to the outbox, nothing else changes. */
    method Send(to: ConnId, msg: Outbound)
      modifies this
      ensures outbox == old(outbox) + [Envelope(to, msg)]
      ensures waiting == old(waiting) && conns == old(conns) && open == old(open)
      ensures handlers == old(handlers)
    {
      outbox := outbox + [Envelope(to, msg)];
    }
  }
}
