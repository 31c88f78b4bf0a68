/** What the server promises, and the quirks it has, stated over the
    transition functions of Machine. */
module Properties {
  import opened Protocol
  import opened Machine
  import Scoring

  /** Listener `k` is the only pair listener of connection `c`: the case of a
      connection matched once with someone else. */
  predicate SoleHandler(s: State, c: ConnId, k: nat)
  {
    k < |s.handlers| && s.handlers[k].player == c &&
    forall j :: 0 <= j < |s.handlers| && j != k ==> s.handlers[j].player != c
  }

  // ---------------------------------------------------------------- queue

  /** `joinQueue` with nobody waiting parks the caller and sends nothing
      (server.js:62-64). */
  lemma JoinQueueParks(s: State, c: ConnId, now: int)
    requires Wired(s) && c in s.open && s.waiting.None?
    ensures JoinOrMatch(s, c, now) == s.(waiting := Some(c))
  {
  }

  /** `joinQueue` with someone waiting pairs the two (server.js:41-61): the
      waiting one is player 1, both learn the initial board size and round,
      each becomes the other's opponent, both start the round now, the slot
      empties and one listener per direction is installed. */
  lemma JoinQueuePairs(s: State, c: ConnId, now: int)
    requires Wired(s) && c in s.open && s.waiting.Some?
    ensures var w := s.waiting.value; var r := JoinOrMatch(s, c, now);
      r.waiting.None? &&
      r.outbox == s.outbox + [Envelope(w, MatchFound(true, 5, 1)), Envelope(c, MatchFound(false, 5, 1))] &&
      r.conns[w].opponent == Some(c) && r.conns[c].opponent == Some(w) &&
      r.conns[w].startTime == Some(now) && r.conns[c].startTime == Some(now) &&
      r.handlers == s.handlers + [Handler(w, c, 5, 1), Handler(c, w, 5, 1)] &&
      r.open == s.open &&
      forall x :: x in s.conns && x != w && x != c ==> r.conns[x] == s.conns[x]
  {
  }

  /** Nothing stops the waiting connection from being paired with itself
      (server.js:41): it gets both `matchFound` messages, becomes its own
      opponent and receives two listeners that relay to itself. */
  lemma SelfMatch(s: State, c: ConnId, now: int)
    requires Wired(s) && s.waiting == Some(c)
    ensures var r := JoinOrMatch(s, c, now);
      r.waiting.None? &&
      r.outbox == s.outbox + [Envelope(c, MatchFound(true, 5, 1)), Envelope(c, MatchFound(false, 5, 1))] &&
      r.conns[c].opponent == Some(c) &&
      r.handlers == s.handlers + [Handler(c, c, 5, 1), Handler(c, c, 5, 1)]
  {
    JoinQueuePairs(s, c, now);
  }

  /** Closing a connection frees the slot only if that connection holds it,
      and sends nothing: the close handler tests the closure variable
      `opponent`, which nothing assigns, so `opponentLeft` is never sent
      (server.js:68-75). */
  lemma CloseOnlyFreesSlot(s: State, c: ConnId)
    requires Valid(s) && c in s.open
    ensures Close(s, c) == s.(waiting := if s.waiting == Some(c) then None else s.waiting,
                              open := s.open - {c})
    ensures Close(s, c).outbox == s.outbox
  {
  }

  // ---------------------------------------------------------------- dispatch

  /** Dispatch skips every listener that belongs to someone else. */
  lemma {:induction false} DispatchSkips(s: State, c: ConnId, m: Inbound, now: int, i: nat)
    requires Wired(s) && i <= |s.handlers|
    requires forall j :: i <= j < |s.handlers| ==> s.handlers[j].player != c
    ensures Dispatch(s, c, m, now, i) == s
    decreases |s.handlers| - i
  {
    if i < |s.handlers| {
      DispatchSkips(s, c, m, now, i + 1);
    }
  }

  lemma {:induction false} DispatchSole(s: State, c: ConnId, m: Inbound, now: int, i: nat, k: nat)
    requires Wired(s) && i <= k && SoleHandler(s, c, k)
    ensures Dispatch(s, c, m, now, i) == RunHandler(s, k, m, now)
    decreases k - i
  {
    if i < k {
      DispatchSole(s, c, m, now, i + 1, k);
    } else {
      DispatchSkips(RunHandler(s, k, m, now), c, m, now, k + 1);
    }
  }

  /** A connection with one pair listener has each message handled exactly
      once, by that listener. */
  lemma DeliverSole(s: State, c: ConnId, k: nat, m: Inbound, now: int)
    requires Wired(s) && c in s.open && SoleHandler(s, c, k) && !m.JoinQueue?
    ensures Deliver(s, c, m, now) == RunHandler(s, k, m, now)
  {
    DispatchSole(s, c, m, now, 0, k);
  }

  // ---------------------------------------------------------------- move

  /** The relays a `move` with frame `raw` from `c` produces: one per pair
      listener of `c`, to that listener's peer, in installation order. */
  function Relays(hs: seq<Handler>, c: ConnId, raw: string): (r: seq<Envelope>)
    ensures |r| <= |hs|
    ensures forall k :: 0 <= k < |r| ==> r[k].msg == MoveRelay(raw)
  {
    if hs == [] then []
    else (if hs[0].player == c then [Envelope(hs[0].peer, MoveRelay(raw))] else [])
         + Relays(hs[1..], c, raw)
  }

  /** The first listener of a suffix contributes its relay, if any, ahead of the rest. */
  lemma RelaysStep(hs: seq<Handler>, c: ConnId, raw: string, i: nat)
    requires i < |hs|
    ensures Relays(hs[i..], c, raw) == Relays([hs[i]], c, raw) + Relays(hs[i + 1..], c, raw)
  {
    assert hs[i..][1..] == hs[i + 1..];
  }

  /** One listener on a `move`: only the relay it produces is appended. */
  lemma MoveStep(s: State, c: ConnId, raw: string, now: int, i: nat)
    requires Wired(s) && i < |s.handlers|
    ensures (if s.handlers[i].player == c then RunHandler(s, i, Move(raw), now) else s)
         == s.(outbox := s.outbox + Relays([s.handlers[i]], c, raw))
  {
  }

  lemma {:induction false} DispatchMove(s: State, c: ConnId, raw: string, now: int, i: nat)
    requires Wired(s) && i <= |s.handlers|
    ensures Dispatch(s, c, Move(raw), now, i) == s.(outbox := s.outbox + Relays(s.handlers[i..], c, raw))
    decreases |s.handlers| - i
  {
    if i == |s.handlers| {
      assert s.outbox + Relays(s.handlers[i..], c, raw) == s.outbox;
    } else {
      DispatchStep(s, c, Move(raw), now, i);
      var next := if s.handlers[i].player == c then RunHandler(s, i, Move(raw), now) else s;
      MoveStep(s, c, raw, now, i);
      RelaysStep(s.handlers, c, raw, i);
      DispatchMove(next, c, raw, now, i + 1);
    }
  }

  /** A `move` is relayed verbatim to the peers of the sender's listeners and
      changes nothing else: no counter, flag, start time or slot
      (server.js:83-85). */
  lemma DeliverMove(s: State, c: ConnId, raw: string, now: int)
    requires Wired(s) && c in s.open
    ensures Deliver(s, c, Move(raw), now) == s.(outbox := s.outbox + Relays(s.handlers, c, raw))
  {
    DispatchMove(s, c, raw, now, 0);
    assert s.handlers[0..] == s.handlers;
  }

  /** With one listener, the frame goes to exactly one recipient: the peer. */
  lemma MoveToPeerOnly(s: State, c: ConnId, k: nat, raw: string, now: int)
    requires Wired(s) && c in s.open && SoleHandler(s, c, k)
    ensures Deliver(s, c, Move(raw), now)
         == s.(outbox := s.outbox + [Envelope(s.handlers[k].peer, MoveRelay(raw))])
  {
    DeliverSole(s, c, k, Move(raw), now);
  }

  // ---------------------------------------------------------------- rounds

  /** The state after listener `k` started the next round at `now`: its
      two counters are one higher, both players' flags are clear and their
      start times are `now`, and nothing else but the messages has changed. */
  predicate NextRoundFrom(s: State, r: State, k: nat, now: int)
    requires k < |s.handlers|
  {
    var h := s.handlers[k];
    var c, o := h.player, h.peer;
    r.handlers == s.handlers[k := Handler(c, o, h.boardSize + 1, h.round + 1)] &&
    r.conns.Keys == s.conns.Keys && c in r.conns && o in r.conns &&
    !r.conns[c].roundLost && !r.conns[o].roundLost &&
    r.conns[c].startTime == Some(now) && r.conns[o].startTime == Some(now) &&
    (forall x :: x in s.conns && x != c && x != o ==> r.conns[x] == s.conns[x]) &&
    r.waiting == s.waiting && r.open == s.open && Valid(r)
  }

  lemma BoardClearedEffect(s: State, k: nat, now: int)
    requires Valid(s) && k < |s.handlers|
    ensures var h := s.handlers[k]; var r := BoardClearedBranch(s, k, now);
      r.outbox == s.outbox + [Envelope(h.peer, LostRound(15)), Envelope(h.player, WonRound(15)),
                              Envelope(h.player, NextRound(h.boardSize + 1, h.round + 1)),
                              Envelope(h.peer, NextRound(h.boardSize + 1, h.round + 1))] &&
      NextRoundFrom(s, r, k, now)
  {
  }

  lemma RoundLostEffect(s: State, k: nat, time: int, now: int)
    requires Valid(s) && k < |s.handlers|
    ensures var h := s.handlers[k]; var r := RoundLostBranch(s, k, time, now);
      var d := Scoring.RoundLostDamage(time, now - s.conns[h.peer].startTime.value);
      r.outbox == s.outbox + [Envelope(h.player, ApplyDamage(d)), Envelope(h.peer, WonRound(d)),
                              Envelope(h.player, NextRound(h.boardSize + 1, h.round + 1)),
                              Envelope(h.peer, NextRound(h.boardSize + 1, h.round + 1))] &&
      NextRoundFrom(s, r, k, now)
  {
  }

  /** `boardCleared` from `c` (server.js:88-101, 138-143): the peer loses 15,
      `c` wins 15, the sender's listener advances both counters by one, both
      flags are cleared and both start times restamped, and both players get
      the same `nextRound`. */
  lemma BoardClearedRound(s: State, c: ConnId, k: nat, now: int)
    requires Valid(s) && c in s.open && SoleHandler(s, c, k)
    ensures var h := s.handlers[k]; var o := h.peer; var r := Deliver(s, c, BoardCleared, now);
      r.outbox == s.outbox + [Envelope(o, LostRound(15)), Envelope(c, WonRound(15)),
                              Envelope(c, NextRound(h.boardSize + 1, h.round + 1)),
                              Envelope(o, NextRound(h.boardSize + 1, h.round + 1))] &&
      NextRoundFrom(s, r, k, now)
  {
    DeliverSole(s, c, k, BoardCleared, now);
    BoardClearedEffect(s, k, now);
  }

  /** `roundLost` from `c` reporting `time` (server.js:104-132, 138-143): the
      damage is computed from the gap to the time the peer has spent in the
      round; `c` is told to apply it and the peer wins it; the counters
      advance by one and the round restarts exactly as for `boardCleared`.
      The guard never blocks: the flag it sets is cleared again in the same
      callback. */
  lemma RoundLostRound(s: State, c: ConnId, k: nat, time: int, now: int)
    requires Valid(s) && c in s.open && SoleHandler(s, c, k)
    ensures var h := s.handlers[k]; var o := h.peer; var r := Deliver(s, c, RoundLost(time), now);
      var d := Scoring.RoundLostDamage(time, now - s.conns[o].startTime.value);
      d >= 10 &&
      r.outbox == s.outbox + [Envelope(c, ApplyDamage(d)), Envelope(o, WonRound(d)),
                              Envelope(c, NextRound(h.boardSize + 1, h.round + 1)),
                              Envelope(o, NextRound(h.boardSize + 1, h.round + 1))] &&
      NextRoundFrom(s, r, k, now)
  {
    DeliverSole(s, c, k, RoundLost(time), now);
    RoundLostEffect(s, k, time, now);
  }

  /** A second `roundLost` right after the first is processed again: two
      `applyDamage` messages, two round advances. */
  lemma RoundLostTwice(s: State, c: ConnId, k: nat, t1: int, now1: int, t2: int, now2: int)
    requires Valid(s) && c in s.open && SoleHandler(s, c, k)
    ensures var r1 := Deliver(s, c, RoundLost(t1), now1);
      var r2 := Deliver(r1, c, RoundLost(t2), now2);
      |r2.outbox| == |s.outbox| + 8 &&
      r2.outbox[|s.outbox|].msg.ApplyDamage? && r2.outbox[|s.outbox| + 4].msg.ApplyDamage? &&
      r2.handlers[k].round == s.handlers[k].round + 2 &&
      r2.handlers[k].boardSize == s.handlers[k].boardSize + 2
  {
    var r1 := Deliver(s, c, RoundLost(t1), now1);
    RoundLostRound(s, c, k, t1, now1);
    assert SoleHandler(r1, c, k);
    RoundLostRound(r1, c, k, t2, now2);
  }

  // ---------------------------------------------------------------- scenario

  /** Two fresh clients `a` and `b` join in turn: `a` waits, then both are
      told of the match, `a` as player 1. */
  lemma TwoPlayersMatch(a: ConnId, b: ConnId, t0: int, t1: int)
    requires a != b
    ensures var s1 := Connect(Connect(Init(), a), b);
      var s2 := Deliver(s1, a, JoinQueue, t0);
      var s3 := Deliver(s2, b, JoinQueue, t1);
      s2.outbox == [] && s2.waiting == Some(a) &&
      s3.outbox == [Envelope(a, MatchFound(true, 5, 1)), Envelope(b, MatchFound(false, 5, 1))] &&
      s3.handlers == [Handler(a, b, 5, 1), Handler(b, a, 5, 1)] &&
      Valid(s3) && a in s3.open && b in s3.open
  {
    var s1 := Connect(Connect(Init(), a), b);
    JoinQueueParks(s1, a, t0);
    JoinQueuePairs(Deliver(s1, a, JoinQueue, t0), b, t1);
  }

  /** After that match, `a` clears its board and then `b` clears its board.
      Each direction keeps its own counters (server.js:60-61, 78), so `b`'s
      win is announced as round 2 on a 6x6 board again, not round 3. */
  lemma CountersPerSender(s: State, a: ConnId, b: ConnId, t2: int, t3: int)
    requires a != b && Valid(s) && a in s.open && b in s.open
    requires s.handlers == [Handler(a, b, 5, 1), Handler(b, a, 5, 1)]
    ensures var s4 := Deliver(s, a, BoardCleared, t2);
      var s5 := Deliver(s4, b, BoardCleared, t3);
      s4.outbox == s.outbox + [Envelope(b, LostRound(15)), Envelope(a, WonRound(15)),
                               Envelope(a, NextRound(6, 2)), Envelope(b, NextRound(6, 2))] &&
      s5.outbox == s4.outbox + [Envelope(a, LostRound(15)), Envelope(b, WonRound(15)),
                                Envelope(b, NextRound(6, 2)), Envelope(a, NextRound(6, 2))]
  {
    var s4 := Deliver(s, a, BoardCleared, t2);
    assert s4.outbox == s.outbox + [Envelope(b, LostRound(15)), Envelope(a, WonRound(15)),
                                    Envelope(a, NextRound(6, 2)), Envelope(b, NextRound(6, 2))]
        && s4.handlers == [Handler(a, b, 6, 2), Handler(b, a, 5, 1)]
        && Valid(s4) && b in s4.open by {
      assert SoleHandler(s, a, 0);
      BoardClearedRound(s, a, 0, t2);
    }
    assert SoleHandler(s4, b, 1);
    BoardClearedRound(s4, b, 1, t3);
  }
}
