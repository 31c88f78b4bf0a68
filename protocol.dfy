/** Identities and messages exchanged between the game server and its clients.
    Messages arrive already decoded: the JSON text of the wire protocol is
    replaced by one constructor per `type` value. */
module Protocol {

  datatype Option<+T> = None | Some(value: T)

  /** A live transport channel. The server keeps no identifier of its own:
      the socket object is the identity, so any distinct number will do. */
  type ConnId = nat

  /** Client-to-server messages, keyed by their `type` field. */
  datatype Inbound =
    | JoinQueue                  // {type:"joinQueue"}
    | Move(raw: string)          // {type:"move", ...}; `raw` is the whole frame, relayed verbatim
    | BoardCleared               // {type:"boardCleared"}
    | RoundLost(time: int)       // {type:"roundLost", time}; elapsed milliseconds, as the client reports them
    | Unknown(tag: string)       // any other `type`: no listener has a branch for it

  /** Server-to-client messages. */
  datatype Outbound =
    | MatchFound(isPlayer1: bool, boardSize: int, round: int)
    | MoveRelay(raw: string)     // the sender's `move` frame, unchanged
    | LostRound(damage: int)     // {type:"roundLost", damage}
    | WonRound(damage: int)      // {type:"roundWon", damage}
    | ApplyDamage(damage: int)
    | NextRound(boardSize: int, round: int)
    | OpponentLeft

  /** One call of `send`: the recipient and the message. */
  datatype Envelope = Envelope(to: ConnId, msg: Outbound)
}
