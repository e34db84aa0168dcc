/** The matchmaking server's shared state and the operations that change it:
    `register_player`, `try_matchmaking`, the handler's dispatch of one
    message, its `finally` cleanup, and a whole connection's session. */
module Server {
  import opened Json
  import opened Protocol
  import opened Pairing
  import opened Cleanup

  /** One text frame received on a connection: what `json.loads` made of it,
      or a frame it rejects. */
  datatype Frame = Decoded(value: Json) | Undecodable

  class Matchmaker {
    /** `waiting_players`, oldest first. */
    var waiting: seq<Player>
    /** Every `send` attempted, in order, with its outcome. */
    var sent: seq<Send>
    /** The next match id; stands for a fresh `uuid4`. */
    var nextId: nat

    /** Between operations fewer than two players wait. */
    ghost predicate Valid()
      reads this
    {
      |waiting| < 2
    }

    /** The server at start-up: nobody waiting, nothing sent. */
    constructor ()
      ensures Valid()
      ensures waiting == [] && sent == [] && nextId == 0
    {
      waiting, sent, nextId := [], [], 0;
    }

    /** `try_matchmaking`: while two or more players wait, pop the two oldest
        and notify both. Send number `n` is delivered exactly when
        `outcome(n)` holds; a failed send is only recorded, so the list left
        waiting, the matches and the ids do not depend on `outcome`, and the
        second notice of a match is attempted even when the first fails. */
    method TryMatchmaking(outcome: nat -> bool)
      modifies this`waiting, this`sent, this`nextId
      ensures Valid()
      ensures waiting == Leftover(old(waiting))
      ensures old(nextId) <= nextId && 2 * (nextId - old(nextId)) + |waiting| == |old(waiting)|
      ensures sent == old(sent) + Attempts(NoticesFor(Pairs(old(waiting)), old(nextId)), |old(sent)|, outcome)
    {
      ghost var total := sent + Attempts(NoticesFor(Pairs(waiting), nextId), |sent|, outcome);
      while |waiting| >= 2
        invariant Leftover(waiting) == Leftover(old(waiting))
        invariant old(nextId) <= nextId && 2 * (nextId - old(nextId)) + |waiting| == |old(waiting)|
        invariant sent + Attempts(NoticesFor(Pairs(waiting), nextId), |sent|, outcome) == total
        decreases |waiting|
      {
        PairOldest(outcome);
      }
      assert Pairs(waiting) == [];
    }

    /** One pass of the matchmaking loop: pop the two oldest players, take a
        fresh match id and attempt the two notices, the earlier-queued
        player's first. */
    method PairOldest(outcome: nat -> bool)
      requires |waiting| >= 2
      modifies this`waiting, this`sent, this`nextId
      ensures waiting == old(waiting)[2..]
      ensures nextId == old(nextId) + 1
      ensures sent == old(sent) + Attempts(PairNotices(old(waiting)[0], old(waiting)[1], old(nextId)), |old(sent)|, outcome)
      ensures Leftover(waiting) == Leftover(old(waiting))
      ensures sent + Attempts(NoticesFor(Pairs(waiting), nextId), |sent|, outcome)
           == old(sent) + Attempts(NoticesFor(Pairs(old(waiting)), old(nextId)), |old(sent)|, outcome)
    {
      var player1 := waiting[0];
      waiting := waiting[1..];
      var player2 := waiting[0];
      waiting := waiting[1..];
      var matchId := nextId;
      nextId := nextId + 1;

      var notice1 := MatchNotice(player1, player2, matchId, 1);
      sent := sent + [Send(notice1, outcome(|sent|))];
      var notice2 := MatchNotice(player2, player1, matchId, 2);
      sent := sent + [Send(notice2, outcome(|sent|))];

      ghost var pair := PairNotices(player1, player2, matchId);
      AttemptAt(pair, |old(sent)|, outcome, 0);
      AttemptAt(pair, |old(sent)|, outcome, 1);
      assert waiting == old(waiting)[2..];
      SendStep(old(waiting), matchId, old(sent), outcome);
    }

    /** `register_player`: append one record at the tail, then drain. */
    method RegisterPlayer(conn: ConnId, playerId: Json, game: Json, ip: Json, port: Json, outcome: nat -> bool)
      modifies this
      ensures Valid()
      ensures var q := old(waiting) + [Player(playerId, game, ip, port, conn)];
        && waiting == Leftover(q)
        && old(nextId) <= nextId && 2 * (nextId - old(nextId)) + |waiting| == |q|
        && sent == old(sent) + Attempts(NoticesFor(Pairs(q), old(nextId)), |old(sent)|, outcome)
    {
      var player := Player(playerId, game, ip, port, conn);
      waiting := waiting + [player];
      TryMatchmaking(outcome);
    }

    /** The body of the handler's message loop for one decoded object: a
        complete registration is passed to `register_player`; an incomplete
        one or any other action changes nothing. */
    method Handle(conn: ConnId, msg: map<string, Json>, outcome: nat -> bool)
      modifies this
      ensures old(Valid()) ==> Valid()
      ensures match Classify(msg)
        case Enroll(playerId, game, ip, port) =>
          var q := old(waiting) + [Player(playerId, game, ip, port, conn)];
          && waiting == Leftover(q)
          && old(nextId) <= nextId && 2 * (nextId - old(nextId)) + |waiting| == |q|
          && sent == old(sent) + Attempts(NoticesFor(Pairs(q), old(nextId)), |old(sent)|, outcome)
        case _ => waiting == old(waiting) && sent == old(sent) && nextId == old(nextId)
    {
      match Classify(msg)
      case Enroll(playerId, game, ip, port) =>
        RegisterPlayer(conn, playerId, game, ip, port, outcome);
      case Incomplete =>
      case Unknown(_) =>
    }

    /** The handler's `finally` block: drop every record of `conn`, keep the
        rest in order; nothing is sent. */
    method Disconnect(conn: ConnId)
      modifies this`waiting
      ensures waiting == Without(old(waiting), conn)
      ensures forall p | p in waiting :: p.conn != conn
      ensures old(Valid()) ==> Valid()
    {
      waiting := Without(waiting, conn);
    }

    /** `handler` for one connection on its own: handle frames in order until
        the connection closes or a frame is not a JSON object (the exception
        leaves the loop), then clean up. Afterwards nothing of `conn` waits,
        and what waits is a trailing part of the other connections' records
        that waited before, in their order; every match id the session took
        accounts for exactly two sends. */
    method Serve(conn: ConnId, frames: seq<Frame>, outcome: nat -> bool)
      modifies this
      ensures old(Valid()) ==> Valid()
      ensures forall p | p in waiting :: p.conn != conn
      ensures IsSuffix(waiting, Without(old(waiting), conn))
      ensures old(sent) <= sent && old(nextId) <= nextId
      ensures |sent| - |old(sent)| == 2 * (nextId - old(nextId))
    {
      ghost var own: seq<Player> := [];
      ghost var j: nat := 0;
      var i := 0;
      while i < |frames|
        invariant i <= |frames|
        invariant forall p | p in own :: p.conn == conn
        invariant j <= |old(waiting) + own| && waiting == (old(waiting) + own)[j..]
        invariant old(sent) <= sent && old(nextId) <= nextId
        invariant |sent| - |old(sent)| == 2 * (nextId - old(nextId))
        invariant old(Valid()) ==> Valid()
      {
        match frames[i] {
          case Decoded(JObject(msg)) =>
            ghost var before := waiting;
            Handle(conn, msg, outcome);
            var command := Classify(msg);
            if command.Enroll? {
              var player := Player(command.playerId, command.game, command.ip, command.port, conn);
              DrainKeepsSuffix(old(waiting), own, j, player);
              j := j + |before| + 1 - |waiting|;
              own := own + [player];
            }
          case _ =>
            break;
        }
        i := i + 1;
      }
      Disconnect(conn);
      SessionCleanup(old(waiting), own, j, conn);
    }
  }

  /** Sending the notices of the two oldest players moves one match from
      what remains to be sent to what has been sent. */
  lemma SendStep(before: seq<Player>, matchId: nat, sent: seq<Send>, outcome: nat -> bool)
    requires |before| >= 2
    ensures
      var pair := PairNotices(before[0], before[1], matchId);
      var rest := NoticesFor(Pairs(before[2..]), matchId + 1);
      && Leftover(before[2..]) == Leftover(before)
      && sent + Attempts(NoticesFor(Pairs(before), matchId), |sent|, outcome)
         == (sent + Attempts(pair, |sent|, outcome)) + Attempts(rest, |sent| + 2, outcome)
  {
    var pair := PairNotices(before[0], before[1], matchId);
    var rest := NoticesFor(Pairs(before[2..]), matchId + 1);
    assert Pairs(before)[1..] == Pairs(before[2..]);
    assert NoticesFor(Pairs(before), matchId) == pair + rest;
    AttemptsAppend(pair, rest, |sent|, outcome);
  }
}
