/** The records the server keeps and sends: a waiting player, a
    `match_found` notice, and the dispatch of one decoded client message. */
module Protocol {
  import opened Json

  /** Identity of a client's websocket; only compared and sent to. */
  type ConnId = nat

  /** One entry of `waiting_players`: the client-supplied fields, stored as
      received, and the connection that registered it. */
  datatype Player = Player(playerId: Json, game: Json, ip: Json, port: Json, conn: ConnId)

  /** A `match_found` message addressed to connection `to`: the match id, the
      recipient's own game, the opponent's address and the recipient's role
      (1 or 2). The constant `"action": "match_found"` is implicit. */
  datatype Notice = Notice(to: ConnId, matchId: nat, game: Json, ip: Json, port: Json, role: int)

  /** The notice one side of a match receives about its peer. */
  function MatchNotice(recipient: Player, peer: Player, matchId: nat, role: int): Notice {
    Notice(recipient.conn, matchId, recipient.game, peer.ip, peer.port, role)
  }

  /** The two notices of one match, in the order they are sent: first to the
      earlier-queued player, then to the later one. Notice `i` goes to side `i`,
      carries side `i`'s own game and the OTHER side's ip and port; both carry
      the same match id and the two roles are 1 and 2. */
  function PairNotices(first: Player, second: Player, matchId: nat): (r: seq<Notice>)
    ensures |r| == 2
    ensures forall i | 0 <= i < 2 ::
      var me := [first, second][i];
      var peer := [first, second][1 - i];
      && r[i].to == me.conn
      && r[i].game == me.game
      && r[i].ip == peer.ip && r[i].port == peer.port
      && r[i].matchId == matchId
      && r[i].role == i + 1
    ensures r[0].matchId == r[1].matchId && r[0].role + r[1].role == 3
  {
    [MatchNotice(first, second, matchId, 1), MatchNotice(second, first, matchId, 2)]
  }

  /** What the handler does with one decoded message. */
  datatype Command =
    | Enroll(playerId: Json, game: Json, ip: Json, port: Json)  // register_player is called
    | Incomplete                                              // "register" with a missing or falsy field: logged
    | Unknown(action: Json)                                   // any other action: logged

  /** The handler's dispatch: a registration is accepted exactly when the
      action is the string "register" and `player_id`, `game`, `ip` and `port`
      are all truthy; the accepted fields are passed on unchanged. */
  function Classify(msg: map<string, Json>): (c: Command)
    ensures c.Unknown? <==> Get(msg, "action") != JStr("register")
    ensures c.Unknown? ==> c.action == Get(msg, "action")
    ensures c.Enroll? <==>
      && Get(msg, "action") == JStr("register")
      && Truthy(Get(msg, "player_id")) && Truthy(Get(msg, "game"))
      && Truthy(Get(msg, "ip")) && Truthy(Get(msg, "port"))
    ensures c.Enroll? ==>
      && c.playerId == Get(msg, "player_id") && c.game == Get(msg, "game")
      && c.ip == Get(msg, "ip") && c.port == Get(msg, "port")
  {
    var action := Get(msg, "action");
    if action == JStr("register") then
      var playerId, game := Get(msg, "player_id"), Get(msg, "game");
      var ip, port := Get(msg, "ip"), Get(msg, "port");
      if Truthy(playerId) && Truthy(game) && Truthy(ip) && Truthy(port) then
        Enroll(playerId, game, ip, port)
      else
        Incomplete
    else
      Unknown(action)
  }

  /** A registration missing any of the four fields is never accepted. */
  lemma MissingFieldRejected(msg: map<string, Json>, key: string)
    requires key in {"player_id", "game", "ip", "port"}
    requires key !in msg
    ensures !Classify(msg).Enroll?
  {
  }
}
