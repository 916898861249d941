/** The session coordinator as values: the session record, the inbound and
    outbound messages, and for each callback of the server (connection,
    message, close) the pair (new session, ordered outbound events) it
    produces.  The connection type `C` is left open: the coordinator only
    compares connections for identity. */
module Coordinator {
  import opened Board

  datatype Option<T> = None | Some(value: T)

  /** The session's `state` field: absent until the second join or the first
      close, then "active" or "waiting". */
  datatype Phase = Unset | Active | Waiting

  /** Inbound message types; any other `type` falls through the dispatch switch. */
  datatype ClientMsg = Move(index: int) | Rematch | RematchAccepted | Unrecognized

  /** Outbound message types. The JSON field `player` of `role` and `move` is a mark
      (`mark` here), while `win.player` and `turn.turn` are participant indices. */
  datatype ServerMsg =
    | Role(mark: Symbol)
    | Start(message: string, turn: nat, yourTurn: bool)
    | MoveMade(index: int, mark: Symbol)
    | TurnChanged(turn: nat)
    | Win(player: nat)
    | Tie
    | RematchOffer
    | Reset

  /** What the server does to a connection: send it a message, or close it. */
  datatype Event<C> = Send(to: C, msg: ServerMsg) | Close(to: C)

  /** The session record: `{ players, board, turn, state }`. */
  datatype Game<C> = Game(players: seq<C>, board: seq<Cell>, turn: nat, state: Phase)

  /** Result of a join: the new session, the index given to the connection
      (None when it was refused) and the events. */
  datatype Joined<C> = Joined(game: Game<C>, index: Option<nat>, events: seq<Event<C>>)

  const StartText: string := "Game has started"

  /** The record built when a game is created. */
  function Initial<C>(): (g: Game<C>)
    ensures Inv(g) && IsReset(g)
    ensures g.players == [] && g.state == Unset
  {
    Game([], EmptyBoard(), 0, Unset)
  }

  /** What every reachable session satisfies. */
  ghost predicate Inv<C>(g: Game<C>)
  {
    |g.board| == Size && g.turn < 2 && |g.players| <= 2 &&
    (g.state == Active <==> |g.players| == 2)
  }

  /** The whole board is back to its initial state and player 0 is to move. */
  ghost predicate IsReset<C>(g: Game<C>)
  {
    g.board == EmptyBoard() && g.turn == 0
  }

  /** broadcastGameState: one send of `msg` to each connection in order. */
  function Broadcast<C>(ps: seq<C>, msg: ServerMsg): (r: seq<Event<C>>)
    ensures |r| == |ps|
    ensures forall k :: 0 <= k < |ps| ==> r[k] == Send(ps[k], msg)
  {
    if ps == [] then [] else [Send(ps[0], msg)] + Broadcast(ps[1..], msg)
  }

  /** The connections a collection of events goes to, in order. */
  function Recipients<C>(events: seq<Event<C>>): seq<C>
  {
    seq(|events|, k requires 0 <= k < |events| => events[k].to)
  }

  /** `players.filter(p => p !== ws)`. */
  function Remove<C(==)>(ps: seq<C>, ws: C): (r: seq<C>)
    ensures ws !in r
    ensures ws !in ps ==> r == ps
  {
    if ps == [] then [] else (if ps[0] == ws then [] else [ps[0]]) + Remove(ps[1..], ws)
  }

  /** Filtering drops every occurrence of `ws` and keeps every other element as often as it occurs. */
  lemma {:induction false} RemoveCounts<C>(ps: seq<C>, ws: C)
    ensures multiset(Remove(ps, ws)) == multiset(ps)[ws := 0]
  {
    if ps != [] {
      assert ps == [ps[0]] + ps[1..];
      RemoveCounts(ps[1..], ws);
    }
  }

  /** The `start` messages of the second join: index `k` of the list gets
      `yourTurn` when `k` equals the turn. */
  function StartEvents<C>(ps: seq<C>, turn: nat): (r: seq<Event<C>>)
    ensures Recipients(r) == ps
    ensures forall k :: 0 <= k < |r| ==>
      r[k].Send? && r[k].msg.Start? && r[k].msg.turn == turn && (r[k].msg.yourTurn <==> k == turn)
  {
    seq(|ps|, k requires 0 <= k < |ps| => Send(ps[k], Start(StartText, turn, k == turn)))
  }

  /** The connection handler: admit while fewer than two players are present,
      otherwise close the connection and change nothing. */
  function Join<C>(g: Game<C>, ws: C): (r: Joined<C>)
    ensures r.index.Some? <==> |g.players| < 2
    ensures r.index.Some? ==>
      r.index.value == |g.players| && r.game.players == g.players + [ws] &&
      r.events != [] && r.events[0] == Send(ws, Role(SymbolOf(|g.players|)))
    ensures r.index.None? ==> r.game == g && r.events == [Close(ws)]
    ensures r.game.board == g.board
    ensures |g.players| == 1 ==>
      r.game.state == Active && r.game.turn == 0 && r.events[1..] == StartEvents(r.game.players, 0)
    ensures |g.players| != 1 ==> r.game.state == g.state && r.game.turn == g.turn
  {
    if |g.players| < 2 then
      var index := |g.players|;
      var players := g.players + [ws];
      var role := [Send(ws, Role(SymbolOf(index)))];
      if |players| == 2 then
        Joined(g.(players := players, state := Active, turn := 0), Some(index),
               role + StartEvents(players, 0))
      else
        Joined(g.(players := players), Some(index), role)
    else
      Joined(g, None, [Close(ws)])
  }

  /** The move is accepted: the session is active, the sender holds the turn,
      the index is a cell of the board and that cell is empty. */
  predicate MoveAccepted<C>(g: Game<C>, sender: Option<nat>, index: int)
  {
    g.state == Active && sender == Some(g.turn) && 0 <= index < |g.board| && g.board[index] == Empty
  }

  /** The board right after the mover's mark is written at `index`. */
  function MarkedBoard<C>(g: Game<C>, index: int): seq<Cell>
    requires 0 <= index < |g.board|
  {
    g.board[index := Marked(SymbolOf(g.turn))]
  }

  /** An accepted move: mark, broadcast `move`, then either `win`/`tie` and an
      eager reset, or a turn change and a `turn` broadcast. */
  function PlayMove<C>(g: Game<C>, index: int): (r: (Game<C>, seq<Event<C>>))
    requires |g.board| == Size && 0 <= index < Size
    ensures |r.0.board| == Size && r.0.turn < 2
    ensures r.0.players == g.players && r.0.state == g.state
    ensures |r.1| == 2 * |g.players|
    ensures r.1[..|g.players|] == Broadcast(g.players, MoveMade(index, SymbolOf(g.turn)))
    ensures Recipients(r.1[|g.players|..]) == g.players
  {
    var mover := g.turn;
    var board := MarkedBoard(g, index);
    var moved := Broadcast(g.players, MoveMade(index, SymbolOf(mover)));
    match Evaluate(mover, board)
    case Won =>
      (g.(board := EmptyBoard(), turn := 0), moved + Broadcast(g.players, Win(mover)))
    case Tied =>
      (g.(board := EmptyBoard(), turn := 0), moved + Broadcast(g.players, Tie))
    case Ongoing =>
      var next := (mover + 1) % 2;
      (g.(board := board, turn := next), moved + Broadcast(g.players, TurnChanged(next)))
  }

  /** The message handler: `sender` is the index stored on the connection at
      join time (None when it never joined). Nothing happens unless the session
      is active. */
  function Dispatch<C(==)>(g: Game<C>, ws: C, sender: Option<nat>, msg: ClientMsg): (r: (Game<C>, seq<Event<C>>))
    requires |g.board| == Size
    ensures |r.0.board| == Size
    ensures r.0.players == g.players && r.0.state == g.state
  {
    if g.state != Active then (g, [])
    else
      match msg
      case Move(index) =>
        if MoveAccepted(g, sender, index) then PlayMove(g, index) else (g, [])
      case Rematch =>
        (g, Broadcast(Remove(g.players, ws), RematchOffer))
      case RematchAccepted =>
        (g.(board := EmptyBoard(), turn := 0), Broadcast(g.players, Reset))
      case Unrecognized =>
        (g, [])
  }

  /** The close handler: drop the connection; below two players the session waits. */
  function Leave<C(==)>(g: Game<C>, ws: C): (r: Game<C>)
    ensures ws !in r.players && (ws !in g.players ==> r.players == g.players)
    ensures r.board == g.board && r.turn == g.turn
    ensures |r.players| < 2 ==> r.state == Waiting
    ensures |r.players| >= 2 ==> r.state == g.state
    ensures multiset(r.players) == multiset(g.players)[ws := 0]
  {
    RemoveCounts(g.players, ws);
    var players := Remove(g.players, ws);
    g.(players := players, state := if |players| < 2 then Waiting else g.state)
  }

  // ---------------------------------------------------------------------------
  // Facts about the event helpers, used by the loops that send them.

  lemma {:induction false} BroadcastAppend<C>(a: seq<C>, b: seq<C>, msg: ServerMsg)
    ensures Broadcast(a + b, msg) == Broadcast(a, msg) + Broadcast(b, msg)
  {
    if a != [] {
      assert (a + b)[1..] == a[1..] + b;
      BroadcastAppend(a[1..], b, msg);
    }
  }

  /** Filtering keeps the order: filtering a concatenation concatenates the filtered parts. */
  lemma {:induction false} RemoveAppend<C>(a: seq<C>, b: seq<C>, ws: C)
    ensures Remove(a + b, ws) == Remove(a, ws) + Remove(b, ws)
  {
    if a != [] {
      var head := if a[0] == ws then [] else [a[0]];
      assert (a + b)[0] == a[0] && (a + b)[1..] == a[1..] + b;
      RemoveAppend(a[1..], b, ws);
      assert Remove(a + b, ws) == head + (Remove(a[1..], ws) + Remove(b, ws));
    } else {
      assert a + b == b;
    }
  }

  /** Filtering a list extended by one element. */
  lemma RemoveSnoc<C>(a: seq<C>, x: C, ws: C)
    ensures Remove(a + [x], ws) == Remove(a, ws) + (if x == ws then [] else [x])
  {
    RemoveAppend(a, [x], ws);
    assert [x][1..] == [];
  }

  /** Sending to everyone but `ws` in a list extended by one element. */
  lemma BroadcastRemoveSnoc<C>(a: seq<C>, x: C, ws: C, msg: ServerMsg)
    ensures Broadcast(Remove(a + [x], ws), msg) ==
            Broadcast(Remove(a, ws), msg) + (if x == ws then [] else [Send(x, msg)])
  {
    RemoveSnoc(a, x, ws);
    BroadcastAppend(Remove(a, ws), if x == ws then [] else [x], msg);
  }

  lemma RecipientsOfBroadcast<C>(ps: seq<C>, msg: ServerMsg)
    ensures Recipients(Broadcast(ps, msg)) == ps
  {
    var r := Broadcast(ps, msg);
    assert forall k :: 0 <= k < |ps| ==> Recipients(r)[k] == ps[k];
  }
}
