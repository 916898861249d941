/** The server's mutable session record and its three callbacks. Each
    callback runs to completion on the single-threaded event loop, so each is
    one method call; the messages it would write to sockets are returned, in
    order, as events. */
module Session {
  import opened Board
  import opened Coordinator

  /** A socket. The server tags it with the player index it was given at join time. */
  class Connection {
    var playerIndex: Option<nat>

    constructor ()
      ensures playerIndex == None
    {
      playerIndex := None;
    }
  }

  /** broadcastGameState: `players.forEach(client => client.send(msg))`. */
  method SendAll(ps: seq<Connection>, msg: ServerMsg) returns (events: seq<Event<Connection>>)
    ensures events == Broadcast(ps, msg)
  {
    events := [];
    for i := 0 to |ps|
      invariant events == Broadcast(ps[..i], msg)
    {
      BroadcastAppend(ps[..i], [ps[i]], msg);
      assert ps[..i + 1] == ps[..i] + [ps[i]];
      events := events + [Send(ps[i], msg)];
    }
    assert ps[..|ps|] == ps;
  }

  /** The rematch loop: send `msg` to every listed connection that is not `ws`. */
  method SendToOthers(ps: seq<Connection>, ws: Connection, msg: ServerMsg) returns (events: seq<Event<Connection>>)
    ensures events == Broadcast(Remove(ps, ws), msg)
  {
    events := [];
    for i := 0 to |ps|
      invariant events == Broadcast(Remove(ps[..i], ws), msg)
    {
      assert ps[..i + 1] == ps[..i] + [ps[i]];
      BroadcastRemoveSnoc(ps[..i], ps[i], ws, msg);
      if ps[i] != ws {
        events := events + [Send(ps[i], msg)];
      }
    }
    assert ps[..|ps|] == ps;
  }

  /** The start loop: `players.forEach((client, index) => client.send(start))`. */
  method SendStart(ps: seq<Connection>, turn: nat) returns (events: seq<Event<Connection>>)
    ensures events == StartEvents(ps, turn)
  {
    events := [];
    for i := 0 to |ps|
      invariant |events| == i
      invariant forall k :: 0 <= k < i ==> events[k] == Send(ps[k], Start(StartText, turn, k == turn))
    {
      events := events + [Send(ps[i], Start(StartText, turn, i == turn))];
    }
  }

  class Session {
    var players: seq<Connection>
    const board: array<Cell>
    var turn: nat
    var state: Phase

    ghost predicate Valid()
      reads this
    {
      board.Length == Size
    }

    /** The session as a value of the pure model. */
    ghost function Abs(): Game<Connection>
      reads this, board
    {
      Game(players, board[..], turn, state)
    }

    /** `{ players: [], board: Array(9).fill(null), turn: 0 }` */
    constructor ()
      ensures Valid() && fresh(board)
      ensures Abs() == Initial()
    {
      players := [];
      board := new Cell[Size](_ => Empty);
      turn := 0;
      state := Unset;
      new;
      assert board[..] == EmptyBoard();
    }

    /** `board.fill(null)` */
    method ClearBoard()
      requires Valid()
      modifies board
      ensures board[..] == EmptyBoard()
    {
      for k := 0 to board.Length
        invariant forall j :: 0 <= j < k ==> board[j] == Empty
      {
        board[k] := Empty;
      }
      assert board[..] == EmptyBoard();
    }

    /** The connection handler. */
    method Connect(ws: Connection) returns (events: seq<Event<Connection>>)
      requires Valid()
      modifies this, ws
      ensures Valid()
      ensures Abs() == Join(old(Abs()), ws).game
      ensures events == Join(old(Abs()), ws).events
      ensures ws.playerIndex == if Join(old(Abs()), ws).index.Some? then Join(old(Abs()), ws).index else old(ws.playerIndex)
    {
      if |players| < 2 {
        var index := |players|;
        players := players + [ws];
        ws.playerIndex := Some(index);
        events := [Send(ws, Role(SymbolOf(index)))];
        if |players| == 2 {
          state := Active;
          turn := 0;
          var starts := SendStart(players, turn);
          events := events + starts;
        }
      } else {
        events := [Close(ws)];
      }
    }

    /** The message handler. */
    method OnMessage(ws: Connection, msg: ClientMsg) returns (events: seq<Event<Connection>>)
      requires Valid()
      modifies this, board
      ensures Valid()
      ensures (Abs(), events) == Dispatch(old(Abs()), ws, ws.playerIndex, msg)
    {
      var playerIndex := ws.playerIndex;
      events := [];
      if state == Active {
        match msg
        case Move(index) =>
          if playerIndex == Some(turn) && 0 <= index < Size && board[index] == Empty {
            events := PlayAt(index);
          }
        case Rematch =>
          events := SendToOthers(players, ws, RematchOffer);
        case RematchAccepted =>
          events := SendAll(players, Reset);
          ClearBoard();
          turn := 0;
        case Unrecognized =>
      }
    }

    /** The body of an accepted `move`: the mover holds the turn, so the mark
        written for the mover's index is the mark of `turn`. */
    method PlayAt(index: int) returns (events: seq<Event<Connection>>)
      requires Valid() && 0 <= index < Size && board[index] == Empty
      modifies this, board
      ensures Valid() && players == old(players) && state == old(state)
      ensures (Abs(), events) == PlayMove(old(Abs()), index)
    {
      board[index] := Cell.Marked(SymbolOf(turn));
      var win := CheckWin(turn, board[..]);
      var tie := !win && CheckTie(board[..]);
      events := SendAll(players, MoveMade(index, SymbolOf(turn)));
      if win {
        var sent := SendAll(players, Win(turn));
        events := events + sent;
        ClearBoard();
        turn := 0;
      } else if tie {
        var sent := SendAll(players, Tie);
        events := events + sent;
        ClearBoard();
        turn := 0;
      } else {
        turn := (turn + 1) % 2;
        var sent := SendAll(players, TurnChanged(turn));
        events := events + sent;
      }
    }

    /** The close handler. */
    method OnClose(ws: Connection)
      requires Valid()
      modifies this
      ensures Valid()
      ensures Abs() == Leave(old(Abs()), ws)
    {
      players := Remove(players, ws);
      if |players| < 2 {
        state := Waiting;
      }
    }
  }
}
