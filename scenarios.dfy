/** Whole games played through the model. */
module Scenarios {
  import opened Board
  import opened Coordinator
  import opened Properties
  import Session

  /** The session right after connections `a` and `b` have joined. */
  function Started<C>(a: C, b: C): Game<C>
  {
    Join(Join(Initial<C>(), a).game, b).game
  }

  lemma StartedIsActive<C>(a: C, b: C)
    ensures Started(a, b) == Game([a, b], EmptyBoard(), 0, Active)
  {
  }

  lemma BroadcastPair<C>(a: C, b: C, msg: ServerMsg)
    ensures Broadcast([a, b], msg) == [Send(a, msg), Send(b, msg)]
  {
  }

  /** One accepted move that neither wins nor ties. */
  lemma Ongoing<C>(g: Game<C>, ws: C, index: int, empty: int)
    requires Inv(g) && MoveAccepted(g, Some(g.turn), index)
    requires !SomeTripleFilled(MarkedBoard(g, index), Cell.Marked(SymbolOf(g.turn)))
    requires 0 <= empty < Size && MarkedBoard(g, index)[empty] == Empty
    ensures Dispatch(g, ws, Some(g.turn), Move(index)).0 == g.(board := MarkedBoard(g, index), turn := 1 - g.turn)
  {
    CheckWinCases(g.turn, MarkedBoard(g, index));
    assert !CheckTie(MarkedBoard(g, index));
    OngoingMove(g, ws, Some(g.turn), index);
  }

  /** Player 0 moves at `i`, then player 1 at `j`, neither completing a line. */
  lemma TwoMoves<C>(a: C, b: C, board: seq<Cell>, i: int, j: int)
    requires a != b && |board| == Size && 0 <= i < Size && 0 <= j < Size && i != j && i != 8 && j != 8
    requires board[i] == Empty && board[j] == Empty && board[8] == Empty
    requires !SomeTripleFilled(board[i := Cell.Marked(X)], Cell.Marked(X))
    requires !SomeTripleFilled(board[i := Cell.Marked(X)][j := Cell.Marked(O)], Cell.Marked(O))
    ensures var g1 := Dispatch(Game([a, b], board, 0, Active), a, Some(0), Move(i)).0;
      Dispatch(g1, b, Some(1), Move(j)).0 ==
        Game([a, b], board[i := Cell.Marked(X)][j := Cell.Marked(O)], 0, Active)
  {
    var g0 := Game([a, b], board, 0, Active);
    Ongoing(g0, a, i, 8);
    var g1 := g0.(board := board[i := Cell.Marked(X)], turn := 1);
    Ongoing(g1, b, j, 8);
  }

  /** One inbound message: the connection it arrives on, the index stored on
      that connection, and the message. */
  type Delivery<C> = (C, Option<nat>, ClientMsg)

  /** Messages handled one after another: the final session and every event, in order. */
  function Replay<C(==)>(g: Game<C>, msgs: seq<Delivery<C>>): (r: (Game<C>, seq<Event<C>>))
    requires |g.board| == Size
    ensures |r.0.board| == Size
    ensures msgs == [] ==> r == (g, [])
    decreases |msgs|
  {
    if msgs == [] then (g, [])
    else
      var step := Dispatch(g, msgs[0].0, msgs[0].1, msgs[0].2);
      var rest := Replay(step.0, msgs[1..]);
      (rest.0, step.1 + rest.1)
  }

  /** Replaying two batches ends where replaying the second from the end of the first does. */
  lemma {:induction false} ReplayAppend<C>(g: Game<C>, m1: seq<Delivery<C>>, m2: seq<Delivery<C>>)
    requires |g.board| == Size
    ensures Replay(g, m1 + m2).0 == Replay(Replay(g, m1).0, m2).0
    decreases |m1|
  {
    if m1 == [] {
      assert m1 + m2 == m2;
    } else {
      var m := m1 + m2;
      assert m[0] == m1[0] && m[1..] == m1[1..] + m2;
      var g1 := Dispatch(g, m1[0].0, m1[0].1, m1[0].2).0;
      ReplayAppend(g1, m1[1..], m2);
      assert Replay(g, m1).0 == Replay(g1, m1[1..]).0;
      assert Replay(g, m).0 == Replay(g1, m[1..]).0;
    }
  }

  /** Player 0 on `a` moves at `i`, then player 1 on `b` at `j` (two deliveries). */
  function MovePair<C>(a: C, b: C, i: int, j: int): seq<Delivery<C>>
  {
    [(a, Some(0), Move(i)), (b, Some(1), Move(j))]
  }

  lemma ReplayPair<C>(a: C, b: C, board: seq<Cell>, i: int, j: int)
    requires a != b && |board| == Size && 0 <= i < Size && 0 <= j < Size && i != j && i != 8 && j != 8
    requires board[i] == Empty && board[j] == Empty && board[8] == Empty
    requires !SomeTripleFilled(board[i := Cell.Marked(X)], Cell.Marked(X))
    requires !SomeTripleFilled(board[i := Cell.Marked(X)][j := Cell.Marked(O)], Cell.Marked(O))
    ensures Replay(Game([a, b], board, 0, Active), MovePair(a, b, i, j)).0 ==
      Game([a, b], board[i := Cell.Marked(X)][j := Cell.Marked(O)], 0, Active)
  {
    var g0 := Game([a, b], board, 0, Active);
    var m := MovePair(a, b, i, j);
    TwoMoves(a, b, board, i, j);
    var g1 := Dispatch(g0, a, Some(0), Move(i)).0;
    assert m[1..] == [(b, Some(1), Move(j))] && m[1..][1..] == [];
    assert Replay(g1, m[1..]).0 == Dispatch(g1, b, Some(1), Move(j)).0;
  }

  /** X takes 0 and 1 while O takes 3 and 4; X to move. */
  function TopRowBoard(): seq<Cell>
  {
    [Cell.Marked(X), Cell.Marked(X), Empty, Cell.Marked(O), Cell.Marked(O), Empty, Empty, Empty, Empty]
  }

  /** Player 0 takes 0 and 1 while player 1 takes 3 and 4; then player 0 takes 2,
      completing the top row: `move` for index 2 then `win` for player 0 go to
      both, and the board is reset. */
  lemma TopRowWin<C>(a: C, b: C)
    requires a != b
    ensures var g4 := Replay(Started(a, b), MovePair(a, b, 0, 3) + MovePair(a, b, 1, 4)).0;
      g4 == Game([a, b], TopRowBoard(), 0, Active) &&
      Dispatch(g4, a, Some(0), Move(2)) ==
        (Game([a, b], EmptyBoard(), 0, Active),
         [Send(a, MoveMade(2, X)), Send(b, MoveMade(2, X)), Send(a, Win(0)), Send(b, Win(0))])
  {
    StartedIsActive(a, b);
    var E, x, o := Empty, Cell.Marked(X), Cell.Marked(O);
    var b2 := [x, E, E, o, E, E, E, E, E];
    assert EmptyBoard()[0 := x][3 := o] == b2;
    assert b2[1 := x][4 := o] == TopRowBoard();
    var g0 := Game([a, b], EmptyBoard(), 0, Active);
    ReplayPair(a, b, EmptyBoard(), 0, 3);
    ReplayPair(a, b, b2, 1, 4);
    ReplayAppend(g0, MovePair(a, b, 0, 3), MovePair(a, b, 1, 4));
    TopRowLastMove(a, b);
  }

  lemma TopRowLastMove<C>(a: C, b: C)
    requires a != b
    ensures Dispatch(Game([a, b], TopRowBoard(), 0, Active), a, Some(0), Move(2)) ==
      (Game([a, b], EmptyBoard(), 0, Active),
       [Send(a, MoveMade(2, X)), Send(b, MoveMade(2, X)), Send(a, Win(0)), Send(b, Win(0))])
  {
    var g4 := Game([a, b], TopRowBoard(), 0, Active);
    CheckWinCases(0, MarkedBoard(g4, 2));
    WinningMove(g4, a, Some(0), 2);
    BroadcastPair(a, b, MoveMade(2, X));
    BroadcastPair(a, b, Win(0));
    var r := Dispatch(g4, a, Some(0), Move(2));
    assert r.0 == Game([a, b], EmptyBoard(), 0, Active);
    assert r.1 == [Send(a, MoveMade(2, X)), Send(b, MoveMade(2, X)), Send(a, Win(0)), Send(b, Win(0))];
  }

  /** The first eight moves of a drawn game: X 0, O 1, X 2, O 4, X 3, O 5, X 7, O 6. */
  function TieOpening<C>(a: C, b: C): seq<Delivery<C>>
  {
    MovePair(a, b, 0, 1) + MovePair(a, b, 2, 4) + MovePair(a, b, 3, 5) + MovePair(a, b, 7, 6)
  }

  /** The board after the eight opening moves: only cell 8 is empty. */
  function TieBoard(): seq<Cell>
  {
    [Cell.Marked(X), Cell.Marked(O), Cell.Marked(X), Cell.Marked(X), Cell.Marked(O),
     Cell.Marked(O), Cell.Marked(O), Cell.Marked(X), Empty]
  }

  /** The boards reached after two, four and six of the opening moves. */
  lemma TieBoards(b2: seq<Cell>, b4: seq<Cell>, b6: seq<Cell>)
    requires b2 == [Cell.Marked(X), Cell.Marked(O), Empty, Empty, Empty, Empty, Empty, Empty, Empty]
    requires b4 == [Cell.Marked(X), Cell.Marked(O), Cell.Marked(X), Empty, Cell.Marked(O), Empty, Empty, Empty, Empty]
    requires b6 == [Cell.Marked(X), Cell.Marked(O), Cell.Marked(X), Cell.Marked(X), Cell.Marked(O), Cell.Marked(O), Empty, Empty, Empty]
    ensures EmptyBoard()[0 := Cell.Marked(X)][1 := Cell.Marked(O)] == b2
    ensures b2[2 := Cell.Marked(X)][4 := Cell.Marked(O)] == b4
    ensures b4[3 := Cell.Marked(X)][5 := Cell.Marked(O)] == b6
    ensures b6[7 := Cell.Marked(X)][6 := Cell.Marked(O)] == TieBoard()
  {
  }

  /** The eight opening moves lead, with no line on the way, to `TieBoard()`. */
  lemma TieOpeningReaches<C>(a: C, b: C)
    requires a != b
    ensures Replay(Game([a, b], EmptyBoard(), 0, Active), TieOpening(a, b)).0 == Game([a, b], TieBoard(), 0, Active)
  {
    var E, x, o := Empty, Cell.Marked(X), Cell.Marked(O);
    var b2 := [x, o, E, E, E, E, E, E, E];
    var b4 := [x, o, x, E, o, E, E, E, E];
    var b6 := [x, o, x, x, o, o, E, E, E];
    TieBoards(b2, b4, b6);
    var p1, p2, p3, p4 := MovePair(a, b, 0, 1), MovePair(a, b, 2, 4), MovePair(a, b, 3, 5), MovePair(a, b, 7, 6);
    var g0 := Game([a, b], EmptyBoard(), 0, Active);
    ReplayPair(a, b, EmptyBoard(), 0, 1);
    ReplayPair(a, b, b2, 2, 4);
    ReplayPair(a, b, b4, 3, 5);
    ReplayPair(a, b, b6, 7, 6);
    ReplayAppend(g0, p1, p2);
    assert Replay(g0, p1 + p2).0 == Game([a, b], b4, 0, Active);
    ReplayAppend(g0, p1 + p2, p3);
    assert Replay(g0, p1 + p2 + p3).0 == Game([a, b], b6, 0, Active);
    ReplayAppend(g0, p1 + p2 + p3, p4);
  }

  /** After the eight opening moves only cell 8 is empty, and X taking it fills
      the board with no line: `move` then `tie` go to both, and the board is reset. */
  lemma FullBoardTie<C>(a: C, b: C)
    requires a != b
    ensures var g8 := Replay(Started(a, b), TieOpening(a, b)).0;
      g8 == Game([a, b], TieBoard(), 0, Active) &&
      Dispatch(g8, a, Some(0), Move(8)) ==
        (Game([a, b], EmptyBoard(), 0, Active),
         [Send(a, MoveMade(8, X)), Send(b, MoveMade(8, X)), Send(a, Tie), Send(b, Tie)])
  {
    StartedIsActive(a, b);
    TieOpeningReaches(a, b);
    TieLastMove(a, b, TieBoard());
  }

  lemma TieLastMove<C>(a: C, b: C, b8: seq<Cell>)
    requires a != b
    requires b8 == [Cell.Marked(X), Cell.Marked(O), Cell.Marked(X), Cell.Marked(X), Cell.Marked(O),
                    Cell.Marked(O), Cell.Marked(O), Cell.Marked(X), Empty]
    ensures Dispatch(Game([a, b], b8, 0, Active), a, Some(0), Move(8)) ==
      (Game([a, b], EmptyBoard(), 0, Active),
       [Send(a, MoveMade(8, X)), Send(b, MoveMade(8, X)), Send(a, Tie), Send(b, Tie)])
  {
    var g8 := Game([a, b], b8, 0, Active);
    var b9 := MarkedBoard(g8, 8);
    CheckWinCases(0, b9);
    assert CheckTie(b9) by {
      assert forall k :: 0 <= k < Size ==> b9[k] != Empty;
    }
    TyingMove(g8, a, Some(0), 8);
    BroadcastPair(a, b, MoveMade(8, X));
    BroadcastPair(a, b, Tie);
    var r := Dispatch(g8, a, Some(0), Move(8));
    assert r.0 == Game([a, b], EmptyBoard(), 0, Active);
    assert r.1 == [Send(a, MoveMade(8, X)), Send(b, MoveMade(8, X)), Send(a, Tie), Send(b, Tie)];
  }

  /** Player 1 playing while player 0 holds the turn: nothing is sent and nothing changes. */
  lemma OutOfTurnMoveIgnored<C>(a: C, b: C)
    ensures Dispatch(Started(a, b), b, Some(1), Move(5)) == (Started(a, b), [])
  {
    StartedIsActive(a, b);
  }

  /** `a` and `b` join, `a` leaves, `c` joins: `c` is given index 1, the index
      `b` already holds, so nobody holds index 0 while it is 0's turn. `start`
      tells `b`, first in the list, that it is its turn, yet every move by either
      connection is ignored. */
  lemma RejoinDuplicatesIndex<C>(a: C, b: C, c: C, sender: Option<nat>, index: int)
    requires a != b
    requires sender == Some(1) || sender == None
    ensures var g3 := Leave(Started(a, b), a); var j := Join(g3, c);
      j.index == Some(1) &&
      j.game == Game([b, c], EmptyBoard(), 0, Active) &&
      j.events[1] == Send(b, Start(StartText, 0, true)) &&
      Dispatch(j.game, b, sender, Move(index)) == (j.game, []) &&
      Dispatch(j.game, c, sender, Move(index)) == (j.game, [])
  {
    FirstLeaves(a, b);
    var g3 := Game([b], EmptyBoard(), 0, Waiting);
    var j := Join(g3, c);
    assert j.game == Game([b, c], EmptyBoard(), 0, Active);
    assert j.events[1..] == StartEvents([b, c], 0);
  }

  /** When the first of two players leaves, the other is left waiting alone. */
  lemma FirstLeaves<C>(a: C, b: C)
    requires a != b
    ensures Leave(Started(a, b), a) == Game([b], EmptyBoard(), 0, Waiting)
  {
    StartedIsActive(a, b);
    assert Remove([a, b], a) == [b] by {
      assert [a, b][1..] == [b];
      assert [b][1..] == [];
    }
  }

  /** Whatever messages arrive carrying index 1 while player 0 is to move, no
      move is ever accepted: there is no `move` event and the turn stays 0. */
  lemma {:induction false} IndexOneNeverMoves<C>(g: Game<C>, msgs: seq<Delivery<C>>)
    requires |g.board| == Size && g.turn == 0
    requires forall k :: 0 <= k < |msgs| ==> msgs[k].1 == Some(1)
    ensures var (g', events) := Replay(g, msgs);
      g'.turn == 0 && g'.players == g.players && g'.state == g.state &&
      forall k :: 0 <= k < |events| ==> !(events[k].Send? && events[k].msg.MoveMade?)
    decreases |msgs|
  {
    if msgs != [] {
      var d := msgs[0];
      var step := Dispatch(g, d.0, d.1, d.2);
      assert step.0.turn == 0;
      assert forall k :: 0 <= k < |step.1| ==> !(step.1[k].Send? && step.1[k].msg.MoveMade?);
      IndexOneNeverMoves(step.0, msgs[1..]);
    }
  }

  /** After the rejoin, `b` and `c` both hold index 1: as long as neither leaves
      and nobody else joins, no message either of them sends ever places a mark.
      This is `IndexOneNeverMoves` applied to the rejoined session; the
      messages may come from any connection, as long as each carries index 1. */
  lemma RejoinBlocksWhileBothStay<C>(a: C, b: C, c: C, msgs: seq<Delivery<C>>)
    requires a != b
    requires forall k :: 0 <= k < |msgs| ==> msgs[k].1 == Some(1)
    ensures var j := Join(Leave(Started(a, b), a), c);
      j.index == Some(1) && j.game == Game([b, c], EmptyBoard(), 0, Active)
    ensures var (g', events) := Replay(Game([b, c], EmptyBoard(), 0, Active), msgs);
      g'.turn == 0 && g'.players == [b, c] &&
      forall k :: 0 <= k < |events| ==> !(events[k].Send? && events[k].msg.MoveMade?)
  {
    RejoinDuplicatesIndex(a, b, c, None, 0);
    IndexOneNeverMoves(Game([b, c], EmptyBoard(), 0, Active), msgs);
  }

  /** The same scenario on the mutable session: after the rejoin, both
      connections hold index 1 and neither can move. */
  method RejoinBlocksBothPlayers() returns (b: Session.Connection, c: Session.Connection,
                                            fromB: seq<Event<Session.Connection>>, fromC: seq<Event<Session.Connection>>)
    ensures b != c && b.playerIndex == Some(1) && c.playerIndex == Some(1)
    ensures fromB == [] && fromC == []
  {
    var s := new Session.Session();
    var a := new Session.Connection();
    b := new Session.Connection();
    c := new Session.Connection();
    var sent := s.Connect(a);
    sent := s.Connect(b);
    StartedIsActive(a, b);
    s.OnClose(a);
    assert [a, b][1..] == [b] && [b][1..] == [];
    sent := s.Connect(c);
    fromB := s.OnMessage(b, Move(0));
    fromC := s.OnMessage(c, Move(0));
  }
}
