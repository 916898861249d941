/** What the coordinator's handlers promise, stated over the pure model. */
module Properties {
  import opened Board
  import opened Coordinator

  // ---------------------------------------------------------------------------
  // The session invariant

  lemma JoinPreservesInv<C>(g: Game<C>, ws: C)
    requires Inv(g)
    ensures Inv(Join(g, ws).game)
  {
  }

  lemma DispatchPreservesInv<C>(g: Game<C>, ws: C, sender: Option<nat>, msg: ClientMsg)
    requires Inv(g)
    ensures Inv(Dispatch(g, ws, sender, msg).0)
  {
  }

  lemma LeavePreservesInv<C>(g: Game<C>, ws: C)
    requires Inv(g)
    ensures Inv(Leave(g, ws))
  {
    var players := Remove(g.players, ws);
    RemoveCounts(g.players, ws);
    assert |multiset(players)| <= |multiset(g.players)|;
    assert |players| == |multiset(players)|;
    assert |g.players| == |multiset(g.players)|;
  }

  // ---------------------------------------------------------------------------
  // Join

  /** A join is admitted while fewer than two players are present: the
      connection is appended, receives the list length before the push as its
      index and is told its mark. A third connection is closed and nothing changes. */
  lemma JoinAssignsIndex<C>(g: Game<C>, ws: C)
    ensures var j := Join(g, ws);
      |g.players| < 2 ==>
        j.index == Some(|g.players|) && j.game.players == g.players + [ws] &&
        j.game.board == g.board && j.events != [] &&
        j.events[0] == Send(ws, Role(if |g.players| == 0 then X else O))
    ensures var j := Join(g, ws);
      |g.players| == 0 ==> j.game == g.(players := [ws]) && j.events == [Send(ws, Role(X))]
    ensures var j := Join(g, ws);
      |g.players| >= 2 ==> j.game == g && j.index == None && j.events == [Close(ws)]
  {
  }

  /** The second join activates the session with player 0 to move and sends
      `start` to both players in list order, `yourTurn` being true exactly for
      the first of them. The board is left as it was. */
  lemma SecondJoinStarts<C>(g: Game<C>, ws: C)
    requires |g.players| == 1
    ensures var j := Join(g, ws);
      j.game.state == Active && j.game.turn == 0 && j.game.board == g.board &&
      j.game.players == g.players + [ws] &&
      |j.events| == 3 && j.events[0] == Send(ws, Role(O)) &&
      Recipients(j.events[1..]) == j.game.players &&
      forall k :: 1 <= k < 3 ==>
        j.events[k].Send? && j.events[k].msg.Start? &&
        j.events[k].msg.turn == 0 && (j.events[k].msg.yourTurn <==> k == 1)
  {
    var j := Join(g, ws);
    assert j.events[1..] == StartEvents(j.game.players, 0);
  }

  // ---------------------------------------------------------------------------
  // Moves

  /** Outside the active state every message is ignored. */
  lemma InactiveIgnoresAll<C>(g: Game<C>, ws: C, sender: Option<nat>, msg: ClientMsg)
    requires |g.board| == Size && g.state != Active
    ensures Dispatch(g, ws, sender, msg) == (g, [])
  {
  }

  /** A move by a connection that does not hold the turn, to an occupied cell or
      to an index off the board, or while the session is not active, changes
      nothing and sends nothing. */
  lemma IgnoredMoveIsNoOp<C>(g: Game<C>, ws: C, sender: Option<nat>, index: int)
    requires |g.board| == Size
    requires g.state != Active || sender != Some(g.turn) || !(0 <= index < Size) || g.board[index] != Empty
    ensures Dispatch(g, ws, sender, Move(index)) == (g, [])
  {
  }

  /** In a reachable session a move produces events exactly when it is accepted. */
  lemma MoveVisibleIffAccepted<C>(g: Game<C>, ws: C, sender: Option<nat>, index: int)
    requires Inv(g)
    ensures Dispatch(g, ws, sender, Move(index)).1 != [] <==> MoveAccepted(g, sender, index)
  {
    if MoveAccepted(g, sender, index) {
      assert |Dispatch(g, ws, sender, Move(index)).1| == 2 * |g.players|;
    }
  }

  /** An accepted move that neither wins nor ties marks exactly that cell with
      the mover's symbol, passes the turn to the other index, and sends `move`
      then `turn` to every player. */
  lemma OngoingMove<C>(g: Game<C>, ws: C, sender: Option<nat>, index: int)
    requires Inv(g) && MoveAccepted(g, sender, index)
    requires !CheckWin(g.turn, MarkedBoard(g, index)) && !CheckTie(MarkedBoard(g, index))
    ensures var (g', events) := Dispatch(g, ws, sender, Move(index));
      |g'.board| == Size && g'.board[index] == Cell.Marked(SymbolOf(g.turn)) &&
      (forall k :: 0 <= k < Size && k != index ==> g'.board[k] == g.board[k]) &&
      g'.turn == 1 - g.turn && g'.players == g.players && g'.state == g.state &&
      events == Broadcast(g.players, MoveMade(index, SymbolOf(g.turn))) +
                Broadcast(g.players, TurnChanged(g'.turn))
  {
    assert Evaluate(g.turn, MarkedBoard(g, index)) == Ongoing;
  }

  /** A winning move sends `move` then `win` carrying the mover's index, and
      leaves an empty board with player 0 to move. */
  lemma WinningMove<C>(g: Game<C>, ws: C, sender: Option<nat>, index: int)
    requires |g.board| == Size && MoveAccepted(g, sender, index)
    requires CheckWin(g.turn, MarkedBoard(g, index))
    ensures var (g', events) := Dispatch(g, ws, sender, Move(index));
      IsReset(g') && g'.players == g.players && g'.state == Active &&
      events == Broadcast(g.players, MoveMade(index, SymbolOf(g.turn))) +
                Broadcast(g.players, Win(g.turn))
  {
  }

  /** A move that fills the board without a line sends `move` then `tie` and
      leaves an empty board with player 0 to move. */
  lemma TyingMove<C>(g: Game<C>, ws: C, sender: Option<nat>, index: int)
    requires |g.board| == Size && MoveAccepted(g, sender, index)
    requires !CheckWin(g.turn, MarkedBoard(g, index)) && CheckTie(MarkedBoard(g, index))
    ensures var (g', events) := Dispatch(g, ws, sender, Move(index));
      IsReset(g') && g'.players == g.players && g'.state == Active &&
      events == Broadcast(g.players, MoveMade(index, SymbolOf(g.turn))) + Broadcast(g.players, Tie)
  {
  }

  /** In a reachable session, an accepted move reports `win` exactly when the
      mover then has three in a row, and `tie` exactly when it does not and no
      cell is empty: the win check comes first. */
  lemma OutcomeReported<C>(g: Game<C>, ws: C, sender: Option<nat>, index: int)
    requires Inv(g) && MoveAccepted(g, sender, index)
    ensures var events := Dispatch(g, ws, sender, Move(index)).1;
      var b := MarkedBoard(g, index);
      ((exists k :: 0 <= k < |events| && events[k].Send? && events[k].msg == Win(g.turn)) <==>
        ThreeInARow(b, SymbolOf(g.turn))) &&
      ((exists k :: 0 <= k < |events| && events[k].Send? && events[k].msg == Tie) <==>
        !ThreeInARow(b, SymbolOf(g.turn)) && forall c :: 0 <= c < Size ==> b[c] != Empty)
  {
    var events := Dispatch(g, ws, sender, Move(index)).1;
    var b := MarkedBoard(g, index);
    var n := |g.players|;
    var moved := Broadcast(g.players, MoveMade(index, SymbolOf(g.turn)));
    assert forall k :: 0 <= k < n ==> events[k] == moved[k];
    assert forall k :: 0 <= k < n ==> events[k].msg.MoveMade?;
    match Evaluate(g.turn, b)
    case Won =>
      assert events[n] == Send(g.players[0], Win(g.turn));
      assert forall k :: n <= k < |events| ==> events[k].msg.Win?;
    case Tied =>
      assert events[n] == Send(g.players[0], Tie);
      assert forall k :: n <= k < |events| ==> events[k].msg.Tie?;
    case Ongoing =>
      assert forall k :: n <= k < |events| ==> events[k].msg.TurnChanged?;
  }

  /** A marked cell keeps its mark under every message until the board is reset. */
  lemma MarksAreKept<C>(g: Game<C>, ws: C, sender: Option<nat>, msg: ClientMsg)
    requires |g.board| == Size
    ensures var g' := Dispatch(g, ws, sender, msg).0;
      g'.board == EmptyBoard() ||
      (|g'.board| == Size && forall k :: 0 <= k < Size && g.board[k] != Empty ==> g'.board[k] == g.board[k])
  {
  }

  // ---------------------------------------------------------------------------
  // Rematch

  /** `rematch` sends `rematchOffer` to every other player (as many times as it
      is listed) and never to the sender; the session does not change. */
  lemma RematchNotifiesOthers<C>(g: Game<C>, ws: C, sender: Option<nat>)
    requires |g.board| == Size && g.state == Active
    ensures var (g', events) := Dispatch(g, ws, sender, Rematch);
      g' == g &&
      (forall k :: 0 <= k < |events| ==> events[k].Send? && events[k].msg == RematchOffer) &&
      multiset(Recipients(events)) == multiset(g.players)[ws := 0] &&
      ws !in Recipients(events)
  {
    RecipientsOfBroadcast(Remove(g.players, ws), RematchOffer);
    RemoveCounts(g.players, ws);
  }

  /** `rematchAccepted` sends `reset` to every player, whoever sent it and whether
      or not anyone offered a rematch, and puts board and turn back to their
      initial values. */
  lemma RematchAcceptedResets<C>(g: Game<C>, ws: C, sender: Option<nat>)
    requires |g.board| == Size && g.state == Active
    ensures var (g', events) := Dispatch(g, ws, sender, RematchAccepted);
      IsReset(g') && g'.board == Initial<C>().board &&
      g'.players == g.players && g'.state == g.state &&
      Recipients(events) == g.players &&
      forall k :: 0 <= k < |events| ==> events[k].Send? && events[k].msg == Reset
  {
    RecipientsOfBroadcast(g.players, Reset);
  }

  /** Accepting a rematch twice leaves the same session as accepting it once. */
  lemma RematchAcceptedIdempotent<C>(g: Game<C>, ws1: C, s1: Option<nat>, ws2: C, s2: Option<nat>)
    requires |g.board| == Size
    ensures var g1 := Dispatch(g, ws1, s1, RematchAccepted).0;
      Dispatch(g1, ws2, s2, RematchAccepted).0 == g1
  {
  }

  /** After a winning or tying move, `rematchAccepted` changes nothing but sends
      `reset`: the eager reset has already been done. */
  lemma ResetAfterOutcomeIsRedundant<C>(g: Game<C>, ws: C, sender: Option<nat>, index: int, ws2: C, s2: Option<nat>)
    requires |g.board| == Size && MoveAccepted(g, sender, index)
    requires CheckWin(g.turn, MarkedBoard(g, index)) || CheckTie(MarkedBoard(g, index))
    ensures var g1 := Dispatch(g, ws, sender, Move(index)).0;
      Dispatch(g1, ws2, s2, RematchAccepted).0 == g1
  {
  }

  // ---------------------------------------------------------------------------
  // Disconnect

  /** Closing removes that connection (every occurrence of it) and nothing
      else, keeps board and turn, and in a reachable session sets the state to
      waiting exactly when fewer than two players remain. */
  lemma LeaveRemovesOnlyCloser<C>(g: Game<C>, ws: C)
    requires Inv(g)
    ensures var g' := Leave(g, ws);
      multiset(g'.players) == multiset(g.players)[ws := 0] &&
      (ws !in g.players ==> g'.players == g.players) &&
      g'.board == g.board && g'.turn == g.turn &&
      (g'.state == Waiting <==> |g'.players| < 2) &&
      (|g'.players| >= 2 ==> g'.state == g.state)
  {
    var players := Remove(g.players, ws);
    RemoveCounts(g.players, ws);
    if ws in g.players {
      assert multiset(g.players)[ws] > 0;
      assert |multiset(players)| < |multiset(g.players)|;
    }
    assert |players| == |multiset(players)|;
    assert |g.players| == |multiset(g.players)|;
  }

  /** The close of a connection that is not listed (one refused at join time,
      possibly long after the refusal) changes nothing in a reachable session
      once a second player has joined: below two players the state is already waiting. */
  lemma CloseOfUnlistedIsNoOp<C>(g: Game<C>, ws: C)
    requires Inv(g) && ws !in g.players && g.state != Unset
    ensures Leave(g, ws) == g
  {
  }
}
