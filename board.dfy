/** The 3x3 board of one session and the two outcome checks run after a move:
    checkWin (a fixed list of eight lines, tested with some/every) and
    checkTie (every cell occupied). */
module Board {

  /** The two marks a cell can hold. */
  datatype Symbol = X | O

  /** A cell is null (empty) or holds one of the two marks. */
  datatype Cell = Empty | Marked(symbol: Symbol)

  /** The board always has nine cells, numbered row by row. */
  const Size: nat := 9

  /** The mark of a participant index: "X" for index 0 and "O" for every other index. */
  function SymbolOf(player: int): (s: Symbol)
    ensures s == X <==> player == 0
  {
    if player == 0 then X else O
  }

  /** A board of nine empty cells, as built by Array(9).fill(null) and left by board.fill(null). */
  function EmptyBoard(): (b: seq<Cell>)
    ensures |b| == Size
    ensures forall k :: 0 <= k < |b| ==> b[k] == Empty
  {
    seq(Size, _ => Empty)
  }

  /** The eight winning triples in the order the source lists them: rows, columns, diagonals. */
  const Lines: seq<seq<int>> :=
    [[0, 1, 2], [3, 4, 5], [6, 7, 8],
     [0, 3, 6], [1, 4, 7], [2, 5, 8],
     [0, 4, 8], [2, 4, 6]]

  /** Every position of `line` is inside `board`. */
  predicate InBounds(board: seq<Cell>, line: seq<int>)
  {
    forall k :: 0 <= k < |line| ==> 0 <= line[k] < |board|
  }

  /** `line.every(index => board[index] === symbol)`. */
  function AllMarked(board: seq<Cell>, sym: Symbol, line: seq<int>): (r: bool)
    requires InBounds(board, line)
    ensures r <==> forall k :: 0 <= k < |line| ==> board[line[k]] == Marked(sym)
  {
    |line| == 0 || (board[line[0]] == Marked(sym) && AllMarked(board, sym, line[1..]))
  }

  /** `lines.some(line => every cell of line holds sym)`. */
  function AnyLineMarked(board: seq<Cell>, sym: Symbol, lines: seq<seq<int>>): (r: bool)
    requires forall i :: 0 <= i < |lines| ==> InBounds(board, lines[i])
    ensures r <==> exists i :: 0 <= i < |lines| && AllMarked(board, sym, lines[i])
  {
    |lines| > 0 && (AllMarked(board, sym, lines[0]) || AnyLineMarked(board, sym, lines[1..]))
  }

  /** checkWin(player, board): only the symbol of `player` is looked for. */
  function CheckWin(player: int, board: seq<Cell>): (r: bool)
    requires |board| == Size
    ensures r <==> exists i :: 0 <= i < |Lines| && AllMarked(board, SymbolOf(player), Lines[i])
  {
    AnyLineMarked(board, SymbolOf(player), Lines)
  }

  /** checkTie(board): `board.every(cell => cell !== null)`. */
  function CheckTie(board: seq<Cell>): (r: bool)
    ensures r <==> forall k :: 0 <= k < |board| ==> board[k] != Empty
  {
    |board| == 0 || (board[0] != Empty && CheckTie(board[1..]))
  }

  // ---------------------------------------------------------------------------
  // An independent, geometric reading of "three in a row" on a 3x3 grid.

  /** The cell at row `r` and column `c`. */
  function At(board: seq<Cell>, r: int, c: int): Cell
    requires |board| == Size && 0 <= r < 3 && 0 <= c < 3
  {
    board[3 * r + c]
  }

  ghost predicate RowFilled(board: seq<Cell>, sym: Symbol, r: int)
    requires |board| == Size && 0 <= r < 3
  {
    forall c :: 0 <= c < 3 ==> At(board, r, c) == Marked(sym)
  }

  ghost predicate ColumnFilled(board: seq<Cell>, sym: Symbol, c: int)
    requires |board| == Size && 0 <= c < 3
  {
    forall r :: 0 <= r < 3 ==> At(board, r, c) == Marked(sym)
  }

  /** The main diagonal (r == c) is filled with `sym`. */
  ghost predicate MainDiagonalFilled(board: seq<Cell>, sym: Symbol)
    requires |board| == Size
  {
    forall r, c :: 0 <= r < 3 && 0 <= c < 3 && r == c ==> At(board, r, c) == Marked(sym)
  }

  /** The anti-diagonal (r + c == 2) is filled with `sym`. */
  ghost predicate AntiDiagonalFilled(board: seq<Cell>, sym: Symbol)
    requires |board| == Size
  {
    forall r, c :: 0 <= r < 3 && 0 <= c < 3 && r + c == 2 ==> At(board, r, c) == Marked(sym)
  }

  /** Some row, column or diagonal holds `sym` in all three cells. */
  ghost predicate ThreeInARow(board: seq<Cell>, sym: Symbol)
    requires |board| == Size
  {
    (exists r :: 0 <= r < 3 && RowFilled(board, sym, r)) ||
    (exists c :: 0 <= c < 3 && ColumnFilled(board, sym, c)) ||
    MainDiagonalFilled(board, sym) ||
    AntiDiagonalFilled(board, sym)
  }

  /** One of the eight listed triples holds `m` in all three cells, spelled out. */
  predicate SomeTripleFilled(b: seq<Cell>, m: Cell)
    requires |b| == Size
  {
    (b[0] == m && b[1] == m && b[2] == m) || (b[3] == m && b[4] == m && b[5] == m) ||
    (b[6] == m && b[7] == m && b[8] == m) || (b[0] == m && b[3] == m && b[6] == m) ||
    (b[1] == m && b[4] == m && b[7] == m) || (b[2] == m && b[5] == m && b[8] == m) ||
    (b[0] == m && b[4] == m && b[8] == m) || (b[2] == m && b[4] == m && b[6] == m)
  }

  lemma AllMarkedTriple(b: seq<Cell>, s: Symbol, i: int, j: int, k: int)
    requires 0 <= i < |b| && 0 <= j < |b| && 0 <= k < |b|
    ensures AllMarked(b, s, [i, j, k]) <==> b[i] == Marked(s) && b[j] == Marked(s) && b[k] == Marked(s)
  {
    assert [i, j, k][1..] == [j, k] && [j, k][1..] == [k] && [k][1..] == [];
    assert AllMarked(b, s, [k]) <==> b[k] == Marked(s) && AllMarked(b, s, []);
    assert AllMarked(b, s, [j, k]) <==> b[j] == Marked(s) && AllMarked(b, s, [k]);
    assert AllMarked(b, s, [i, j, k]) <==> b[i] == Marked(s) && AllMarked(b, s, [j, k]);
  }

  /** checkWin tests exactly the eight triples, one after another. */
  lemma CheckWinCases(player: int, b: seq<Cell>)
    requires |b| == Size
    ensures CheckWin(player, b) <==> SomeTripleFilled(b, Marked(SymbolOf(player)))
  {
    var s := SymbolOf(player);
    assert Lines[0] == [0, 1, 2] && Lines[1] == [3, 4, 5] && Lines[2] == [6, 7, 8];
    assert Lines[3] == [0, 3, 6] && Lines[4] == [1, 4, 7] && Lines[5] == [2, 5, 8];
    assert Lines[6] == [0, 4, 8] && Lines[7] == [2, 4, 6];
    AllMarkedTriple(b, s, 0, 1, 2);
    AllMarkedTriple(b, s, 3, 4, 5);
    AllMarkedTriple(b, s, 6, 7, 8);
    AllMarkedTriple(b, s, 0, 3, 6);
    AllMarkedTriple(b, s, 1, 4, 7);
    AllMarkedTriple(b, s, 2, 5, 8);
    AllMarkedTriple(b, s, 0, 4, 8);
    AllMarkedTriple(b, s, 2, 4, 6);
  }

  /** The rows, columns and diagonals of the grid are exactly the eight triples. */
  lemma ThreeInARowCases(b: seq<Cell>, s: Symbol)
    requires |b| == Size
    ensures ThreeInARow(b, s) <==> SomeTripleFilled(b, Marked(s))
  {
    var m := Marked(s);
    if r :| 0 <= r < 3 && RowFilled(b, s, r) {
      assert At(b, r, 0) == m && At(b, r, 1) == m && At(b, r, 2) == m;
      assert r == 0 || r == 1 || r == 2;
    }
    if c :| 0 <= c < 3 && ColumnFilled(b, s, c) {
      assert At(b, 0, c) == m && At(b, 1, c) == m && At(b, 2, c) == m;
      assert c == 0 || c == 1 || c == 2;
    }
    if MainDiagonalFilled(b, s) {
      assert At(b, 0, 0) == m && At(b, 1, 1) == m && At(b, 2, 2) == m;
    }
    if AntiDiagonalFilled(b, s) {
      assert At(b, 0, 2) == m && At(b, 1, 1) == m && At(b, 2, 0) == m;
    }
    if SomeTripleFilled(b, m) {
      if b[0] == m && b[1] == m && b[2] == m {
        assert RowFilled(b, s, 0);
      } else if b[3] == m && b[4] == m && b[5] == m {
        assert RowFilled(b, s, 1);
      } else if b[6] == m && b[7] == m && b[8] == m {
        assert RowFilled(b, s, 2);
      } else if b[0] == m && b[3] == m && b[6] == m {
        assert ColumnFilled(b, s, 0);
      } else if b[1] == m && b[4] == m && b[7] == m {
        assert ColumnFilled(b, s, 1);
      } else if b[2] == m && b[5] == m && b[8] == m {
        assert ColumnFilled(b, s, 2);
      } else if b[0] == m && b[4] == m && b[8] == m {
        assert MainDiagonalFilled(b, s);
      } else {
        assert AntiDiagonalFilled(b, s);
      }
    }
  }

  /** The eight listed triples are exactly the rows, columns and diagonals. */
  lemma CheckWinIsThreeInARow(player: int, board: seq<Cell>)
    requires |board| == Size
    ensures CheckWin(player, board) <==> ThreeInARow(board, SymbolOf(player))
  {
    CheckWinCases(player, board);
    ThreeInARowCases(board, SymbolOf(player));
  }

  /** Only cells holding the mover's symbol matter to checkWin: the opponent's
      marks, and which cells are empty, make no difference. */
  lemma CheckWinSeesOnlyMover(player: int, b1: seq<Cell>, b2: seq<Cell>)
    requires |b1| == Size && |b2| == Size
    requires forall k :: 0 <= k < Size ==> (b1[k] == Marked(SymbolOf(player)) <==> b2[k] == Marked(SymbolOf(player)))
    ensures CheckWin(player, b1) == CheckWin(player, b2)
  {
    CheckWinCases(player, b1);
    CheckWinCases(player, b2);
  }

  /** What one move can lead to. */
  datatype Outcome = Won | Tied | Ongoing

  /** `win = checkWin(p, board)`; `tie = !win && checkTie(board)`: the win check comes first. */
  function Evaluate(player: int, board: seq<Cell>): (o: Outcome)
    requires |board| == Size
    ensures o == Won <==> ThreeInARow(board, SymbolOf(player))
    ensures o == Tied <==> !ThreeInARow(board, SymbolOf(player)) && forall k :: 0 <= k < Size ==> board[k] != Empty
  {
    CheckWinIsThreeInARow(player, board);
    var win := CheckWin(player, board);
    var tie := !win && CheckTie(board);
    if win then Won else if tie then Tied else Ongoing
  }

  /** A full board on which the mover has a line reports a win, never a tie. */
  lemma FullWinningBoardIsWin(player: int, board: seq<Cell>)
    requires |board| == Size
    requires forall k :: 0 <= k < Size ==> board[k] != Empty
    requires CheckWin(player, board)
    ensures Evaluate(player, board) == Won
    ensures !(Evaluate(player, board) == Tied)
  {
    CheckWinIsThreeInARow(player, board);
  }
}
