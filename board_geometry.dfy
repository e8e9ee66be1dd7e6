/**
 * The board geometry the move-quality evaluator uses on top of the rules engine:
 * the squares a piece attacks from a square (a simplified pattern, not the rules
 * engine's move generation), the pin/skewer ray scan and the fork count.
 * A board is the map from occupied squares to pieces that the rules engine's
 * `get` reads.
 */
module BoardGeometry {
  import opened Text

  datatype Color = White | Black
  datatype Kind = Pawn | Knight | Bishop | Rook | Queen | King
  datatype Piece = Piece(color: Color, kind: Kind)

  /** A board coordinate, counted from 0: file a is 0, rank 1 is 0. */
  type Coord = x: int | 0 <= x < 8

  datatype Square = Square(file: Coord, rank: Coord)

  type Board = map<Square, Piece>

  /** A step between squares, in files and ranks. */
  datatype Offset = Offset(df: int, dr: int)

  /** The piece values of the evaluator; the king counts 0. */
  function Value(k: Kind): nat
  {
    match k
    case Pawn => 1
    case Knight => 3
    case Bishop => 3
    case Rook => 5
    case Queen => 9
    case King => 0
  }

  function Name(k: Kind): string
  {
    match k
    case Pawn => "pawn"
    case Knight => "knight"
    case Bishop => "bishop"
    case Rook => "rook"
    case Queen => "queen"
    case King => "king"
  }

  /** The algebraic name of a square, such as "e4". */
  function SquareName(s: Square): (name: string)
    ensures |name| == 2 && 'a' <= name[0] <= 'h' && '1' <= name[1] <= '8'
  {
    [(97 + s.file) as char, (49 + s.rank) as char]
  }

  predicate InRange(f: int, r: int)
  {
    0 <= f < 8 && 0 <= r < 8
  }

  /** The square `t` has coordinates (f, r). */
  predicate At(t: Square, f: int, r: int)
  {
    t.file == f && t.rank == r
  }

  const KnightOffsets: seq<Offset> :=
    [Offset(-2, -1), Offset(-2, 1), Offset(-1, -2), Offset(-1, 2), Offset(1, -2), Offset(1, 2), Offset(2, -1), Offset(2, 1)]
  const RookDirections: seq<Offset> := [Offset(1, 0), Offset(-1, 0), Offset(0, 1), Offset(0, -1)]
  const BishopDirections: seq<Offset> := [Offset(1, 1), Offset(1, -1), Offset(-1, 1), Offset(-1, -1)]
  const QueenDirections: seq<Offset> := RookDirections + BishopDirections

  // ---------------------------------------------------------------------------
  // Attacked squares: reference definition
  // ---------------------------------------------------------------------------

  /** The `addSq` closure: the square (f, r) is pushed only when it is on the board. */
  function AddSquare(squares: seq<Square>, f: int, r: int): seq<Square>
  {
    if InRange(f, r) then squares + [Square(f, r)] else squares
  }

  /** The on-board squares at the given offsets from `s`, in offset order. */
  function Targets(s: Square, offsets: seq<Offset>): seq<Square>
  {
    if offsets == [] then []
    else
      var o := offsets[|offsets| - 1];
      AddSquare(Targets(s, offsets[..|offsets| - 1]), s.file + o.df, s.rank + o.dr)
  }

  /**
   * The slider ray from (f, r) along `d`, at most `steps` squares: it stops at the
   * edge of the board and includes the first occupied square, then stops.
   */
  function Ray(board: Board, f: int, r: int, d: Offset, steps: nat): seq<Square>
    decreases steps
  {
    if steps == 0 then []
    else
      var nf := f + d.df;
      var nr := r + d.dr;
      if !InRange(nf, nr) then []
      else if Square(nf, nr) in board then [Square(nf, nr)]
      else [Square(nf, nr)] + Ray(board, nf, nr, d, steps - 1)
  }

  /** The rays in the given directions, one after the other (the loop `i` runs from 1 to 7). */
  function Rays(board: Board, s: Square, dirs: seq<Offset>): seq<Square>
  {
    if dirs == [] then [] else Rays(board, s, dirs[..|dirs| - 1]) + Ray(board, s.file, s.rank, dirs[|dirs| - 1], 7)
  }

  function PawnDirection(color: Color): int
  {
    if color == White then 1 else -1
  }

  /** `getAttackedSquaresFrom`: the squares a piece of this kind and colour attacks from `s`. */
  function AttackedSquares(board: Board, s: Square, kind: Kind, color: Color): seq<Square>
  {
    match kind
    case Knight => Targets(s, KnightOffsets)
    case Bishop => Rays(board, s, BishopDirections)
    case Rook => Rays(board, s, RookDirections)
    case Queen => Rays(board, s, QueenDirections)
    case Pawn => AddSquare(AddSquare([], s.file - 1, s.rank + PawnDirection(color)), s.file + 1, s.rank + PawnDirection(color))
    case King => []
  }

  // ---------------------------------------------------------------------------
  // Attacked squares: properties
  // ---------------------------------------------------------------------------

  lemma {:induction false} TargetsBound(s: Square, offsets: seq<Offset>)
    ensures |Targets(s, offsets)| <= |offsets|
    ensures forall k :: 0 <= k < |Targets(s, offsets)| ==>
              exists j :: 0 <= j < |offsets| && At(Targets(s, offsets)[k], s.file + offsets[j].df, s.rank + offsets[j].dr)
  {
    if offsets != [] {
      var init := offsets[..|offsets| - 1];
      TargetsBound(s, init);
      var o := offsets[|offsets| - 1];
      forall k | 0 <= k < |Targets(s, offsets)|
        ensures exists j :: 0 <= j < |offsets| && At(Targets(s, offsets)[k], s.file + offsets[j].df, s.rank + offsets[j].dr)
      {
        if k < |Targets(s, init)| {
          var j :| 0 <= j < |init| && At(Targets(s, init)[k], s.file + init[j].df, s.rank + init[j].dr);
          assert offsets[j] == init[j];
        } else {
          assert At(Targets(s, offsets)[k], s.file + o.df, s.rank + o.dr);
          assert offsets[|offsets| - 1] == o;
        }
      }
    }
  }

  /**
   * A ray has at most `steps` squares on one line: the first is one step from
   * (f, r), each next one a step further; all but the last are empty.
   */
  lemma {:induction false} RayShape(board: Board, f: int, r: int, d: Offset, steps: nat)
    ensures var ray := Ray(board, f, r, d, steps);
      && |ray| <= steps
      && (|ray| > 0 ==> At(ray[0], f + d.df, r + d.dr))
      && (forall k :: 0 <= k < |ray| - 1 ==> ray[k] !in board && At(ray[k + 1], ray[k].file + d.df, ray[k].rank + d.dr))
    decreases steps
  {
    if steps > 0 && InRange(f + d.df, r + d.dr) && Square(f + d.df, r + d.dr) !in board {
      var nf, nr := f + d.df, r + d.dr;
      RayShape(board, nf, nr, d, steps - 1);
      var ray := Ray(board, f, r, d, steps);
      var rest := Ray(board, nf, nr, d, steps - 1);
      assert ray == [Square(nf, nr)] + rest;
      forall k | 0 <= k < |ray| - 1
        ensures ray[k] !in board && At(ray[k + 1], ray[k].file + d.df, ray[k].rank + d.dr)
      {
        if k > 0 {
          assert ray[k] == rest[k - 1] && ray[k + 1] == rest[k];
        }
      }
    }
  }

  /**
   * A ray stays on the board, and a ray shorter than `steps` stopped for a
   * reason: its last square is occupied, or the next step leaves the board.
   */
  lemma {:induction false} RayStops(board: Board, f: int, r: int, d: Offset, steps: nat)
    ensures var ray := Ray(board, f, r, d, steps);
      forall k :: 0 <= k < |ray| ==> InRange(ray[k].file, ray[k].rank)
    ensures var ray := Ray(board, f, r, d, steps);
      var (lf, lr) := if ray == [] then (f, r) else (ray[|ray| - 1].file, ray[|ray| - 1].rank);
      |ray| < steps ==> (ray != [] && ray[|ray| - 1] in board) || !InRange(lf + d.df, lr + d.dr)
    decreases steps
  {
    if steps > 0 && InRange(f + d.df, r + d.dr) && Square(f + d.df, r + d.dr) !in board {
      var nf, nr := f + d.df, r + d.dr;
      RayStops(board, nf, nr, d, steps - 1);
      var ray := Ray(board, f, r, d, steps);
      var rest := Ray(board, nf, nr, d, steps - 1);
      assert ray == [Square(nf, nr)] + rest;
      forall k | 0 < k < |ray|
        ensures InRange(ray[k].file, ray[k].rank)
      {
        assert ray[k] == rest[k - 1];
      }
      if rest != [] {
        assert ray[|ray| - 1] == rest[|rest| - 1];
      }
    }
  }

  /** A knight attacks at most the eight knight offsets. */
  lemma KnightAtMostEight(board: Board, s: Square, color: Color)
    ensures |AttackedSquares(board, s, Knight, color)| <= 8
  {
    TargetsBound(s, KnightOffsets);
  }

  /** A pawn attacks only the two forward diagonals of its colour, each when it is on the board. */
  lemma PawnDiagonals(board: Board, s: Square, color: Color)
    ensures var a := AttackedSquares(board, s, Pawn, color);
      && |a| <= 2
      && (forall k :: 0 <= k < |a| ==> a[k].rank == s.rank + PawnDirection(color)
                                       && (a[k].file == s.file - 1 || a[k].file == s.file + 1))
      && (InRange(s.file - 1, s.rank + PawnDirection(color)) ==> Square(s.file - 1, s.rank + PawnDirection(color)) in a)
      && (InRange(s.file + 1, s.rank + PawnDirection(color)) ==> Square(s.file + 1, s.rank + PawnDirection(color)) in a)
  {
  }

  /** A king attacks nothing in this pattern. */
  lemma KingAttacksNothing(board: Board, s: Square, color: Color)
    ensures AttackedSquares(board, s, King, color) == []
  {
  }

  // ---------------------------------------------------------------------------
  // Attacked squares: the loops
  // ---------------------------------------------------------------------------

  /** The inner `for (let i = 1; i < 8; i++)` loop of one slider direction, with its two breaks. */
  method SlideOne(board: Board, s: Square, d: Offset, squares0: seq<Square>) returns (squares: seq<Square>)
    ensures squares == squares0 + Ray(board, s.file, s.rank, d, 7)
  {
    squares := squares0;
    var f, r := s.file, s.rank;
    var i := 1;
    while i < 8
      invariant 1 <= i <= 8
      invariant squares + Ray(board, f, r, d, 8 - i) == squares0 + Ray(board, s.file, s.rank, d, 7)
      decreases 8 - i
    {
      f, r := f + d.df, r + d.dr;
      if !InRange(f, r) {
        break;
      }
      var sq := Square(f, r);
      assert (squares + [sq]) + Ray(board, f, r, d, 8 - i - 1) == squares + ([sq] + Ray(board, f, r, d, 8 - i - 1));
      squares := squares + [sq];
      if sq in board {
        break;
      }
      i := i + 1;
    }
  }

  method Slide(board: Board, s: Square, dirs: seq<Offset>) returns (squares: seq<Square>)
    ensures squares == Rays(board, s, dirs)
  {
    squares := [];
    for j := 0 to |dirs|
      invariant squares == Rays(board, s, dirs[..j])
    {
      assert dirs[..j + 1][..j] == dirs[..j];
      squares := SlideOne(board, s, dirs[j], squares);
    }
    assert dirs[..|dirs|] == dirs;
  }

  /** `getAttackedSquaresFrom`, loop by loop. */
  method AttackedSquaresFrom(board: Board, s: Square, kind: Kind, color: Color) returns (squares: seq<Square>)
    ensures squares == AttackedSquares(board, s, kind, color)
  {
    squares := [];
    if kind == Knight {
      for k := 0 to |KnightOffsets|
        invariant squares == Targets(s, KnightOffsets[..k])
      {
        assert KnightOffsets[..k + 1][..k] == KnightOffsets[..k];
        squares := AddSquare(squares, s.file + KnightOffsets[k].df, s.rank + KnightOffsets[k].dr);
      }
      assert KnightOffsets[..|KnightOffsets|] == KnightOffsets;
    } else if kind == Bishop {
      squares := Slide(board, s, BishopDirections);
    } else if kind == Rook {
      squares := Slide(board, s, RookDirections);
    } else if kind == Queen {
      squares := Slide(board, s, QueenDirections);
    } else if kind == Pawn {
      var dir := if color == White then 1 else -1;
      squares := AddSquare(squares, s.file - 1, s.rank + dir);
      squares := AddSquare(squares, s.file + 1, s.rank + dir);
    }
  }

  // ---------------------------------------------------------------------------
  // Pins and skewers
  // ---------------------------------------------------------------------------

  /** The pieces met along a ray from (f, r), in order, up to the edge of the board. */
  function Occupants(board: Board, f: int, r: int, d: Offset, steps: nat): seq<Piece>
    decreases steps
  {
    if steps == 0 then []
    else
      var nf := f + d.df;
      var nr := r + d.dr;
      if !InRange(nf, nr) then []
      else (if Square(nf, nr) in board then [board[Square(nf, nr)]] else []) + Occupants(board, nf, nr, d, steps - 1)
  }

  /** The first two pieces on the ray both belong to the opponent of `color`. */
  predicate TwoEnemiesFirst(pieces: seq<Piece>, color: Color)
  {
    |pieces| >= 2 && pieces[0].color != color && pieces[1].color != color
  }

  predicate IsSlider(kind: Kind)
  {
    kind == Bishop || kind == Rook || kind == Queen
  }

  function Directions(kind: Kind): seq<Offset>
  {
    if kind == Rook then RookDirections else if kind == Bishop then BishopDirections else QueenDirections
  }

  /**
   * `createsPinOrSkewer`: a slider whose destination sees, along one of its
   * directions, two opponent pieces before any piece of its own.
   */
  predicate PinOrSkewer(board: Board, to: Square, kind: Kind, color: Color)
  {
    IsSlider(kind)
    && exists k :: 0 <= k < |Directions(kind)| && TwoEnemiesFirst(Occupants(board, to.file, to.rank, Directions(kind)[k], 7), color)
  }

  /**
   * The scan along one direction as the loop performs it, having already met
   * `found` opponent pieces: true as soon as a second one is met, false at a
   * piece of its own or the edge.
   */
  function ScanFrom(board: Board, f: int, r: int, d: Offset, steps: nat, found: nat, color: Color): bool
    decreases steps
  {
    if steps == 0 then false
    else
      var nf := f + d.df;
      var nr := r + d.dr;
      if !InRange(nf, nr) then false
      else if Square(nf, nr) !in board then ScanFrom(board, nf, nr, d, steps - 1, found, color)
      else if board[Square(nf, nr)].color == color then false
      else found + 1 >= 2 || ScanFrom(board, nf, nr, d, steps - 1, found + 1, color)
  }

  /** The scan answers whether the first two pieces on the ray are both the opponent's. */
  lemma {:induction false} ScanFromMeaning(board: Board, f: int, r: int, d: Offset, steps: nat, seen: seq<Piece>, color: Color)
    requires |seen| <= 1 && forall k :: 0 <= k < |seen| ==> seen[k].color != color
    ensures ScanFrom(board, f, r, d, steps, |seen|, color) == TwoEnemiesFirst(seen + Occupants(board, f, r, d, steps), color)
    decreases steps
  {
    if steps > 0 && InRange(f + d.df, r + d.dr) {
      var nf, nr := f + d.df, r + d.dr;
      var rest := Occupants(board, nf, nr, d, steps - 1);
      if Square(nf, nr) !in board {
        ScanFromMeaning(board, nf, nr, d, steps - 1, seen, color);
      } else {
        var p := board[Square(nf, nr)];
        assert seen + Occupants(board, f, r, d, steps) == (seen + [p]) + rest;
        if p.color != color && |seen| == 0 {
          ScanFromMeaning(board, nf, nr, d, steps - 1, [p], color);
        }
      }
    }
  }

  /** The scan from the target square, with nothing seen yet, answers the ray question. */
  lemma ScanDirectionMeaning(board: Board, to: Square, d: Offset, color: Color)
    ensures ScanFrom(board, to.file, to.rank, d, 7, 0, color) == TwoEnemiesFirst(Occupants(board, to.file, to.rank, d, 7), color)
  {
    ScanFromMeaning(board, to.file, to.rank, d, 7, [], color);
    assert [] + Occupants(board, to.file, to.rank, d, 7) == Occupants(board, to.file, to.rank, d, 7);
  }

  /** The scan along one direction, with the loop's counter and its two exits. */
  method ScanDirection(board: Board, to: Square, d: Offset, color: Color) returns (found2: bool)
    ensures found2 == TwoEnemiesFirst(Occupants(board, to.file, to.rank, d, 7), color)
  {
    ScanDirectionMeaning(board, to, d, color);
    var foundPieces := 0;
    var f, r := to.file, to.rank;
    var i := 1;
    while i < 8
      invariant 1 <= i <= 8 && 0 <= foundPieces <= 1
      invariant ScanFrom(board, to.file, to.rank, d, 7, 0, color) == ScanFrom(board, f, r, d, 8 - i, foundPieces, color)
      decreases 8 - i
    {
      f, r := f + d.df, r + d.dr;
      if !InRange(f, r) {
        return false;
      }
      var sq := Square(f, r);
      if sq in board {
        if board[sq].color != color {
          foundPieces := foundPieces + 1;
        } else {
          return false;
        }
        if foundPieces >= 2 {
          return true;
        }
      }
      i := i + 1;
    }
    return false;
  }

  method CreatesPinOrSkewer(board: Board, to: Square, kind: Kind, color: Color) returns (b: bool)
    ensures b == PinOrSkewer(board, to, kind, color)
  {
    if !IsSlider(kind) {
      return false;
    }
    var dirs := Directions(kind);
    for j := 0 to |dirs|
      invariant forall k :: 0 <= k < j ==> !TwoEnemiesFirst(Occupants(board, to.file, to.rank, dirs[k], 7), color)
    {
      var hit := ScanDirection(board, to, dirs[j], color);
      if hit {
        return true;
      }
    }
    return false;
  }

  /** A non-slider never creates a pin or skewer. */
  lemma NonSliderNoPin(board: Board, to: Square, kind: Kind, color: Color)
    requires !IsSlider(kind)
    ensures !PinOrSkewer(board, to, kind, color)
  {
  }

  // ---------------------------------------------------------------------------
  // Forks
  // ---------------------------------------------------------------------------

  /** An opponent piece worth at least 3 on the square. */
  predicate ValuableEnemyAt(board: Board, color: Color, s: Square)
  {
    s in board && board[s].color != color && Value(board[s].kind) >= 3
  }

  function ValuableTargets(board: Board, attacked: seq<Square>, color: Color): seq<Square>
  {
    Filter(attacked, s => ValuableEnemyAt(board, color, s))
  }

  /** `detectFork` in tenths: 4 points when at least two attacked squares hold valuable opponent pieces. */
  function ForkBonus(board: Board, attacked: seq<Square>, color: Color): (bonus: int)
    ensures bonus == 40 || bonus == 0
  {
    if |ValuableTargets(board, attacked, color)| >= 2 then 40 else 0
  }

  /** Only opponent pieces worth at least 3 count, so a king never makes a fork. */
  lemma ForkTargetsAreValuable(board: Board, attacked: seq<Square>, color: Color)
    ensures forall k :: 0 <= k < |ValuableTargets(board, attacked, color)| ==>
              var s := ValuableTargets(board, attacked, color)[k];
              s in board && board[s].color != color && board[s].kind != King
    ensures ForkBonus(board, attacked, color) == 40 <==> Count(attacked, s => ValuableEnemyAt(board, color, s)) >= 2
  {
  }

  /** `detectFork`: the valuable opponent pieces among the attacked squares, counted one by one. */
  method DetectFork(board: Board, attacked: seq<Square>, color: Color) returns (bonus: int)
    ensures bonus == ForkBonus(board, attacked, color)
  {
    var valuable := 0;
    for i := 0 to |attacked|
      invariant valuable == Count(attacked[..i], s => ValuableEnemyAt(board, color, s))
    {
      assert attacked[..i + 1][..i] == attacked[..i];
      if attacked[i] in board && board[attacked[i]].color != color && Value(board[attacked[i]].kind) >= 3 {
        valuable := valuable + 1;
      }
    }
    assert attacked[..|attacked|] == attacked;
    bonus := if valuable >= 2 then 40 else 0;
  }
}
