/**
 Grains on a chessboard: one grain on the first square, and every following
 square holds twice as many as the one before it.  `Square` gives the count on
 one square and rejects indices that are not on the board; `Total` adds the
 counts of all 64 squares.  Python integers are unbounded, so every count here
 is a mathematical `nat`: 2^64 - 1 does not wrap.
 */
module Grains {

  /** The number of squares on the board; valid indices are 1..BoardSquares. */
  const BoardSquares: nat := 64

  /** The message carried by the error raised for an index off the board. */
  const SquareRangeMessage: string := "square must be between 1 and 64"

  /** The only error the exercise raises. */
  datatype Error = ValueError(message: string)

  /** A value, or the error that would have been raised instead of returning it. */
  datatype Result<+T> = Ok(value: T) | Err(error: Error)

  /** True of the indices that name a square of the board. */
  predicate OnBoard(number: int) {
    1 <= number <= BoardSquares
  }

  /** 2 raised to the power `k`: Python's `2**k` for a non-negative exponent. */
  function Pow2(k: nat): (r: nat)
    ensures r >= 1
  {
    if k == 0 then 1 else 2 * Pow2(k - 1)
  }

  /** Powers of two multiply by adding exponents. */
  lemma {:induction false} Pow2Add(a: nat, b: nat)
    ensures Pow2(a + b) == Pow2(a) * Pow2(b)
  {
    if a > 0 {
      Pow2Add(a - 1, b);
    }
  }

  /** The two large powers the board reaches, written out as numerals. */
  lemma Pow2OfBoard()
    ensures Pow2(BoardSquares - 1) == 9223372036854775808
    ensures Pow2(BoardSquares) == 18446744073709551616
  {
    assert Pow2(8) == 256;
    Pow2Add(8, 8);
    Pow2Add(16, 16);
    Pow2Add(32, 31);
    Pow2Add(32, 32);
  }

  /**
   The number of grains on square `number`, or a ValueError when the index
   does not name a square of the board.
   */
  function Square(number: int): (r: Result<nat>)
    ensures r.Err? <==> number < 1 || number > BoardSquares
    ensures r.Err? ==> r.error == ValueError(SquareRangeMessage)
    ensures r.Ok? ==> r.value == Pow2(number - 1)
  {
    if !OnBoard(number) then Err(ValueError(SquareRangeMessage))
    else Ok(Pow2(number - 1))
  }

  /**
   Reference definition of the running total: the grains on squares 1..k,
   added one square at a time through `Square`.  Its closed form is 2^k - 1.
   */
  function GrainsThrough(k: nat): (r: nat)
    requires k <= BoardSquares
    ensures r == Pow2(k) - 1
  {
    if k == 0 then 0 else GrainsThrough(k - 1) + Square(k).value
  }

  /** The first square holds one grain and the last holds 2^63. */
  lemma SquareBoundaries()
    ensures Square(1) == Ok(1)
    ensures Square(BoardSquares) == Ok(9223372036854775808)
    ensures Square(0).Err? && Square(BoardSquares + 1).Err?
  {
    Pow2OfBoard();
  }

  /** Every square but the last is followed by one holding twice as many grains. */
  lemma SquareDoubling(n: int)
    requires 1 <= n < BoardSquares
    ensures Square(n).Ok? && Square(n + 1).Ok?
    ensures Square(n + 1).value == 2 * Square(n).value
  {
  }

  /**
   The grains on the whole board, summed square by square.  Reading the value
   out of each `Square(i)` obliges the verifier to show that the call never
   takes its error path, so the result is always a plain count.
   */
  method Total() returns (total: nat)
    ensures total == GrainsThrough(BoardSquares)
    ensures total == Pow2(BoardSquares) - 1
    ensures total == 18446744073709551615
  {
    total := 0;
    var i := 1;
    while i < BoardSquares + 1
      invariant 1 <= i <= BoardSquares + 1
      invariant total == GrainsThrough(i - 1)
    {
      total := total + Square(i).value;
      i := i + 1;
    }
    Pow2OfBoard();
  }
}
