# Grains and lasagna timing, in Dafny

This project models two introductory arithmetic exercises and proves what they promise.

- **Grains** (`grains.dfy`, module `Grains`). A chessboard has one grain on square 1. Each later square holds twice as many grains as the one before it.
  - `Square(number)` gives the grains on one square. For an index outside 1..64 it gives a `ValueError` with the message "square must be between 1 and 64".
  - `Total()` adds up all 64 squares with the same loop over squares 1..64 as `total()`.
  - Python integers are unbounded, so every count is a Dafny `nat` and nothing wraps at 64 bits.
  - The raised exception is modelled as the `Err` case of a `Result` datatype.
  - `Total` reads `Square(i).value` directly. Dafny therefore has to prove that `square` never takes its error path inside the loop, which is why `total()` never raises.
- **Lasagna** (`basics.dfy`, module `Lasagna`, models `exercism/basics.py`). This part covers the two constants (40 minutes of expected bake time and 2 minutes of preparation per layer) and three linear helpers built on them. Like the code, the model checks no inputs: negative layer counts and overdue bake times are accepted.

## Model

| member | source | states |
|---|---|---|
| Grains.Pow2 | exercism/grains.py:4 | `2**k` for a non-negative exponent is at least 1 |
| Grains.Square | exercism/grains.py:1-4 | Fails with the ValueError and its message exactly when number < 1 or number > 64; otherwise returns 2^(number-1) |
| Grains.SquareBoundaries | exercism/grains.py:1-4 | Square 1 holds 1 grain and square 64 holds 9223372036854775808; squares 0 and 65 are rejected |
| Grains.SquareDoubling | exercism/grains.py:4 | For 1 <= n < 64, square n+1 holds exactly twice the grains of square n |
| Grains.GrainsThrough | exercism/grains.py:8-10 | The running sum of `square(i)` over squares 1..k, added square by square; after squares 1..k the accumulator equals 2^k - 1 |
| Grains.Total | exercism/grains.py:7-11 | The loop never hits `square`'s error path; it returns the sum of all 64 squares, which is 2^64 - 1 = 18446744073709551615 |
| Lasagna.BakeTimeRemaining | exercism/basics.py:15-21 | Remaining time plus elapsed time is always 40; the result is negative exactly when more than 40 minutes have elapsed (there is no clamping) |
| Lasagna.PreparationTimeInMinutes | exercism/basics.py:24-30 | Preparation time is a multiple of the 2-minute per-layer time, and dividing by it gives back the layer count |
| Lasagna.PreparationAdditive | exercism/basics.py:30 | prep(a + b) = prep(a) + prep(b), and zero layers take zero minutes |
| Lasagna.PreparationPerLayer | exercism/basics.py:12 | Each extra layer adds exactly PREPARATION_TIME (2) minutes |
| Lasagna.ElapsedTimeInMinutes | exercism/basics.py:33-40 | Elapsed time minus the bake time equals the preparation time for the layers; with zero layers it is just the bake time |
| Lasagna.CookingTimeFixed | exercism/basics.py:15-40 | Elapsed time plus remaining bake time is preparation time plus 40, whatever the elapsed bake time is |

`Grains.Pow2Add` (exponents add when powers of two multiply) and `Grains.Pow2OfBoard` (2^63 and 2^64 written out as numerals) are helper lemmas for the proofs above.

## Left out

- `exercism/sqlite/difference-of-squares.py` is not modelled. It deletes a database file, opens SQLite connections, creates and fills a table, and prints rows. Its arithmetic is SQL text run by SQLite, so it depends on SQLite's integer-division and NULL semantics.
- Python's exception mechanism itself (raising and unwinding) is not modelled. The error is a returned `Err` value instead.
- The model covers only integer arguments. Python's dynamic typing would also accept a float such as `square(1.5)`, which passes the range check and yields a float. Every argument here is a Dafny `int`.
- Module docstrings and the trailing TODO comment of `basics.py` carry no behaviour.
- No member states that repeated calls with the same index give the same value. Every member is a pure function, so this holds by construction.
