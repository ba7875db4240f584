/**
 * Grouping a number into chunks of four decimal digits, least significant
 * first, each printed in plain decimal and followed by the separator word
 * of its position (萬, 億, ... for positions 1, 2, ...). Both separator
 * front ends print this shape; they differ only in whether an all-zero
 * chunk is printed or skipped, which `skipZero` selects.
 */
module Grouping {
  import opened Results
  import opened Positional
  import opened Widths

  /**
   * A request as it arrives once decoded: the value, an optional language
   * and region, and optional custom separator words.
   */
  datatype SepInput = SepInput(
    value: U64,
    lang: Option<string>,
    region: Option<string>,
    separators: Option<seq<string>>)

  /** Why a request is refused; the human-readable messages are not modelled. */
  datatype SeparatorError =
    | UnsupportedLanguageRegion(lang: string, region: string)
    | RegionWithoutLanguage
    | NoSeparatorSource

  /** A chunk holds four decimal digits. */
  const CHUNK: nat := 10000

  /**
   * The separator after the chunk at position `step`: none for the lowest
   * chunk, `seps[step - 1]` while the table lasts, and none past its end.
   */
  function SepAt(seps: seq<string>, step: nat): string {
    if 0 < step <= |seps| then seps[step - 1] else ""
  }

  /** What one chunk contributes: nothing when it is skipped, else its digits and separator. */
  function Piece(chunk: nat, step: nat, seps: seq<string>, skipZero: bool): string {
    if skipZero && chunk == 0 then "" else DecimalString(chunk) + SepAt(seps, step)
  }

  /**
   * The grouped form of `v`, whose lowest chunk sits at position `step`:
   * built the way the loops build it, lowest chunk last in the string and
   * each higher chunk put in front.
   */
  function Grouped(v: nat, seps: seq<string>, step: nat, skipZero: bool): string
    decreases v
  {
    if v == 0 then "" else Grouped(v / CHUNK, seps, step + 1, skipZero) + Piece(v % CHUNK, step, seps, skipZero)
  }

  /**
   * The invariant of every grouping loop: the grouped form of the whole
   * value is the grouped form of what remains to be printed, from position
   * `step` on, followed by what is built so far.
   */
  predicate Pending(value: nat, rest: nat, seps: seq<string>, step: nat, skipZero: bool, built: string) {
    Grouped(value, seps, 0, skipZero) == Grouped(rest, seps, step, skipZero) + built
  }

  /** A skipped zero chunk adds nothing, and the position still advances. */
  lemma TurnSkippingZero(value: nat, rest: nat, seps: seq<string>, step: nat, built: string)
    requires rest > 0 && rest % CHUNK == 0 && Pending(value, rest, seps, step, true, built)
    ensures Pending(value, rest / CHUNK, seps, step + 1, true, built)
  {
    var upper := Grouped(rest / CHUNK, seps, step + 1, true);
    assert Grouped(rest, seps, step, true) == upper + "";
    assert upper + "" == upper;
  }

  /** The lowest chunk, printed first, is its digits alone. */
  lemma TurnFirst(value: nat, rest: nat, seps: seq<string>, skipZero: bool)
    requires rest > 0 && (skipZero ==> rest % CHUNK != 0) && Pending(value, rest, seps, 0, skipZero, "")
    ensures Pending(value, rest / CHUNK, seps, 1, skipZero, DecimalString(rest % CHUNK))
  {
    var upper := Grouped(rest / CHUNK, seps, 1, skipZero);
    var digits := DecimalString(rest % CHUNK);
    assert Grouped(rest, seps, 0, skipZero) == upper + (digits + "");
    assert upper + (digits + "") + "" == upper + digits;
  }

  /** A later chunk goes in front of what is built, followed by its position's separator. */
  lemma TurnLater(value: nat, rest: nat, seps: seq<string>, step: nat, skipZero: bool, built: string)
    requires rest > 0 && step > 0 && (skipZero ==> rest % CHUNK != 0)
    requires Pending(value, rest, seps, step, skipZero, built)
    ensures Pending(value, rest / CHUNK, seps, step + 1, skipZero, DecimalString(rest % CHUNK) + SepAt(seps, step) + built)
  {
    var piece := DecimalString(rest % CHUNK) + SepAt(seps, step);
    ConcatStep(Grouped(rest / CHUNK, seps, step + 1, skipZero), piece, built,
      Grouped(rest, seps, step, skipZero), piece + built);
  }

  /** Once nothing remains, what is built is the grouped form. */
  lemma LoopDone(value: nat, seps: seq<string>, step: nat, skipZero: bool, built: string)
    requires Pending(value, 0, seps, step, skipZero, built)
    ensures built == Grouped(value, seps, 0, skipZero)
  {
    assert "" + built == built;
  }

  lemma ConcatStep(a: string, b: string, c: string, x: string, y: string)
    requires x == a + b && b + c == y
    ensures x + c == a + y
  {
  }

  // ---------------------------------------------------------------------
  // An independent, position-indexed description

  /** The chunk at position i, counting from the lowest at 0. */
  function Chunk(v: nat, i: nat): nat {
    if i == 0 then v % CHUNK else Chunk(v / CHUNK, i - 1)
  }

  /** The chunk at position i is digits 4i .. 4i+3 from the right. */
  lemma {:induction false} ChunkIsPositional(v: nat, i: nat)
    ensures Chunk(v, i) == v / Pow(CHUNK, i) % CHUNK
  {
    if i > 0 {
      ChunkIsPositional(v / CHUNK, i - 1);
      DivDiv(v, CHUNK, Pow(CHUNK, i - 1));
    }
  }

  /** How many chunks `v` has; 0 has none. */
  function ChunkCount(v: nat): nat
    decreases v
  {
    if v == 0 then 0 else 1 + ChunkCount(v / CHUNK)
  }

  /** The pieces of chunks n-1 down to i, most significant first, chunk j at position step + j. */
  function Pieces(v: nat, seps: seq<string>, step: nat, skipZero: bool, i: nat, n: nat): string
    decreases n - i
  {
    if i >= n then "" else Pieces(v, seps, step, skipZero, i + 1, n) + Piece(Chunk(v, i), step + i, seps, skipZero)
  }

  /** Dropping the lowest chunk moves every other chunk down one position and up one step. */
  lemma {:induction false} PiecesShift(v: nat, seps: seq<string>, step: nat, skipZero: bool, i: nat, n: nat)
    ensures Pieces(v / CHUNK, seps, step + 1, skipZero, i, n) == Pieces(v, seps, step, skipZero, i + 1, n + 1)
    decreases n - i
  {
    if i < n {
      PiecesShift(v, seps, step, skipZero, i + 1, n);
      assert Chunk(v, i + 1) == Chunk(v / CHUNK, i);
    }
  }

  /**
   * The grouped form lists the chunks most significant first, the chunk at
   * position i followed by the separator of position step + i, zero chunks
   * left out when skipped.
   */
  lemma {:induction false} GroupedIsPieces(v: nat, seps: seq<string>, step: nat, skipZero: bool)
    ensures Grouped(v, seps, step, skipZero) == Pieces(v, seps, step, skipZero, 0, ChunkCount(v))
    decreases v
  {
    if v > 0 {
      var n := ChunkCount(v / CHUNK);
      var low := Piece(v % CHUNK, step, seps, skipZero);
      GroupedIsPieces(v / CHUNK, seps, step + 1, skipZero);
      PiecesShift(v, seps, step, skipZero, 0, n);
      assert ChunkCount(v) == n + 1;
      assert Pieces(v, seps, step, skipZero, 0, n + 1) == Pieces(v, seps, step, skipZero, 1, n + 1) + low;
    }
  }

  // ---------------------------------------------------------------------
  // Properties of the grouped form

  /** A positive value never groups to the empty string: its top chunk is not zero. */
  lemma {:induction false} GroupedNonEmpty(v: nat, seps: seq<string>, step: nat, skipZero: bool)
    requires v > 0
    ensures |Grouped(v, seps, step, skipZero)| > 0
    decreases v
  {
    if v / CHUNK > 0 {
      GroupedNonEmpty(v / CHUNK, seps, step + 1, skipZero);
    } else {
      assert v % CHUNK == v;
    }
  }

  /** When no chunk is zero, printing zero chunks or skipping them makes no difference. */
  lemma {:induction false} NoZeroChunkMeansNoSkip(v: nat, seps: seq<string>, step: nat)
    requires forall i :: 0 <= i < ChunkCount(v) ==> Chunk(v, i) != 0
    ensures Grouped(v, seps, step, true) == Grouped(v, seps, step, false)
    decreases v
  {
    if v > 0 {
      assert Chunk(v, 0) != 0;
      forall i | 0 <= i < ChunkCount(v / CHUNK)
        ensures Chunk(v / CHUNK, i) != 0
      {
        assert Chunk(v / CHUNK, i) == Chunk(v, i + 1);
      }
      NoZeroChunkMeansNoSkip(v / CHUNK, seps, step + 1);
    }
  }

  /** A zero chunk is skipped, yet the chunk above it still gets the separator of its own position. */
  lemma ZeroChunkKeepsPositions(v: nat, seps: seq<string>, step: nat)
    requires v > 0 && v % CHUNK == 0
    ensures Grouped(v, seps, step, true) == Grouped(v / CHUNK, seps, step + 1, true)
  {
  }
}
