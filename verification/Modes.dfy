/** Lock modes and their compatibility: the table at the top of the lock manager and the facts about it
    that the grant engine and the wire protocol lean on. */
module Modes {

  /** -1 is "no mode"; 0..5 are null, concurrent read, concurrent write, protected read, protected
      write and exclusive. */
  type Mode = m: int | -1 <= m <= 5

  const IV: Mode := -1
  const NL: Mode := 0
  const CR: Mode := 1
  const CW: Mode := 2
  const PR: Mode := 3
  const PW: Mode := 4
  const EX: Mode := 5

  /** Two modes that different owners may hold at once. */
  predicate Compat(a: Mode, b: Mode) {
    || a <= NL || b <= NL
    || (a == CR && b != EX) || (b == CR && a != EX)
    || (a == CW && b == CW)
    || (a == PR && b == PR)
  }

  /** The 8 by 8 table as the source stores it, indexed by mode + 1; the last row and column are padding. */
  const COMPAT_MATRIX: seq<seq<int>> := [
    [1, 1, 1, 1, 1, 1, 1, 0],
    [1, 1, 1, 1, 1, 1, 1, 0],
    [1, 1, 1, 1, 1, 1, 0, 0],
    [1, 1, 1, 1, 0, 0, 0, 0],
    [1, 1, 1, 0, 1, 0, 0, 0],
    [1, 1, 1, 0, 0, 0, 0, 0],
    [1, 1, 0, 0, 0, 0, 0, 0],
    [0, 0, 0, 0, 0, 0, 0, 0]]

  /** Conversions the caller may ask to have queued (QUECVT). */
  predicate QuecvtCompat(gr: Mode, rq: Mode) {
    gr >= NL && rq > NL && gr != EX && (rq > gr || (gr == PR && rq == CW)) && !(gr == PW && rq < EX)
  }

  const QUECVT_MATRIX: seq<seq<int>> := [
    [0, 0, 0, 0, 0, 0, 0, 0],
    [0, 0, 1, 1, 1, 1, 1, 0],
    [0, 0, 0, 1, 1, 1, 1, 0],
    [0, 0, 0, 0, 1, 1, 1, 0],
    [0, 0, 0, 1, 0, 1, 1, 0],
    [0, 0, 0, 0, 0, 0, 1, 0],
    [0, 0, 0, 0, 0, 0, 0, 0],
    [0, 0, 0, 0, 0, 0, 0, 0]]

  /** A switch between concurrent write and protected read, the two modes of which neither contains the other. */
  predicate MiddleConversion(gr: Mode, rq: Mode) {
    (gr == PR && rq == CW) || (rq == PR && gr == CW)
  }

  predicate DownConversion(gr: Mode, rq: Mode) {
    !MiddleConversion(gr, rq) && rq < gr
  }

  /** Everything that may stand beside `b` may stand beside `a`. */
  ghost predicate NoStronger(a: Mode, b: Mode) {
    forall x: Mode :: Compat(b, x) ==> Compat(a, x)
  }

  /** The closed forms above are the tables. */
  lemma MatricesAgree(a: Mode, b: Mode)
    ensures Compat(a, b) <==> COMPAT_MATRIX[a + 1][b + 1] == 1
    ensures QuecvtCompat(a, b) <==> QUECVT_MATRIX[a + 1][b + 1] == 1
  {
    if a == IV {} else if a == NL {} else if a == CR {} else if a == CW {} else if a == PR {} else if a == PW {} else {}
  }

  /** Strength is the numeric order, except that no mode and null are equally weak and that the middle
      pair is unordered. */
  lemma StrengthIsNumeric(a: Mode, b: Mode)
    ensures NoStronger(a, b) <==> a <= NL || (a <= b && !MiddleConversion(a, b))
  {
    if a > NL {
      if b < a || MiddleConversion(a, b) {
        assert Compat(b, EX) || Compat(b, PW) || Compat(b, PR) || Compat(b, CW) || Compat(b, CR);
      }
    }
  }
}
