/** Range arithmetic on the 256-value hash space, with C's int promotion and uint8_t stores. */
module Ranges {
  import opened Base

  const LAST: byte := 255

  predicate InRange(h: int, lo: int, hi: int) {
    lo <= h <= hi
  }

  /** C division by two: truncation toward zero, also of a negative numerator. */
  function HalfTowardZero(x: int): int {
    if x >= 0 then x / 2 else -((-x) / 2)
  }

  /** The split point of send_new_range_and_entries, stored back into a uint8_t. */
  function Mid(lo: byte, hi: byte): byte {
    (HalfTowardZero(hi - lo) + lo) % 256
  }

  /** The first value handed to the joiner; the increment wraps in the uint8_t of the PDU. */
  function AfterMid(lo: byte, hi: byte): byte {
    (Mid(lo, hi) + 1) % 256
  }

  /** A split is legal exactly when the range holds more than one value: both halves are then
      non-empty, adjacent, and together the old range; the lower half is the larger by at most one. */
  lemma SplitIsLegalIff(lo: byte, hi: byte)
    requires lo <= hi
    ensures lo < hi <==>
            && lo <= Mid(lo, hi)
            && AfterMid(lo, hi) == Mid(lo, hi) + 1
            && AfterMid(lo, hi) <= hi
    ensures lo < hi ==>
              var lower := Mid(lo, hi) - lo + 1;
              var upper := hi - AfterMid(lo, hi) + 1;
              lower + upper == hi - lo + 1 && 0 <= lower - upper <= 1
  {
  }

  /** The one range whose split wraps. */
  lemma WrapIff(lo: byte, hi: byte)
    requires lo <= hi
    ensures AfterMid(lo, hi) == 0 <==> lo == LAST
    ensures lo == LAST ==> Mid(lo, hi) == LAST
  {
    hide HalfTowardZero, Mid;
    SplitIsLegalIff(lo, hi);
    if lo == hi {
      MidOfOne(lo);
    }
  }

  lemma MidOfOne(h: byte)
    ensures Mid(h, h) == h
  {
    var half := HalfTowardZero(h - h);
    assert half == 0;
    assert half + h == h && h % 256 == h;
  }

  datatype Side = ToPredecessor | ToSuccessor | ToNobody

  /** update_range: the receiver's new range and the side the response goes to. */
  function UpdateRange(lo: byte, hi: byte, newLo: byte, newHi: byte): (byte, byte, Side) {
    if newLo < lo then (newLo, hi, ToPredecessor)
    else if newHi > hi then (lo, newHi, ToSuccessor)
    else (lo, hi, ToNobody)
  }
}
