/** Well-formed UTF-8, Table 3-7 of the Unicode Standard (section 4 of RFC 3629). */
module Utf8 {
  import opened Types

  predicate Tail(b: Byte) {
    0x80 <= b <= 0xBF
  }

  /** Length of the well-formed sequence at the front of bs, or 0. */
  function SequenceLength(bs: Bytes): (n: nat)
    ensures n <= |bs|
  {
    if bs == [] then 0
    else if bs[0] <= 0x7F then 1
    else if 0xC2 <= bs[0] <= 0xDF then if |bs| >= 2 && Tail(bs[1]) then 2 else 0
    else if 0xE0 <= bs[0] <= 0xEF then
      if |bs| >= 3 && Tail(bs[1]) && Tail(bs[2]) && (bs[0] == 0xE0 ==> bs[1] >= 0xA0) && (bs[0] == 0xED ==> bs[1] <= 0x9F)
      then 3 else 0
    else if 0xF0 <= bs[0] <= 0xF4 then
      if |bs| >= 4 && Tail(bs[1]) && Tail(bs[2]) && Tail(bs[3]) && (bs[0] == 0xF0 ==> bs[1] >= 0x90) && (bs[0] == 0xF4 ==> bs[1] <= 0x8F)
      then 4 else 0
    else 0
  }

  predicate IsValid(bs: Bytes) {
    bs == [] || (SequenceLength(bs) > 0 && IsValid(bs[SequenceLength(bs)..]))
  }
}
