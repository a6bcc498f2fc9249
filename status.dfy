/** The transaction status: a bitmask of independent flags. */
module Status {

  /** PHP's 64-bit integer, used as a set of flag bits. */
  type Bits = bv64

  const WAITING: Bits := 1
  const PAID: Bits := 2
  const DEPOSIT: Bits := 4
  const ERROR: Bits := 8

  predicate HasFlag(s: Bits, flag: Bits) { s & flag != 0 }

  /** addStatus: `status | p` turns on exactly the bits of `p`. */
  function SetBits(s: Bits, p: Bits): (r: Bits)
    ensures r & p == p
    ensures r & !p == s & !p
  {
    s | p
  }

  /** removeStatus: `status & ~p` turns off exactly the bits of `p`. */
  function ClearBits(s: Bits, p: Bits): (r: Bits)
    ensures r & p == 0
    ensures r & !p == s & !p
  {
    s & !p
  }

  /** markPaid: no longer waiting, paid, every other flag as before. */
  function Paid(s: Bits): (r: Bits)
    ensures !HasFlag(r, WAITING) && HasFlag(r, PAID)
    ensures r & !(WAITING | PAID) == s & !(WAITING | PAID)
    ensures r & DEPOSIT == s & DEPOSIT && r & ERROR == s & ERROR
  {
    SetBits(ClearBits(s, WAITING), PAID)
  }

  /** The contract of SetBits leaves no freedom: a value with the bits of `p`
      on and every other bit as in `s` is `SetBits(s, p)`. */
  lemma SetBitsIsDetermined(s: Bits, p: Bits, r: Bits)
    requires r & p == p && r & !p == s & !p
    ensures r == SetBits(s, p)
  {
    assert r == (r & p) | (r & !p);
  }

  /** Likewise for ClearBits. */
  lemma ClearBitsIsDetermined(s: Bits, p: Bits, r: Bits)
    requires r & p == 0 && r & !p == s & !p
    ensures r == ClearBits(s, p)
  {
    assert r == (r & p) | (r & !p);
  }

  /** Setting then clearing the same flags restores a status that did not
      have them. */
  lemma ClearUndoesSet(s: Bits, p: Bits)
    requires s & p == 0
    ensures ClearBits(SetBits(s, p), p) == s
  {
    assert s == (s & p) | (s & !p);
  }
}
