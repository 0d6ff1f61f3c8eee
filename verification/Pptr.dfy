/**
 Position-independent pointers: a pptr stores the distance from itself to its target, shifted left
 by 16 bits, with a pattern in the low bits whose last bit is the sign.  Words and addresses are
 64-bit; shifts and differences are written with their wrap-around.
 */
module Pptr {

  type Word = w: int | 0 <= w < 0x1_0000_0000_0000_0000

  const WORDS := 0x1_0000_0000_0000_0000
  const POS := 0x52b0
  const NEG := 0x52b1
  const SHIFTED := 0x1_0000
  const REACH := 0x1_0000_0000_0000
  const NULL: Word := 0

  function ToOff(v: Word, p: Word): Word {
    if v == NULL then POS
    else if v > p then (v - p) * SHIFTED % WORDS + POS
    else (p - v) * SHIFTED % WORDS + NEG
  }

  predicate IsNull(off: Word) {
    off == POS
  }

  // (off & 0xfffe) == POS
  predicate IsValid(off: Word) {
    off % SHIFTED == POS || off % SHIFTED == NEG
  }

  function FromOff(off: Word, p: Word): Word {
    if !IsValid(off) || IsNull(off) then NULL
    else if off % 2 == 1 then (p - off / SHIFTED) % WORDS
    else (p + off / SHIFTED) % WORDS
  }

  function Distance(v: Word, p: Word): (d: nat) {
    if v > p then v - p else p - v
  }

  // Targets the encoding is meant for: null, or closer than 2^48 bytes.
  predicate InReach(v: Word, p: Word) {
    v == NULL || Distance(v, p) < REACH
  }

  lemma HighBits(d: nat)
    ensures d * SHIFTED % WORDS == d % REACH * SHIFTED
  {
  }

  // The fields of a word.
  lemma Fields(high: nat, pattern: nat)
    requires high < REACH && (pattern == POS || pattern == NEG)
    ensures var off := high * SHIFTED + pattern;
      off / SHIFTED == high && off % SHIFTED == pattern && off % 2 == pattern % 2
  {
  }

  // What a non-null target decodes to: the distance comes back modulo 2^48.
  lemma Decoded(v: Word, p: Word)
    requires v != NULL
    ensures IsValid(ToOff(v, p))
    ensures var high := Distance(v, p) % REACH;
      FromOff(ToOff(v, p), p) == (if v <= p then p - high else if high == 0 then NULL else p + high)
  {
    var high := Distance(v, p) % REACH;
    HighBits(Distance(v, p));
    Fields(high, if v > p then POS else NEG);
  }

  // Decoding undoes encoding exactly for the targets in reach; v == p and null included.
  lemma RoundTrip(v: Word, p: Word)
    ensures IsValid(ToOff(v, p))
    ensures FromOff(ToOff(v, p), p) == v <==> InReach(v, p)
  {
    if v != NULL {
      Decoded(v, p);
      hide FromOff, ToOff;
    }
  }

  // The fields of a word written for a target in reach: the distance, and the sign in the pattern.
  lemma WrittenFields(v: Word, p: Word)
    requires InReach(v, p) && v != NULL
    ensures var off := ToOff(v, p);
      off / SHIFTED == (if v > p then v - p else p - v) && off % SHIFTED == (if v > p then POS else NEG)
  {
    HighBits(Distance(v, p));
    Fields(Distance(v, p), if v > p then POS else NEG);
  }

  lemma EncodingIsInjective(v: Word, w: Word, p: Word)
    requires InReach(v, p) && InReach(w, p) && ToOff(v, p) == ToOff(w, p)
    ensures v == w
  {
    RoundTrip(v, p);
    RoundTrip(w, p);
  }

  // Moving the holder and its target together leaves the stored word valid.
  lemma Relocation(v: Word, p: Word, v': Word, p': Word)
    requires InReach(v, p) && v' - p' == v - p && v != NULL && v' != NULL
    ensures ToOff(v', p') == ToOff(v, p) && FromOff(ToOff(v, p), p') == v'
  {
    RoundTrip(v', p');
  }

  // The words for pointers in reach, by their fields: the null word, or the sign and a distance that
  // does not wrap around and is not that of a null target.
  predicate Canonical(off: Word, p: Word) {
    var d := off / SHIFTED;
    || off == POS
    || (off % SHIFTED == POS && 0 < d && p + d < WORDS)
    || (off % SHIFTED == NEG && d < p)
  }

  // They are exactly the words that a pptr operation on a pointer in reach writes.
  lemma CanonicalIffWritten(off: Word, p: Word)
    ensures Canonical(off, p) <==> exists v: Word :: InReach(v, p) && off == ToOff(v, p)
  {
    var d := off / SHIFTED;
    if Canonical(off, p) && off != POS {
      var v: Word := if off % SHIFTED == POS then p + d else p - d;
      HighBits(d);
      assert InReach(v, p) && off == ToOff(v, p);
    }
    if off == POS { assert InReach(NULL, p) && off == ToOff(NULL, p); }
    forall v: Word | InReach(v, p) && off == ToOff(v, p) ensures Canonical(off, p) {
      if v != NULL {
        HighBits(Distance(v, p));
        Fields(Distance(v, p), if v > p then POS else NEG);
      }
    }
  }

  // Comparing a stored word with the encoding of the expected pointer is comparing pointers, for all
  // expected pointers in reach, exactly if the word is canonical, or if what it loads as is out of
  // reach and so is never expected.  No CAS matches, say, a zeroed word, although it loads as null.
  lemma WordTestIsPointerTestIff(off: Word, p: Word)
    ensures (forall e: Word :: InReach(e, p) ==> (off == ToOff(e, p) <==> FromOff(off, p) == e)) <==>
            Canonical(off, p) || !InReach(FromOff(off, p), p)
  {
    hide FromOff, ToOff, InReach, Canonical;
    CanonicalIffWritten(off, p);
    forall e: Word | InReach(e, p) ensures off == ToOff(e, p) ==> FromOff(off, p) == e {
      RoundTrip(e, p);
    }
  }

  lemma ZeroedWord(p: Word)
    ensures FromOff(0, p) == NULL && !Canonical(0, p)
    ensures InReach(NULL, p) && 0 != ToOff(NULL, p)
  {
  }

  lemma NullLoads(off: Word, p: Word)
    ensures IsNull(off) ==> FromOff(off, p) == NULL
  {
  }

  // An atomic pptr at address `self`.
  class AtomicPptr {
    const self: Word
    var off: Word

    predicate Valid()
      reads this
    {
      Canonical(off, self)
    }

    // The pointer the cell holds.
    function Target(): Word
      reads this
    {
      FromOff(off, self)
    }

    constructor (self: Word, v: Word)
      requires InReach(v, self)
      ensures this.self == self && Valid() && Target() == v
    {
      this.self, off := self, ToOff(v, self);
      new;
      RoundTrip(v, self);
      CanonicalIffWritten(off, self);
    }

    method Load() returns (v: Word)
      ensures v == Target()
    {
      v := FromOff(off, self);
    }

    method Store(v: Word)
      requires InReach(v, self)
      modifies this
      ensures Valid() && Target() == v
    {
      off := ToOff(v, self);
      RoundTrip(v, self);
      CanonicalIffWritten(off, self);
    }

    // A CAS on the words is a CAS on the pointers; a failure reports the pointer that was found.
    // `spurious` is the weak form's freedom to fail.
    method CompareExchange(expected: Word, desired: Word, spurious: bool) returns (ok: bool, seen: Word)
      requires Valid() && InReach(expected, self) && InReach(desired, self)
      modifies this
      ensures Valid() && ok == (old(Target()) == expected && !spurious)
      ensures Target() == if ok then desired else old(Target())
      ensures seen == if ok then expected else old(Target())
    {
      hide ToOff, FromOff, Canonical, InReach;
      var oldOff, newOff := ToOff(expected, self), ToOff(desired, self);
      CanonicalIffWritten(off, self);
      CanonicalIffWritten(newOff, self);
      RoundTrip(desired, self);
      WordTestIsPointerTestIff(off, self);
      NullLoads(off, self);
      if off == oldOff && !spurious {
        ok, seen, off := true, expected, newOff;
      } else {
        ok, seen := false, if IsNull(off) then NULL else FromOff(off, self);
      }
    }
  }
}
