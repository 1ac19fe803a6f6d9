/**
 * Per-slot decoding and encoding of a mask register: slot i of the flag list
 * is bit i of the register word (bit 0 the least significant). A set bit
 * whose slot is bound to a name yields that name; an unused slot never yields
 * a name and is always written as 0.
 */
module FlagMask {
  import opened Registers

  /** Bit `i` of `raw`, counting from the least significant bit. */
  predicate Bit(raw: nat, i: nat)
  {
    if i == 0 then raw % 2 == 1 else Bit(raw / 2, i - 1)
  }

  /** The zero word has no bit set. */
  lemma {:induction false} ZeroHasNoBits(i: nat)
    ensures !Bit(0, i)
  {
    if i > 0 {
      ZeroHasNoBits(i - 1);
    }
  }

  /** 2 to the power `n`: a word of `n` bits is below it. */
  function Pow2(n: nat): (r: nat)
    ensures r > 0
  {
    if n == 0 then 1 else 2 * Pow2(n - 1)
  }

  lemma {:induction false} Pow2Monotone(m: nat, n: nat)
    requires m <= n
    ensures Pow2(m) <= Pow2(n)
  {
    if m < n {
      Pow2Monotone(m, n - 1);
    }
  }

  lemma {:induction false} Pow2Add(m: nat, n: nat)
    ensures Pow2(m + n) == Pow2(m) * Pow2(n)
  {
    if n > 0 {
      Pow2Add(m, n - 1);
    }
  }

  /**
   * The names of the used slots whose bit is set in `raw`: every bound name
   * whose bit is set, and nothing else.
   */
  function Decode(slots: seq<Option<string>>, raw: nat): (r: set<string>)
    ensures r <= SlotNames(slots)
    ensures forall i | 0 <= i < |slots| && slots[i].Some? && Bit(raw, i) :: slots[i].value in r
    ensures forall n | n in r :: exists i | 0 <= i < |slots| && slots[i].Some? && slots[i].value == n :: Bit(raw, i)
  {
    set i | 0 <= i < |slots| && slots[i].Some? && Bit(raw, i) :: slots[i].value
  }

  /** With no name bound twice, a slot's name is decoded exactly when its bit is set. */
  lemma DecodeSlot(slots: seq<Option<string>>, raw: nat, i: nat)
    requires DistinctSlots(slots) && i < |slots| && slots[i].Some?
    ensures slots[i].value in Decode(slots, raw) <==> Bit(raw, i)
  {
    if slots[i].value in Decode(slots, raw) {
      var j :| 0 <= j < |slots| && slots[j].Some? && Bit(raw, j) && slots[j].value == slots[i].value;
      assert j == i;
    }
  }

  /** The zero word decodes to no name, whatever the slot list. */
  lemma DecodeZero(slots: seq<Option<string>>)
    ensures Decode(slots, 0) == {}
  {
    forall i: nat ensures !Bit(0, i) {
      ZeroHasNoBits(i);
    }
  }

  /**
   * The word that sets exactly the bits of the used slots whose names are in
   * `flags`: every other bit, unused slots and bits past the list included, is 0.
   */
  function Encode(slots: seq<Option<string>>, flags: set<string>): (r: nat)
    ensures r < Pow2(|slots|)
    ensures forall i: nat :: Bit(r, i) <==> i < |slots| && slots[i].Some? && slots[i].value in flags
  {
    if |slots| == 0 then
      assert forall i: nat :: !Bit(0, i) by {
        forall i: nat ensures !Bit(0, i) {
          ZeroHasNoBits(i);
        }
      }
      0
    else
      var low := if slots[0].Some? && slots[0].value in flags then 1 else 0;
      var high := Encode(slots[1..], flags);
      var r := 2 * high + low;
      assert forall i: nat :: Bit(r, i) <==> i < |slots| && slots[i].Some? && slots[i].value in flags by {
        forall i: nat ensures Bit(r, i) <==> i < |slots| && slots[i].Some? && slots[i].value in flags {
          if i > 0 {
            assert r / 2 == high;
            assert Bit(r, i) == Bit(high, i - 1);
          }
        }
      }
      r
  }

  /** No name is bound to two slots. */
  predicate DistinctSlots(slots: seq<Option<string>>)
  {
    forall i, j | 0 <= i < j < |slots| && slots[i].Some? && slots[j].Some? :: slots[i].value != slots[j].value
  }

  /** A slot list of at most 16 entries encodes into one 16-bit register word. */
  lemma EncodeFitsWord(slots: seq<Option<string>>, flags: set<string>)
    requires |slots| <= 16
    ensures Encode(slots, flags) < 0x1_0000
  {
    Pow2Monotone(|slots|, 16);
    Pow2Add(8, 8);
    Pow2Add(4, 4);
  }

  /** Decoding an encoded flag set gives back exactly the requested names the slot list binds. */
  lemma DecodeEncode(slots: seq<Option<string>>, flags: set<string>)
    ensures Decode(slots, Encode(slots, flags)) == flags * SlotNames(slots)
  {
    var r := Encode(slots, flags);
    forall n | n in flags * SlotNames(slots) ensures n in Decode(slots, r) {
      var i :| 0 <= i < |slots| && slots[i].Some? && slots[i].value == n;
      assert Bit(r, i);
    }
  }

  /**
   * Encoding a decoded word gives the word back with every bit of an unused
   * slot, and every bit past the list, cleared; this needs that no name is
   * bound to two slots.
   */
  lemma EncodeDecode(slots: seq<Option<string>>, raw: nat)
    requires DistinctSlots(slots)
    ensures forall i: nat :: Bit(Encode(slots, Decode(slots, raw)), i) <==> Bit(raw, i) && i < |slots| && slots[i].Some?
  {
    var e := Encode(slots, Decode(slots, raw));
    forall i: nat ensures Bit(e, i) <==> Bit(raw, i) && i < |slots| && slots[i].Some? {
      if i < |slots| && slots[i].Some? && slots[i].value in Decode(slots, raw) {
        var j :| 0 <= j < |slots| && slots[j].Some? && Bit(raw, j) && slots[j].value == slots[i].value;
        assert j == i;
      }
    }
  }

  /**
   * Decoding reads only the bits of used slots: two words that agree there
   * decode to the same names, whatever their reserved bits hold.
   */
  lemma DecodeIgnoresUnused(slots: seq<Option<string>>, raw: nat, raw': nat)
    requires forall i | 0 <= i < |slots| && slots[i].Some? :: Bit(raw, i) == Bit(raw', i)
    ensures Decode(slots, raw) == Decode(slots, raw')
  {
  }
}
