/*
 * The STM32G4 clock configuration bit field: one 32-bit unsigned word that
 * carries the location of a clock-source selector inside the reset and clock
 * control (RCC) unit, together with the value to write there.
 *
 *   reg   bits [ 0 :  7]   byte offset of the RCC_CCIPRx register
 *   shift bits [ 8 : 12]   bit position of the selector inside that register
 *   mask  bits [13 : 15]   mask of the selector field (0x1, 0x3, 0x7)
 *   val   bits [16 : 18]   selector value (0 .. 7)
 *
 * Words are `bv32`: every argument is reduced to unsigned 32-bit arithmetic
 * before it is masked, as the `U`-suffixed constants of the header imply.
 */
module ClockField {

  // Field masks and offsets, with the header's names.
  const REG_MASK: bv32 := 0xFF
  const REG_SHIFT: bv32 := 0
  const SHIFT_MASK: bv32 := 0x1F
  const SHIFT_SHIFT: bv32 := 8
  const MASK_MASK: bv32 := 0x7
  const MASK_SHIFT: bv32 := 13
  const VAL_MASK: bv32 := 0x7
  const VAL_SHIFT: bv32 := 16

  /** One past the largest word `Pack` can produce: only bits 0 .. 18 are used. */
  const PACKED_LIMIT: bv32 := 0x8_0000

  /** The bits each field occupies once it is shifted into place. */
  function RegBits(): bv32 { REG_MASK << REG_SHIFT }
  function ShiftBits(): bv32 { SHIFT_MASK << SHIFT_SHIFT }
  function MaskBits(): bv32 { MASK_MASK << MASK_SHIFT }
  function ValBits(): bv32 { VAL_MASK << VAL_SHIFT }

  /** The four decoded fields of a clock configuration word. */
  datatype ClockConfig = ClockConfig(val: bv32, mask: bv32, shift: bv32, reg: bv32)
  {
    /** Every field fits its width in the layout. */
    predicate InRange()
    {
      reg <= REG_MASK && shift <= SHIFT_MASK && mask <= MASK_MASK && val <= VAL_MASK
    }
  }

  /**
   * The packer `STM32_CLOCK(val, mask, shift, reg)`: each argument is masked to
   * its field width and shifted to its offset; the four parts are OR-ed.
   * Out-of-range arguments are truncated silently, never rejected.
   */
  function Pack(val: bv32, mask: bv32, shift: bv32, reg: bv32): (w: bv32)
    ensures w < PACKED_LIMIT
    ensures w & !(RegBits() | ShiftBits() | MaskBits() | ValBits()) == 0
  {
    ((reg & REG_MASK) << REG_SHIFT)
    | ((shift & SHIFT_MASK) << SHIFT_SHIFT)
    | ((mask & MASK_MASK) << MASK_SHIFT)
    | ((val & VAL_MASK) << VAL_SHIFT)
  }

  /** Packs a decoded configuration, argument for argument. */
  function Encode(c: ClockConfig): (w: bv32)
    ensures w < PACKED_LIMIT
  {
    Pack(c.val, c.mask, c.shift, c.reg)
  }

  // Field extractors: the decoding the documented layout implies.

  function RegField(w: bv32): (r: bv32)
    ensures r <= REG_MASK
  {
    (w >> REG_SHIFT) & REG_MASK
  }

  function ShiftField(w: bv32): (s: bv32)
    ensures s <= SHIFT_MASK
  {
    (w >> SHIFT_SHIFT) & SHIFT_MASK
  }

  function MaskField(w: bv32): (m: bv32)
    ensures m <= MASK_MASK
  {
    (w >> MASK_SHIFT) & MASK_MASK
  }

  function ValField(w: bv32): (v: bv32)
    ensures v <= VAL_MASK
  {
    (w >> VAL_SHIFT) & VAL_MASK
  }

  /** Reads all four fields of a word. */
  function Decode(w: bv32): (c: ClockConfig)
    ensures c.InRange()
  {
    ClockConfig(ValField(w), MaskField(w), ShiftField(w), RegField(w))
  }

  /** The placed field masks do not share a bit, and together cover bits 0 .. 18. */
  lemma FieldsDisjoint()
    ensures RegBits() & ShiftBits() == 0 && RegBits() & MaskBits() == 0 && RegBits() & ValBits() == 0
    ensures ShiftBits() & MaskBits() == 0 && ShiftBits() & ValBits() == 0
    ensures MaskBits() & ValBits() == 0
    ensures RegBits() | ShiftBits() | MaskBits() | ValBits() == PACKED_LIMIT - 1
  {
  }

  /** Because the fields are disjoint, OR-ing the parts is the same as adding them. */
  lemma PackIsSum(val: bv32, mask: bv32, shift: bv32, reg: bv32)
    ensures Pack(val, mask, shift, reg)
         == ((reg & REG_MASK) << REG_SHIFT) + ((shift & SHIFT_MASK) << SHIFT_SHIFT)
          + ((mask & MASK_MASK) << MASK_SHIFT) + ((val & VAL_MASK) << VAL_SHIFT)
  {
  }

  /** Each field read back from a packed word is that argument, masked to its width. */
  lemma ExtractPack(val: bv32, mask: bv32, shift: bv32, reg: bv32)
    ensures RegField(Pack(val, mask, shift, reg)) == reg & REG_MASK
    ensures ShiftField(Pack(val, mask, shift, reg)) == shift & SHIFT_MASK
    ensures MaskField(Pack(val, mask, shift, reg)) == mask & MASK_MASK
    ensures ValField(Pack(val, mask, shift, reg)) == val & VAL_MASK
  {
  }

  /** Out-of-range arguments are truncated: packing sees only the low bits of each. */
  lemma PackTruncates(val: bv32, mask: bv32, shift: bv32, reg: bv32)
    ensures Pack(val, mask, shift, reg)
         == Pack(val & VAL_MASK, mask & MASK_MASK, shift & SHIFT_MASK, reg & REG_MASK)
    ensures Pack(val, mask, shift, reg) == Pack(val + 8, mask + 8, shift + 32, reg + 256)
  {
  }

  /** Decoding an encoded in-range configuration gives it back. */
  lemma DecodeEncode(c: ClockConfig)
    requires c.InRange()
    ensures Decode(Encode(c)) == c
  {
  }

  /** Encoding the decoded fields of any word below the limit gives the word back. */
  lemma EncodeDecode(w: bv32)
    requires w < PACKED_LIMIT
    ensures Encode(Decode(w)) == w
  {
  }

  /** Packing is injective on in-range arguments. */
  lemma EncodeInjective(c: ClockConfig, d: ClockConfig)
    requires c.InRange() && d.InRange()
    requires Encode(c) == Encode(d)
    ensures c == d
  {
  }

  /** Two argument tuples pack to the same word exactly when they agree on the low bits of every field. */
  lemma PackEqualIff(c: ClockConfig, d: ClockConfig)
    ensures Encode(c) == Encode(d)
        <==> (c.val & VAL_MASK == d.val & VAL_MASK && c.mask & MASK_MASK == d.mask & MASK_MASK
              && c.shift & SHIFT_MASK == d.shift & SHIFT_MASK && c.reg & REG_MASK == d.reg & REG_MASK)
  {
    ExtractPack(c.val, c.mask, c.shift, c.reg);
    ExtractPack(d.val, d.mask, d.shift, d.reg);
    PackTruncates(c.val, c.mask, c.shift, c.reg);
    PackTruncates(d.val, d.mask, d.shift, d.reg);
  }
}
