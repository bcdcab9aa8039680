/*
 * The STM32G4 peripheral clock-source selectors: each peripheral owns a 2-bit
 * field (mask 3) at a fixed position of RCC_CCIPR or RCC_CCIPR2, and its
 * `*_SEL(val)` helper is the clock configuration word for that field with only
 * the selector value left free.
 */
module ClockSelectors {
  import opened ClockField

  /** Byte offsets of the two clock configuration registers in the RCC unit. */
  const CCIPR_REG: bv32 := 0x88
  const CCIPR2_REG: bv32 := 0x9C

  /** The mask every selector uses: a 2-bit field. */
  const SEL_MASK: bv32 := 3

  /** The peripherals that have a selector, in declaration order. */
  datatype Peripheral =
    | USART1 | USART2 | USART3 | USART4 | USART5 | LPUART1
    | I2C1 | I2C2 | I2C3 | LPTIM1 | SAI1 | I2S23 | FDCAN | CLK48 | ADC12 | ADC34
    | I2C4 | QSPI

  /** The register that holds a peripheral's selector field. */
  function Register(p: Peripheral): (r: bv32)
    ensures r == CCIPR_REG || r == CCIPR2_REG
    ensures r == CCIPR2_REG <==> p == I2C4 || p == QSPI
  {
    match p
    case I2C4 | QSPI => CCIPR2_REG
    case _ => CCIPR_REG
  }

  /** The bit position of a peripheral's selector field inside its register. */
  function Position(p: Peripheral): (s: bv32)
    ensures s % 2 == 0 && s <= 30
  {
    match p
    case USART1 => 0
    case USART2 => 2
    case USART3 => 4
    case USART4 => 6
    case USART5 => 8
    case LPUART1 => 10
    case I2C1 => 12
    case I2C2 => 14
    case I2C3 => 16
    case LPTIM1 => 18
    case SAI1 => 20
    case I2S23 => 22
    case FDCAN => 24
    case CLK48 => 26
    case ADC12 => 28
    case ADC34 => 30
    case I2C4 => 0
    case QSPI => 20
  }

  /**
   * The helper `<p>_SEL(val)`: the clock configuration word for `p`'s field.
   * Reading the word back gives the peripheral's register and position, the
   * 2-bit mask and the selector value truncated to three bits.
   */
  function Selector(p: Peripheral, val: bv32): (w: bv32)
    ensures RegField(w) == Register(p) && ShiftField(w) == Position(p)
    ensures MaskField(w) == SEL_MASK && ValField(w) == val & VAL_MASK
  {
    Pack(val, SEL_MASK, Position(p), Register(p))
  }

  /** The bits of its register that a peripheral's selector field occupies. */
  function FieldBits(p: Peripheral): (b: bv32)
  {
    SEL_MASK << Position(p)
  }

  /** The selector field of `p` fits in a 32-bit register: it is two adjacent bits, the lower one at `Position(p)`. */
  lemma FieldFits(p: Peripheral)
    ensures FieldBits(p) != 0 && FieldBits(p) >> Position(p) == SEL_MASK
  {
  }

  /** The table gives no two peripherals the same register and position. */
  lemma TableInjective(a: Peripheral, b: Peripheral)
    requires Register(a) == Register(b) && Position(a) == Position(b)
    ensures a == b
  {
  }

  /** Distinct selectors on the same register have disjoint fields. */
  lemma FieldsDisjoint(a: Peripheral, b: Peripheral)
    requires a != b && Register(a) == Register(b)
    ensures FieldBits(a) & FieldBits(b) == 0
  {
  }

  /** Selector words identify the peripheral and the (truncated) value. */
  lemma SelectorInjective(a: Peripheral, b: Peripheral, v: bv32, u: bv32)
    ensures Selector(a, v) == Selector(b, u) <==> a == b && v & VAL_MASK == u & VAL_MASK
  {
    if Selector(a, v) == Selector(b, u) {
      TableInjective(a, b);
    }
    if a == b && v & VAL_MASK == u & VAL_MASK {
      PackTruncates(v, SEL_MASK, Position(a), Register(a));
      PackTruncates(u, SEL_MASK, Position(a), Register(a));
    }
  }

  /** The sixteen RCC_CCIPR selectors cover the whole register. */
  lemma CciprFullyAssigned()
    ensures FieldBits(USART1) | FieldBits(USART2) | FieldBits(USART3) | FieldBits(USART4)
          | FieldBits(USART5) | FieldBits(LPUART1) | FieldBits(I2C1) | FieldBits(I2C2)
          | FieldBits(I2C3) | FieldBits(LPTIM1) | FieldBits(SAI1) | FieldBits(I2S23)
          | FieldBits(FDCAN) | FieldBits(CLK48) | FieldBits(ADC12) | FieldBits(ADC34)
         == 0xFFFF_FFFF
  {
  }

  /** The words of four selectors, written out: mask 3 sits at bits 13 .. 14 of each. */
  lemma SelectorWords(v: bv32)
    ensures Selector(USART1, v) == 0x6088 | ((v & 7) << 16)
    ensures Selector(ADC34, v) == 0x7E88 | ((v & 7) << 16)
    ensures Selector(I2C4, v) == 0x609C | ((v & 7) << 16)
    ensures Selector(QSPI, v) == 0x749C | ((v & 7) << 16)
  {
  }
}
