/*
 * The two identifier sets of the STM32G4 clock bindings, each with the range
 * that consumers use to tell one kind of identifier from another:
 *  - bus clocks, named by the byte offset of their RCC enable register;
 *  - peripheral clock sources, numbered by small integers.
 */
module ClockIds {

  // Bus clocks: offsets of the RCC peripheral clock enable registers.
  const CLOCK_BUS_AHB1: nat := 0x048
  const CLOCK_BUS_AHB2: nat := 0x04c
  const CLOCK_BUS_AHB3: nat := 0x050
  const CLOCK_BUS_APB1: nat := 0x058
  const CLOCK_BUS_APB1_2: nat := 0x05c
  const CLOCK_BUS_APB2: nat := 0x060

  const PERIPH_BUS_MIN: nat := CLOCK_BUS_AHB1
  const PERIPH_BUS_MAX: nat := CLOCK_BUS_APB2

  datatype BusClock = AHB1 | AHB2 | AHB3 | APB1 | APB1_2 | APB2

  /** The bus clocks in declaration order. */
  const BusClocks: seq<BusClock> := [AHB1, AHB2, AHB3, APB1, APB1_2, APB2]

  /** The identifier of a bus clock: a word-aligned offset within the declared range. */
  function BusOffset(b: BusClock): (x: nat)
    ensures PERIPH_BUS_MIN <= x <= PERIPH_BUS_MAX && x % 4 == 0
  {
    match b
    case AHB1 => CLOCK_BUS_AHB1
    case AHB2 => CLOCK_BUS_AHB2
    case AHB3 => CLOCK_BUS_AHB3
    case APB1 => CLOCK_BUS_APB1
    case APB1_2 => CLOCK_BUS_APB1_2
    case APB2 => CLOCK_BUS_APB2
  }

  /** The range check on bus clock identifiers. */
  predicate IsBusClock(x: nat)
  {
    PERIPH_BUS_MIN <= x <= PERIPH_BUS_MAX
  }

  /** `BusClocks` lists every bus clock once, with strictly increasing offsets. */
  lemma BusClocksIncreasing()
    ensures forall b: BusClock :: b in BusClocks
    ensures forall i, j :: 0 <= i < j < |BusClocks| ==> BusOffset(BusClocks[i]) < BusOffset(BusClocks[j])
  {
    forall b: BusClock ensures b in BusClocks {
      match b
      case AHB1 => assert BusClocks[0] == b;
      case AHB2 => assert BusClocks[1] == b;
      case AHB3 => assert BusClocks[2] == b;
      case APB1 => assert BusClocks[3] == b;
      case APB1_2 => assert BusClocks[4] == b;
      case APB2 => assert BusClocks[5] == b;
    }
  }

  /** Distinct bus clocks have distinct offsets. */
  lemma BusOffsetInjective(a: BusClock, b: BusClock)
    ensures BusOffset(a) == BusOffset(b) <==> a == b
  {
  }

  /**
   * Inside the range, the word-aligned values are exactly the defined offsets
   * plus 0x054, which no bus clock uses; outside it nothing is defined.
   */
  lemma {:induction false} BusRangeExact(x: nat)
    ensures IsBusClock(x) && x % 4 == 0 <==> x == 0x054 || exists b :: BusOffset(b) == x
  {
    if IsBusClock(x) && x % 4 == 0 {
      if x == 0x048 {
        assert BusOffset(AHB1) == x;
      } else if x == 0x04c {
        assert BusOffset(AHB2) == x;
      } else if x == 0x050 {
        assert BusOffset(AHB3) == x;
      } else if x == 0x058 {
        assert BusOffset(APB1) == x;
      } else if x == 0x05c {
        assert BusOffset(APB1_2) == x;
      } else if x == 0x060 {
        assert BusOffset(APB2) == x;
      }
    }
  }

  // Peripheral clock sources (0x002, the HSI48 oscillator, is not defined).
  const SRC_HSI: nat := 0x001
  const SRC_LSE: nat := 0x003
  const SRC_LSI: nat := 0x004
  const SRC_MSI: nat := 0x005
  const SRC_SYSCLK: nat := 0x006
  const SRC_PCLK: nat := 0x007
  const SRC_PLLCLK: nat := 0x008

  const SRC_CLOCK_MIN: nat := SRC_HSI
  const SRC_CLOCK_MAX: nat := SRC_PLLCLK

  datatype ClockSource = HSI | LSE | LSI | MSI | SYSCLK | PCLK | PLLCLK

  /** The identifier of a clock source, within the declared range. */
  function SourceId(s: ClockSource): (x: nat)
    ensures SRC_CLOCK_MIN <= x <= SRC_CLOCK_MAX && x != 2
  {
    match s
    case HSI => SRC_HSI
    case LSE => SRC_LSE
    case LSI => SRC_LSI
    case MSI => SRC_MSI
    case SYSCLK => SRC_SYSCLK
    case PCLK => SRC_PCLK
    case PLLCLK => SRC_PLLCLK
  }

  /** The range check on clock source identifiers. */
  predicate IsSourceClock(x: nat)
  {
    SRC_CLOCK_MIN <= x <= SRC_CLOCK_MAX
  }

  /** Distinct clock sources have distinct identifiers. */
  lemma SourceIdInjective(a: ClockSource, b: ClockSource)
    ensures SourceId(a) == SourceId(b) <==> a == b
  {
  }

  /** The range holds exactly the defined identifiers and the unassigned value 2. */
  lemma {:induction false} SourceRangeExact(x: nat)
    ensures IsSourceClock(x) <==> x == 2 || exists s :: SourceId(s) == x
  {
    if IsSourceClock(x) && x != 2 {
      if x == 1 {
        assert SourceId(HSI) == x;
      } else if x == 3 {
        assert SourceId(LSE) == x;
      } else if x == 4 {
        assert SourceId(LSI) == x;
      } else if x == 5 {
        assert SourceId(MSI) == x;
      } else if x == 6 {
        assert SourceId(SYSCLK) == x;
      } else if x == 7 {
        assert SourceId(PCLK) == x;
      } else {
        assert SourceId(PLLCLK) == x;
      }
    }
  }

  /** 0 and 9 fail the range check; 2 passes it although no source has that identifier. */
  lemma SourceRangeEdges()
    ensures !IsSourceClock(0) && !IsSourceClock(9)
    ensures IsSourceClock(2) && forall s :: SourceId(s) != 2
  {
  }
}
