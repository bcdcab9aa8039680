# STM32G4 clock bindings

A Dafny model of the Zephyr device-tree binding header for STM32G4 clocks,
`include/zephyr/dt-bindings/clock/stm32g4_clock.h`. The header defines three things:

- **The clock configuration bit field.** `STM32_CLOCK(val, mask, shift, reg)` packs four fields into one 32-bit
  unsigned word:
  - `reg` is 8 bits at offset 0;
  - `shift` is 5 bits at offset 8;
  - `mask` is 3 bits at offset 13;
  - `val` is 3 bits at offset 16.

  Each argument is masked to its width before it is shifted, so an out-of-range argument is truncated silently.
  This part is module `ClockField` in `clock_field.dfy`. The field extractors (`RegField`, `ShiftField`,
  `MaskField`, `ValField`, `Decode`) are the decoding implied by the documented layout. They are the partner that
  the round-trip lemmas tie `Pack` to.
- **The peripheral clock-source selectors.** `USART1_SEL(val)` … `QSPI_SEL(val)` each give a peripheral a 2-bit
  field (mask 3) at a fixed bit position of `RCC_CCIPR` (offset 0x88) or `RCC_CCIPR2` (offset 0x9C). This part is
  module `ClockSelectors` in `clock_selectors.dfy`. The `Peripheral` datatype names the eighteen peripherals,
  `Register` and `Position` hold the table, and `Selector(p, val)` is the `<p>_SEL(val)` helper.
- **Two identifier sets with declared ranges.** The bus clocks (enable-register offsets 0x048 … 0x060) and the
  peripheral clock sources (1 … 8). This part is module `ClockIds` in `clock_ids.dfy`.

Words are `bv32`, so the model uses unsigned 32-bit arithmetic. Identifiers are `nat`.

The doc comment on the bit field gives `reg` as "1/2/3". The code masks `reg` to 8 bits and passes the byte
offsets 0x88 and 0x9C. The model follows the code.

## Model

| member | source | states |
|---|---|---|
| ClockField.Pack | include/zephyr/dt-bindings/clock/stm32g4_clock.h:54-67 | the packed word is below 2^19 and has no bit set outside the four placed field masks |
| ClockField.Decode | include/zephyr/dt-bindings/clock/stm32g4_clock.h:40-61 | reading the four fields of any word gives values within their widths (reg ≤ 0xFF, shift ≤ 0x1F, mask ≤ 7, val ≤ 7) |
| ClockField.FieldsDisjoint | include/zephyr/dt-bindings/clock/stm32g4_clock.h:40-61 | the placed masks 0xFF<<0, 0x1F<<8, 0x7<<13 and 0x7<<16 are pairwise disjoint and together cover bits 0..18 |
| ClockField.PackIsSum | include/zephyr/dt-bindings/clock/stm32g4_clock.h:63-67 | OR-ing the four placed fields equals adding them |
| ClockField.ExtractPack | include/zephyr/dt-bindings/clock/stm32g4_clock.h:54-67 | each field read back from a packed word is its argument masked to the field width, for every input |
| ClockField.PackTruncates | include/zephyr/dt-bindings/clock/stm32g4_clock.h:63-67 | packing equals packing the masked arguments, and adding one field range to every argument leaves the word unchanged, so no error arises |
| ClockField.DecodeEncode | include/zephyr/dt-bindings/clock/stm32g4_clock.h:40-67 | for in-range fields, decoding the packed word returns exactly the inputs |
| ClockField.EncodeDecode | include/zephyr/dt-bindings/clock/stm32g4_clock.h:40-67 | every word below 2^19 is the packing of its own decoded fields |
| ClockField.EncodeInjective | include/zephyr/dt-bindings/clock/stm32g4_clock.h:63-67 | packing is injective on in-range fields |
| ClockField.PackEqualIff | include/zephyr/dt-bindings/clock/stm32g4_clock.h:63-67 | two argument tuples pack to the same word if and only if they agree on the low bits of every field |
| ClockSelectors.Register | include/zephyr/dt-bindings/clock/stm32g4_clock.h:69-93 | every selector lives in CCIPR (0x88) or CCIPR2 (0x9C), and it is CCIPR2 exactly for I2C4 and QSPI |
| ClockSelectors.Position | include/zephyr/dt-bindings/clock/stm32g4_clock.h:75-93 | every selector position is even and at most 30 |
| ClockSelectors.Selector | include/zephyr/dt-bindings/clock/stm32g4_clock.h:73-93 | the `<p>_SEL(val)` word decodes to p's register and position, mask 3 and val truncated to 3 bits |
| ClockSelectors.FieldFits | include/zephyr/dt-bindings/clock/stm32g4_clock.h:75-93 | each selector's 2-bit register field fits entirely in a 32-bit register |
| ClockSelectors.TableInjective | include/zephyr/dt-bindings/clock/stm32g4_clock.h:75-93 | no two peripherals share a register and a position |
| ClockSelectors.FieldsDisjoint | include/zephyr/dt-bindings/clock/stm32g4_clock.h:75-93 | two distinct selectors on the same register have disjoint 2-bit fields, `(3 << a) & (3 << b) == 0` |
| ClockSelectors.SelectorInjective | include/zephyr/dt-bindings/clock/stm32g4_clock.h:75-93 | two selector words are equal if and only if they name the same peripheral and agree on val's low three bits |
| ClockSelectors.CciprFullyAssigned | include/zephyr/dt-bindings/clock/stm32g4_clock.h:74-90 | the sixteen CCIPR selector fields together cover all 32 bits of the register |
| ClockSelectors.SelectorWords | include/zephyr/dt-bindings/clock/stm32g4_clock.h:75-93 | the USART1, ADC34, I2C4 and QSPI words written out as numbers: 0x6088, 0x7E88, 0x609C and 0x749C, each OR-ed with val's low bits at bit 16 |
| ClockIds.BusOffset | include/zephyr/dt-bindings/clock/stm32g4_clock.h:9-18 | every bus-clock identifier is word-aligned and lies in [STM32_PERIPH_BUS_MIN, STM32_PERIPH_BUS_MAX] = [0x048, 0x060] |
| ClockIds.BusClocksIncreasing | include/zephyr/dt-bindings/clock/stm32g4_clock.h:10-15 | the declaration-order list holds every bus clock, and its offsets strictly increase |
| ClockIds.BusOffsetInjective | include/zephyr/dt-bindings/clock/stm32g4_clock.h:10-15 | two bus clocks have the same offset if and only if they are the same bus clock |
| ClockIds.BusRangeExact | include/zephyr/dt-bindings/clock/stm32g4_clock.h:10-18 | a value is word-aligned and passes the bus range check if and only if it is a defined bus offset or the unused 0x054 |
| ClockIds.SourceId | include/zephyr/dt-bindings/clock/stm32g4_clock.h:20-38 | every clock-source identifier lies in [STM32_SRC_CLOCK_MIN, STM32_SRC_CLOCK_MAX] = [1, 8] and is not 2 |
| ClockIds.SourceIdInjective | include/zephyr/dt-bindings/clock/stm32g4_clock.h:24-34 | two clock sources have the same identifier if and only if they are the same source |
| ClockIds.SourceRangeExact | include/zephyr/dt-bindings/clock/stm32g4_clock.h:23-38 | a value passes the source range check if and only if it is a defined source identifier or the unassigned 2 |
| ClockIds.SourceRangeEdges | include/zephyr/dt-bindings/clock/stm32g4_clock.h:24-38 | 0 and 9 fail the source range check; 2 passes it although no source uses it |

## Left out

- The device-tree compiler and the build tooling that consume these macros. They are tooling, not logic of this header.
- The runtime clock driver that unpacks these words and does read-modify-write on the RCC registers. It is hardware I/O and is not part of this model. Only the pure field extractors are modelled.
- The hardware meaning of each selector value, that is, which oscillator values 0..3 select. The header does not define it.
- The commented-out `STM32_SRC_HSI48` (0x002) and the PLLSAI sources marked TODO. They are not defined behaviour; the model only shows that 2 is unassigned.
- C preprocessor textual expansion and integer promotion. Arguments are modelled as unsigned 32-bit values (`bv32`). Arguments wider than 32 bits, and signed arguments before their conversion to unsigned, are not modelled.
