/** The limits of the source's fixed-width integers, and the lesser of two numbers. */
module Numbers {
  const U64_MAX := 0xFFFF_FFFF_FFFF_FFFF
  const I64_MIN := -0x8000_0000_0000_0000
  const I64_MAX := 0x7FFF_FFFF_FFFF_FFFF

  function Min(a: nat, b: nat): nat { if a < b then a else b }
}
