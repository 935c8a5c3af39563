/** The modulus of 32-bit unsigned arithmetic. */
module Words {
  const WORD := 0x1_0000_0000
}
