/** Powers of two at which machine words end. */
module MachineWords {
  const TWO16: int := 0x1_0000
  const TWO24: int := 0x100_0000
  const TWO28: int := 0x1000_0000
  const TWO31: int := 0x8000_0000
  const TWO32: int := 0x1_0000_0000
}
