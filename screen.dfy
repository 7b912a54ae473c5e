/** Dimensions of the 32x16 LED matrix and the byte type the firmware uses. */
module Screen {

  /** An Arduino `byte`: an unsigned 8-bit value. */
  type Byte = b: int | 0 <= b < 256

  /** Width and height of the panel in pixels. */
  const Width: int := 32
  const Height: int := 16

  /** Largest pixel column and row a byte coordinate may hold on screen. */
  const MaxColumn: Byte := 31
  const MaxRow: Byte := 15

  /** The half-open screen rectangle [0, 32) x [0, 16) that shots must stay in. */
  predicate OnScreen(x: real, y: real)
  {
    0.0 <= x < Width as real && 0.0 <= y < Height as real
  }

  /** The row below which descending entities (enemies, power-ups) leave the screen. */
  const BottomRow: real := 15.0
}
