/** Integer plane geometry shared by the calibration record, the pointer
    handlers and the crop step. Coordinates are pixels of the 640x480
    working canvas; nothing here is bounded, as in the program. */
module Geometry {

  /** A pixel position, `[x, y]` in the calibration record. */
  datatype Point = Point(x: int, y: int)

  /** An axis-aligned rectangle `[x, y, w, h]`: top-left corner, width, height. */
  datatype Roi = Roi(x: int, y: int, w: int, h: int)

  function Min(a: int, b: int): (m: int) { if a <= b then a else b }

  function Max(a: int, b: int): (m: int) { if a >= b then a else b }

  function Abs(a: int): (m: int) { if a < 0 then -a else a }
}
