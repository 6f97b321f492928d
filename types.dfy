/** Value types shared by the spacing arithmetic (src/types.ts). */
module Types {

  /** Absence of a result; stands for the `null` the spacing calculation returns
      when the pictures do not fit. */
  datatype Option<+T> = None | Some(value: T)

  /** The three gaps of a layout, in the wall's length unit:
      wall edge to first picture, between neighbouring pictures, last picture to wall edge. */
  datatype Measurements = Measurements(wallToFirst: real, betweenImages: real, lastToWall: real)
}
