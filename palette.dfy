/** The SwiftUI colors the views choose between, as tags, and gradient stops as RGB triples. */
module Palette {

  datatype Color = Red | Yellow | Green | Blue

  /** `Color(red:green:blue:)` with components in [0, 1]. */
  datatype Rgb = Rgb(red: real, green: real, blue: real)
}
