/** The shared record types of src/types.ts. JavaScript numbers are modelled as reals. */
module Types {
  datatype Vec2 = Vec2(x: real, y: real)

  datatype Circle = Circle(x: real, y: real, radius: real)

  /** A background star; z is its depth (a larger z is farther away). */
  datatype Star = Star(x: real, y: real, z: real)
}
