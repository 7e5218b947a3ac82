/**
 * Poses as values. Coordinates are `real`: an exact stand-in for the client
 * libraries' floating-point fields, so `x + o - o == x` holds here where a
 * float sum may round.
 */
module Geometry {

  datatype Vector3 = Vector3(x: real, y: real, z: real)

  /** A tool-centre-point pose: a position in mm and an orientation carried opaquely. */
  datatype PoseValue = PoseValue(position: Vector3, orientation: Vector3)

  /** `p` moved by `dx` along x and `dy` along y; z and orientation untouched. */
  function Shifted(p: PoseValue, dx: real, dy: real): PoseValue {
    p.(position := p.position.(x := p.position.x + dx, y := p.position.y + dy))
  }
}
