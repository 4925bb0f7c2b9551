/** Geometry shared by the storages and systems. The world-space tests
    themselves (`Distance`, `validateRadius`, display bounds) are not part of
    this model; they reach it as function-typed parameters. */
module Space {

  /** A point of the world plane. */
  datatype Point = Point(x: real, y: real)

  /** A chunk of the world: an identity and the entities it contains, in
      iteration order. */
  datatype Region<+T> = Region(id: nat, container: seq<T>)

  /** `new Distance(radius).isClose(a, b)`: given the radius, two points. */
  type CloseTest = (real, Point, Point) -> bool
}
