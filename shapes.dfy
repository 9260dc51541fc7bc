/** The product hierarchy shared by the Factory and the Abstract Factory demos: a base
    `Shape` whose `draw` must be overridden, and the three variants that override it.
    Both demos declare the same hierarchy, so it is defined once here. Printing is left
    out: `draw` yields the line it would print. */
module Shapes {

  /** The two errors the demos throw. */
  datatype Error = NotOverridden | InvalidShapeName

  /** The message each thrown `Error` carries. */
  function Message(e: Error): (m: string)
  {
    match e
    case NotOverridden => "This method should be overridden!"
    case InvalidShapeName => "Invalid shape name"
  }

  /** A call either returns a value or throws one of the errors above. */
  datatype Result<T> = Success(value: T) | Failure(error: Error)

  /** `BaseShape` is an instance of the bare base class `Shape`. */
  datatype Shape = BaseShape | Square | Circle | Triangle

  /** The name of the class an instance belongs to. */
  function ClassName(s: Shape): (name: string)
  {
    match s
    case BaseShape => "Shape"
    case Square => "Square"
    case Circle => "Circle"
    case Triangle => "Triangle"
  }

  /** `draw`: each variant draws itself by name; the base class throws. */
  function Draw(s: Shape): (r: Result<string>)
    ensures r.Failure? <==> s == BaseShape
    ensures r.Failure? ==> r.error == NotOverridden
    ensures r.Success? ==> r.value == "Drawing a " + ClassName(s)
  {
    match s
    case BaseShape => Failure(NotOverridden)
    case Square => Success("Drawing a Square")
    case Circle => Success("Drawing a Circle")
    case Triangle => Success("Drawing a Triangle")
  }

  /** Distinct shapes draw distinct lines, so the drawn line identifies the variant. */
  lemma DrawIdentifiesShape(a: Shape, b: Shape)
    requires Draw(a).Success? && Draw(a) == Draw(b)
    ensures a == b
  {
  }
}
