/** The Abstract Factory demo: a base creator `ShapeFactory` whose three creation
    operations all throw, and three creators that each override exactly one of them
    to return a new shape of their own variant. */
module AbstractFactory {
  import opened Shapes

  /** `ShapeFactory` is an instance of the bare base creator. */
  datatype Creator = ShapeFactory | SquareFactory | CircleFactory | TriangleFactory

  /** The three creation operations every creator has. */
  datatype Operation = CreateCircle | CreateSquare | CreateTriangle

  /** The creator's class name. */
  function CreatorName(c: Creator): (name: string)
  {
    match c
    case ShapeFactory => "ShapeFactory"
    case SquareFactory => "SquareFactory"
    case CircleFactory => "CircleFactory"
    case TriangleFactory => "TriangleFactory"
  }

  /** The operation's method name. */
  function OperationName(op: Operation): (name: string)
  {
    match op
    case CreateCircle => "createCircle"
    case CreateSquare => "createSquare"
    case CreateTriangle => "createTriangle"
  }

  /** The operation a concrete creator overrides. */
  function Specialty(c: Creator): (op: Operation)
    requires c != ShapeFactory
  {
    match c
    case SquareFactory => CreateSquare
    case CircleFactory => CreateCircle
    case TriangleFactory => CreateTriangle
  }

  /** The variant an operation is named after. */
  function Makes(op: Operation): (s: Shape)
  {
    match op
    case CreateCircle => Circle
    case CreateSquare => Square
    case CreateTriangle => Triangle
  }

  /** Calls operation `op` on creator `c`: the override if `c` has one, else the
      base class's throwing default. */
  function Create(c: Creator, op: Operation): (r: Result<Shape>)
    ensures r.Success? <==> c != ShapeFactory && op == Specialty(c)
    ensures r.Success? ==> r.value == Makes(op)
    ensures r.Failure? ==> r.error == NotOverridden
  {
    match op
    case CreateCircle =>
      if c == CircleFactory then Success(Circle) else Failure(NotOverridden)
    case CreateSquare =>
      if c == SquareFactory then Success(Square) else Failure(NotOverridden)
    case CreateTriangle =>
      if c == TriangleFactory then Success(Triangle) else Failure(NotOverridden)
  }

  /** On the base creator every operation throws "This method should be overridden!". */
  lemma BaseCreatorAlwaysFails(op: Operation)
    ensures Create(ShapeFactory, op) == Failure(NotOverridden)
    ensures Message(Create(ShapeFactory, op).error) == "This method should be overridden!"
  {
  }

  /** Each concrete creator succeeds on one operation and throws on the other two. */
  lemma SpecialisedToOneOperation(c: Creator)
    requires c != ShapeFactory
    ensures exists op :: Create(c, op).Success?
    ensures forall op1, op2 :: Create(c, op1).Success? && Create(c, op2).Success? ==> op1 == op2
  {
    assert Create(c, Specialty(c)).Success?;
  }

  /** Whatever a creator makes is of the creator's own variant: `XFactory.createX()`
      returns an `X`, and what it returns is a drawable shape. */
  lemma ProductMatchesCreator(c: Creator, op: Operation)
    requires Create(c, op).Success?
    ensures CreatorName(c) == ClassName(Create(c, op).value) + "Factory"
    ensures OperationName(op) == "create" + ClassName(Create(c, op).value)
    ensures Draw(Create(c, op).value) == Success("Drawing a " + ClassName(Create(c, op).value))
  {
  }

  /** The demo's three creators, and a circle creator asked for a square. */
  lemma DemoCalls()
    ensures Create(CircleFactory, CreateCircle) == Success(Circle)
    ensures Draw(Circle) == Success("Drawing a Circle")
    ensures Create(SquareFactory, CreateSquare) == Success(Square)
    ensures Draw(Square) == Success("Drawing a Square")
    ensures Create(TriangleFactory, CreateTriangle) == Success(Triangle)
    ensures Draw(Triangle) == Success("Drawing a Triangle")
    ensures Create(CircleFactory, CreateSquare) == Failure(NotOverridden)
  {
  }
}
