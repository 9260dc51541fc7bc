/** The simple Factory demo: `ShapeFactory.createShape(name)` maps one of three exact
    names to a new shape of the matching variant and throws for every other name. */
module Factory {
  import opened Shapes

  /** The name `createShape` accepts for a variant: its class name in lower case. */
  function Key(s: Shape): (k: string)
    requires s != BaseShape
  {
    match s
    case Square => "square"
    case Circle => "circle"
    case Triangle => "triangle"
  }

  /** `ShapeFactory.createShape`: a strict-equality `switch` over the three names. */
  function CreateShape(name: string): (r: Result<Shape>)
    ensures r.Success? <==> name == "square" || name == "circle" || name == "triangle"
    ensures r.Success? ==> r.value != BaseShape && Key(r.value) == name
    ensures r.Failure? ==> r.error == InvalidShapeName
  {
    if name == "square" then Success(Square)
    else if name == "circle" then Success(Circle)
    else if name == "triangle" then Success(Triangle)
    else Failure(InvalidShapeName)
  }

  /** Every variant can be made, from exactly its own name. */
  lemma CreateShapeFromKey(s: Shape)
    requires s != BaseShape
    ensures CreateShape(Key(s)) == Success(s)
  {
  }

  /** Distinct accepted names give distinct variants. */
  lemma CreateShapeInjective(a: string, b: string)
    requires CreateShape(a).Success? && CreateShape(a) == CreateShape(b)
    ensures a == b
  {
  }

  /** Upper-cases an ASCII letter and leaves every other character alone. */
  function UpperCase(c: char): (u: char)
  {
    if 'a' <= c <= 'z' then (c as int - 'a' as int + 'A' as int) as char else c
  }

  /** The name with its first character upper-cased. */
  function Capitalize(name: string): (r: string)
  {
    if name == [] then [] else [UpperCase(name[0])] + name[1..]
  }

  /** A shape made from an accepted name draws as "Drawing a " followed by that
      name capitalized. */
  lemma DrawCreatedShape(name: string)
    requires CreateShape(name).Success?
    ensures Draw(CreateShape(name).value) == Success("Drawing a " + Capitalize(name))
  {
    var s := CreateShape(name).value;
    assert Capitalize(name) == ClassName(s) by {
      assert UpperCase(name[0]) == ClassName(s)[0];
      assert name[1..] == ClassName(s)[1..];
    }
  }

  /** The demo's three calls, and the rejected call "dummy". */
  lemma DemoCalls()
    ensures CreateShape("square") == Success(Square)
    ensures Draw(Square) == Success("Drawing a Square")
    ensures CreateShape("circle") == Success(Circle)
    ensures Draw(Circle) == Success("Drawing a Circle")
    ensures CreateShape("triangle") == Success(Triangle)
    ensures Draw(Triangle) == Success("Drawing a Triangle")
    ensures CreateShape("dummy") == Failure(InvalidShapeName)
    ensures Message(CreateShape("dummy").error) == "Invalid shape name"
  {
  }

  /** Matching is exact: a differently cased name is rejected. */
  lemma CaseMatters()
    ensures CreateShape("Square") == Failure(InvalidShapeName)
    ensures CreateShape("CIRCLE") == Failure(InvalidShapeName)
    ensures CreateShape("Triangle") == Failure(InvalidShapeName)
  {
  }

  /** A bare `Shape`, which no name produces, throws when drawn. */
  lemma BaseShapeDrawFails()
    ensures Draw(BaseShape) == Failure(NotOverridden)
    ensures Message(NotOverridden) == "This method should be overridden!"
    ensures forall name :: CreateShape(name) != Success(BaseShape)
  {
  }
}
