# Creational patterns in Dafny

A model of three small JavaScript demos of creational design patterns, with proofs of
what each one promises.

- **Singleton** (`singleton.dfy`, module `SingletonPattern`). The class `Singleton` keeps its
  one object in the static slot `Singleton.instance`. The first `new Singleton()` or
  `Singleton.getInstance()` creates the object with an empty `data` store. Every later call
  returns that same object and leaves its store alone. `append` pushes onto the store and
  `display` returns it.
  - Dafny has no static mutable fields, so the slot is the field `instance: Singleton?` of a
    `Registry` class. `new Singleton()` is the method `Registry.New` and `getInstance` is
    `Registry.GetInstance`. Both `display` and `append` act on the instance in the slot, not on
    their receiver, so they take the registry as a parameter.
  - The slot also has a value-level specification. `Slot` is unset or holds a store. `Step` is
    the effect of one call, and `Run` and `Shown` give the effect of a sequence of calls. The
    postconditions of `New`, `GetInstance` and `Append` tie the new slot to `Step` of the old
    one. `Display` changes nothing, and its result is the store that `Step` leaves in place.
    The lemmas about `Run` say that the slot stays set, its store is never reset, and the store
    is exactly the appended items in call order.
  - That the slot keeps the same object is a property of the object model, not of `Slot`.
    `Registry.New` and `Registry.GetInstance` return the object already in the slot when there
    is one, and `Singleton.Append` leaves the slot's object in place.
- **Shapes** (`shapes.dfy`, module `Shapes`). This is the product hierarchy. A bare `Shape`
  throws "This method should be overridden!" from `draw`. `Square`, `Circle` and `Triangle`
  each draw "Drawing a <class name>". Both factory demos declare this same hierarchy
  (`01-Creational-Patterns/02-Factory.js:9-42` and `01-Creational-Patterns/03-Abstract-Factory.js:11-35`),
  so it is defined once. `draw` returns the line it would print.
- **Factory** (`factory.dfy`, module `Factory`). `ShapeFactory.createShape(name)` is a strict
  `switch` on "square", "circle" and "triangle". Any other name throws "Invalid shape name".
- **Abstract Factory** (`abstract_factory.dfy`, module `AbstractFactory`). The base creator
  `ShapeFactory` has three operations that all throw. Each of `SquareFactory`, `CircleFactory`
  and `TriangleFactory` overrides one of them. A creator is a `Creator` value and an operation is
  an `Operation` value. `Create(c, op)` returns the product or the "not overridden" failure.

A thrown error is the `Failure` case of `Shapes.Result`, and `Shapes.Message` gives the
message it carries.

## Model

| member | source | states |
|---|---|---|
| `Shapes.Draw` | 01-Creational-Patterns/02-Factory.js:9-42 | draw fails with NotOverridden exactly on the bare base Shape; each variant yields "Drawing a " + its class name |
| `Shapes.DrawIdentifiesShape` | 01-Creational-Patterns/03-Abstract-Factory.js:18-35 | two shapes that draw the same successful line are the same variant |
| `SingletonPattern.Construct` | 01-Creational-Patterns/01-singleton.js:12-18 | the constructor returns the existing instance unchanged when the slot is set, and otherwise an instance with an empty store |
| `SingletonPattern.Step` | 01-Creational-Patterns/01-singleton.js:12-31 | after any call the slot is set; from an unset slot it holds an empty store; acquisitions and display leave a set slot unchanged; append adds the item at the end |
| `SingletonPattern.SetSlotAcceptsAnyCalls` | 01-Creational-Patterns/01-singleton.js:21-31 | once the slot is set, any sequence of calls can be made |
| `SingletonPattern.RunKeepsInstance` | 01-Creational-Patterns/01-singleton.js:12-31 | from a set slot, any call sequence keeps the slot set, never resets the store, and leaves its store equal to the old store followed by the appended items in order |
| `SingletonPattern.FirstCallCreatesEmptyStore` | 01-Creational-Patterns/01-singleton.js:12-23 | from a fresh process the first call must acquire; it creates an empty store, and after the whole sequence the store is exactly the appended items |
| `SingletonPattern.DemoScript` | 01-Creational-Patterns/01-singleton.js:35-43 | the demo's call sequence displays [], ["data1"], ["data1"], ["data1","data2"] and ends with store ["data1","data2"] |
| `SingletonPattern.Singleton.constructor` | 01-Creational-Patterns/01-singleton.js:16 | a newly constructed instance has an empty store |
| `SingletonPattern.Singleton.Display` | 01-Creational-Patterns/01-singleton.js:25-27 | returns the store of the instance in the slot and changes nothing, as `Step` prescribes for `display` |
| `SingletonPattern.Singleton.Append` | 01-Creational-Patterns/01-singleton.js:29-31 | the slot keeps the same instance, whose store becomes the old store with the item at the end; the slot moves as Step says |
| `SingletonPattern.Registry.constructor` | 01-Creational-Patterns/01-singleton.js:13 | at process start the static slot is unset |
| `SingletonPattern.Registry.New` | 01-Creational-Patterns/01-singleton.js:12-18 | with a set slot, returns that same instance and changes nothing; otherwise returns a fresh instance with an empty store and stores it in the slot |
| `SingletonPattern.Registry.GetInstance` | 01-Creational-Patterns/01-singleton.js:21-23 | returns the instance in the slot when it is set, otherwise a fresh empty one that becomes the slot's instance; the slot moves as Step says |
| `SingletonPattern.Demo` | 01-Creational-Patterns/01-singleton.js:35-43 | on the object model, the two acquisitions return the same object, and the four displays show [], ["data1"], ["data1"], ["data1","data2"] |
| `SingletonPattern.NewAfterAppend` | 01-Creational-Patterns/01-singleton.js:13-15 | a direct construction after an append returns the same object with the appended data kept |
| `Factory.CreateShape` | 01-Creational-Patterns/02-Factory.js:51-62 | succeeds exactly on "square", "circle" and "triangle", with a variant whose key is the given name; every other name fails with InvalidShapeName |
| `Factory.CreateShapeFromKey` | 01-Creational-Patterns/02-Factory.js:53-58 | each variant is produced from its own key |
| `Factory.CreateShapeInjective` | 01-Creational-Patterns/02-Factory.js:52-58 | two accepted names that give the same variant are the same name |
| `Factory.DrawCreatedShape` | 01-Creational-Patterns/02-Factory.js:15-58 | a shape made from an accepted name draws "Drawing a " + that name capitalized |
| `Factory.DemoCalls` | 01-Creational-Patterns/02-Factory.js:68-77 | the demo's three names make and draw Square, Circle and Triangle; "dummy" fails with "Invalid shape name" |
| `Factory.CaseMatters` | 01-Creational-Patterns/02-Factory.js:52-60 | "Square", "CIRCLE" and "Triangle" are rejected |
| `Factory.BaseShapeDrawFails` | 01-Creational-Patterns/02-Factory.js:9-13 | drawing a bare Shape fails with "This method should be overridden!", and no name produces a bare Shape |
| `AbstractFactory.Create` | 01-Creational-Patterns/03-Abstract-Factory.js:38-68 | succeeds exactly when the creator is concrete and the operation is the one it overrides, with the operation's variant; otherwise fails with NotOverridden |
| `AbstractFactory.BaseCreatorAlwaysFails` | 01-Creational-Patterns/03-Abstract-Factory.js:38-48 | every operation on the base creator fails with "This method should be overridden!" |
| `AbstractFactory.SpecialisedToOneOperation` | 01-Creational-Patterns/03-Abstract-Factory.js:52-68 | each concrete creator succeeds on some operation and on no other |
| `AbstractFactory.ProductMatchesCreator` | 01-Creational-Patterns/03-Abstract-Factory.js:52-68 | on success, the creator is named after the product's class + "Factory", the operation is "create" + that class, and the product draws its own name |
| `AbstractFactory.DemoCalls` | 01-Creational-Patterns/03-Abstract-Factory.js:72-82 | the demo's three creators make and draw Circle, Square and Triangle; CircleFactory's createSquare fails |

## Left out

- Console output (`console.log` in each `draw` and in the demo scripts). `draw` returns the line it would print instead.
- The demo scripts at the end of each file are not code to model. They appear only as the concrete lemmas and methods `DemoScript`, `Demo`, `NewAfterAppend` and `DemoCalls`.
- JavaScript prototypes and inheritance. Class hierarchies are datatypes, and the override structure is the case analysis in `Draw` and `Create`.
- The truthiness test in `Singleton.instance || new Singleton()`. The slot holds only an instance or nothing, so it is a null test.
- The throwaway object that JavaScript allocates for `new Singleton()` when the slot is already set. The constructor returns the existing instance, so no caller can reach that object, and `Registry.New` does not allocate it.
- Exception objects and their propagation. A throw is a `Failure` carrying the error, and the message is given by `Shapes.Message`.
- Thread safety, or any notion of "global" beyond one `Registry` per process. The source is single-threaded and claims neither.
- Calling `display` or `append` before any instance exists. No client can do this, since it needs an instance to call them on. The specification excludes it with `Enabled`, and the methods require the slot to be set.
- SingletonPattern.Singleton.Display: in the source, `display` returns the store array itself. A caller that keeps it sees later appends and can change the store through it, for example with `pop()`, without going through `append`. The model's store is a sequence value, so `Display` returns a copy. `RunKeepsInstance` therefore covers only callers that do not mutate what `display` returned.
- Factory.CreateShape: the model's domain is strings. The source also accepts any other value, such as `undefined`, numbers or `String` objects, and the strict `switch` rejects every one of them with "Invalid shape name".
