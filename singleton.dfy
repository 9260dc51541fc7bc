/** The Singleton demo: a class whose static `instance` slot holds the one shared object,
    created empty on first acquisition, whose `data` list only ever grows by `append`.

    The first half is the specification: the slot as a value (`Slot`), the calls a client
    can make (`Call`), and what a sequence of calls does to the slot (`Step`, `Run`).
    The second half is the object model: `Registry` stands for the class's static slot
    (Dafny has no static mutable fields) and `Singleton` for the instances, and each
    method is proved to move the slot exactly as `Step` says. */
module SingletonPattern {

  // ---------------------------------------------------------------------------
  // Specification

  /** The static slot: unset, or set to an instance whose store is `data`. */
  datatype Slot<T> = Unset | Set(data: seq<T>)

  /** The calls a client makes: `Singleton.getInstance()`, `new Singleton()`,
      and `append`/`display` on an instance it holds. */
  datatype Call<T> = GetInstance | New | Append(item: T) | Display

  /** `append` and `display` are called on an instance, and a client holds one only
      once the slot is set; acquiring is always possible. */
  predicate Enabled<T>(s: Slot<T>, c: Call<T>)
  {
    c.GetInstance? || c.New? || s.Set?
  }

  /** The constructor: return the existing instance, or create one with an empty store. */
  function Construct<T>(s: Slot<T>): (r: Slot<T>)
    ensures r.Set?
    ensures s.Set? ==> r == s
    ensures s.Unset? ==> r.data == []
  {
    if s.Set? then s else Set([])
  }

  /** The effect of one call on the slot. */
  function Step<T>(s: Slot<T>, c: Call<T>): (r: Slot<T>)
    requires Enabled(s, c)
    ensures r.Set?
    ensures s.Unset? ==> r == Set([])
    ensures !c.Append? && s.Set? ==> r == s
    ensures c.Append? ==> r.data == s.data + [c.item]
  {
    match c
    case New => Construct(s)
    case GetInstance => if s.Set? then s else Construct(s)
    case Append(x) => Set(s.data + [x])
    case Display => s
  }

  /** A sequence of calls a client can make, in order, starting from `s`. */
  predicate Client<T>(s: Slot<T>, calls: seq<Call<T>>)
    decreases |calls|
  {
    calls == [] || (Enabled(s, calls[0]) && Client(Step(s, calls[0]), calls[1..]))
  }

  /** The slot after a sequence of calls. */
  function Run<T>(s: Slot<T>, calls: seq<Call<T>>): Slot<T>
    requires Client(s, calls)
    decreases |calls|
  {
    if calls == [] then s else Run(Step(s, calls[0]), calls[1..])
  }

  /** What the `display` calls of a sequence return, in order. */
  function Shown<T>(s: Slot<T>, calls: seq<Call<T>>): seq<seq<T>>
    requires Client(s, calls)
    decreases |calls|
  {
    if calls == [] then []
    else
      var rest := Shown(Step(s, calls[0]), calls[1..]);
      if calls[0].Display? then [s.data] + rest else rest
  }

  /** The calls of the demo script at the end of the source file. */
  function DemoCalls(): seq<Call<string>>
  {
    [GetInstance, Display, Append("data1"), Display, GetInstance, Display, Append("data2"), Display]
  }

  /** The items of the `append` calls of a sequence, in order. */
  function Appended<T>(calls: seq<Call<T>>): seq<T>
  {
    if calls == [] then []
    else (if calls[0].Append? then [calls[0].item] else []) + Appended(calls[1..])
  }

  /** Once the slot is set, every call is possible, in any order. */
  lemma {:induction false} SetSlotAcceptsAnyCalls<T>(s: Slot<T>, calls: seq<Call<T>>)
    requires s.Set?
    ensures Client(s, calls)
    decreases |calls|
  {
    if calls != [] {
      SetSlotAcceptsAnyCalls(Step(s, calls[0]), calls[1..]);
    }
  }

  /** Once set, the slot stays set and its store is never reset: it is the old store
      followed by every appended item, in order. (That the slot keeps the same object is
      stated by the methods of `Registry` and `Singleton` below.) */
  lemma {:induction false} RunKeepsInstance<T>(s: Slot<T>, calls: seq<Call<T>>)
    requires s.Set? && Client(s, calls)
    ensures Run(s, calls) == Set(s.data + Appended(calls))
    decreases |calls|
  {
    if calls != [] {
      var c, t := calls[0], Step(s, calls[0]);
      var added := if c.Append? then [c.item] else [];
      assert t.data == s.data + added;
      assert Appended(calls) == added + Appended(calls[1..]);
      RunKeepsInstance(t, calls[1..]);
      assert (s.data + added) + Appended(calls[1..]) == s.data + (added + Appended(calls[1..]));
    }
  }

  /** From a fresh process, the first call must acquire the instance, which starts
      empty; after any sequence of calls the store holds exactly the appended items. */
  lemma FirstCallCreatesEmptyStore<T>(calls: seq<Call<T>>)
    requires calls != [] && Client(Unset, calls)
    ensures calls[0].GetInstance? || calls[0].New?
    ensures Step(Unset, calls[0]) == Set([])
    ensures Run(Unset, calls) == Set(Appended(calls))
  {
    RunKeepsInstance(Step(Unset, calls[0]), calls[1..]);
  }

  /** The demo script's calls: two acquisitions, each followed by a display, an append
      and a display. The displays show the store growing in order. */
  lemma DemoScript()
    ensures Client(Unset, DemoCalls())
    ensures Shown(Unset, DemoCalls()) == [[], ["data1"], ["data1"], ["data1", "data2"]]
    ensures Run(Unset, DemoCalls()) == Set(["data1", "data2"])
  {
    var calls := DemoCalls();
    var s0, s1, s2: Slot<string> := Set([]), Set(["data1"]), Set(["data1", "data2"]);
    SetSlotAcceptsAnyCalls(s0, calls[1..]);
    SetSlotAcceptsAnyCalls(s1, calls[3..]);
    SetSlotAcceptsAnyCalls(s1, calls[5..]);
    assert Step(s1, calls[6]) == s2;
    assert Shown(s2, calls[7..]) == [s2.data];
    assert Shown(s1, calls[5..]) == [s1.data, s2.data];
    assert Shown(s1, calls[3..]) == [s1.data, s1.data, s2.data];
    assert Step(s0, calls[2]) == s1;
    assert Shown(s0, calls[1..]) == [s0.data, s1.data, s1.data, s2.data];
    assert Run(Unset, calls) == Set(Appended(calls)) by { FirstCallCreatesEmptyStore(calls); }
    assert Appended(calls) == ["data1", "data2"];
  }

  // ---------------------------------------------------------------------------
  // Objects

  /** An object of the class. Its `display` and `append` work on the store of the
      instance in the static slot, not on their own receiver. */
  class Singleton<T> {
    var data: seq<T>

    /** The part of the constructor that runs when the slot is unset. */
    constructor ()
      ensures data == []
    {
      data := [];
    }

    /** `display`: the shared store, read without change. */
    method Display(reg: Registry<T>) returns (r: seq<T>)
      requires reg.instance != null
      ensures r == reg.instance.data
      ensures reg.State() == Set(r) == Step(reg.State(), Call.Display)
    {
      r := reg.instance.data;
    }

    /** `append`: push `item` onto the end of the shared store; nothing else changes. */
    method Append(reg: Registry<T>, item: T)
      requires reg.instance != null
      modifies reg.instance
      ensures reg.instance == old(reg.instance)
      ensures reg.instance.data == old(reg.instance.data) + [item]
      ensures reg.State() == Step(old(reg.State()), Call.Append(item))
    {
      reg.instance.data := reg.instance.data + [item];
    }
  }

  /** The class's static `instance` slot. */
  class Registry<T> {
    var instance: Singleton?<T>

    /** At process start the slot is unset. */
    constructor ()
      ensures instance == null
    {
      instance := null;
    }

    /** The slot as a specification value. */
    ghost function State(): Slot<T>
      reads this, instance
    {
      if instance == null then Unset else Set(instance.data)
    }

    /** `new Singleton()`: when the slot is set, the existing instance, untouched;
        otherwise a fresh instance with an empty store, stored in the slot. */
    method New() returns (s: Singleton<T>)
      modifies this
      ensures instance == s
      ensures old(instance) != null ==> s == old(instance)
      ensures old(instance) == null ==> fresh(s)
      ensures State() == Step(old(State()), Call.New)
    {
      if instance != null {
        return instance;
      }
      s := new Singleton();
      instance := s;
    }

    /** `Singleton.getInstance()`: the instance in the slot, or a new one. */
    method GetInstance() returns (s: Singleton<T>)
      modifies this
      ensures instance == s
      ensures old(instance) != null ==> s == old(instance)
      ensures old(instance) == null ==> fresh(s)
      ensures State() == Step(old(State()), Call.GetInstance)
    {
      if instance != null {
        s := instance;
      } else {
        s := New();
      }
    }
  }

  /** The demo script: two acquisitions, each followed by a display, an append and a
      display. Both acquisitions yield the same object, and the second append lands
      after the first. */
  method Demo() returns (shown: seq<seq<string>>, same: bool)
    ensures shown == [[], ["data1"], ["data1"], ["data1", "data2"]]
    ensures same
  {
    var reg := new Registry<string>();
    var instance1 := reg.GetInstance();
    var d1 := instance1.Display(reg);
    instance1.Append(reg, "data1");
    var d2 := instance1.Display(reg);
    var instance2 := reg.GetInstance();
    var d3 := instance2.Display(reg);
    instance2.Append(reg, "data2");
    var d4 := instance2.Display(reg);
    assert d1 == [] && d2 == ["data1"] && d3 == ["data1"];
    assert d4 == ["data1", "data2"];
    shown := [d1, d2, d3, d4];
    same := instance1 == instance2;
  }

  /** Constructing directly once an instance exists returns that instance with its
      store intact. */
  method NewAfterAppend() returns (kept: seq<string>, same: bool)
    ensures kept == ["data1"]
    ensures same
  {
    var reg := new Registry<string>();
    var first := reg.GetInstance();
    first.Append(reg, "data1");
    var second := reg.New();
    kept := second.Display(reg);
    same := first == second;
  }
}
