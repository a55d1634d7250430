/** The two package-level globals of the namespace binding-test-other-ns that the
    binding test rebinds: the dynamic var `*foo*` (Go name X_STAR_foo_STAR_) and the
    plain var `bar` (Go name Bar). Their defining file is not part of this model, so
    their starting values are parameters of the constructor. Values are integers:
    the compiled code stores float64s, but only the literals 1, 2 and 10 occur. */
module OtherNs {

  /** Names one of the two globals. */
  datatype Var = Foo | Bar

  /** A snapshot of both globals: the state a test reads and must leave behind. */
  datatype Globals = Globals(foo: int, bar: int)

  function Get(g: Globals, v: Var): int
  {
    match v
    case Foo => g.foo
    case Bar => g.bar
  }

  /** The state after an assignment to one global: that global holds `x`,
      the other keeps its value. */
  function Set(g: Globals, v: Var, x: int): (r: Globals)
    ensures Get(r, v) == x
    ensures forall w :: w != v ==> Get(r, w) == Get(g, w)
  {
    match v
    case Foo => g.(foo := x)
    case Bar => g.(bar := x)
  }

  /** The package globals themselves, assigned in place by the compiled tests. */
  class Namespace {
    var foo: int
    var bar: int

    constructor (foo0: int, bar0: int)
      ensures State() == Globals(foo0, bar0)
    {
      foo := foo0;
      bar := bar0;
    }

    function State(): Globals
      reads this
    {
      Globals(foo, bar)
    }

    function Read(v: Var): (x: int)
      reads this
      ensures x == Get(State(), v)
    {
      match v
      case Foo => foo
      case Bar => bar
    }

    /** A plain assignment to a global: no validation, immediately visible. */
    method Write(v: Var, x: int)
      modifies this
      ensures State() == Set(old(State()), v, x)
    {
      match v
      case Foo => foo := x;
      case Bar => bar := x;
    }
  }
}
