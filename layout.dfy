/** A widget's layout record and the part of the constraint solver the event glue touches.
    The solver is seen only through its edit variables (with their strengths) and the values
    suggested for them; how it solves, and the `LayoutChanged` notifications it emits after a
    solve, are not modelled. */
module Layout {
  import opened Wrappers
  import opened Geometry

  /** A solver variable (`cassowary::Variable`), identified by an opaque index. */
  datatype Variable = Variable(index: nat)

  /** The solver's STRONG strength tier (one strong unit, no medium or weak part). */
  const STRONG: real := 1000000.0

  /** The four edge variables of a widget. */
  datatype LayoutVars = LayoutVars(left: Variable, top: Variable, right: Variable, bottom: Variable)

  /** A widget's layout: its variables and the bounds last read back from the solver. */
  datatype Layout = Layout(vars: LayoutVars, bounds: Rect)

  datatype SolverError = DuplicateEditVariable | UnknownEditVariable

  class LimnSolver {
    /** Each edit variable, with the strength it was added at. */
    var editVariables: map<Variable, real>
    /** The value last suggested for each edit variable. */
    var suggestions: map<Variable, real>

    ghost predicate Valid()
      reads this
    {
      suggestions.Keys <= editVariables.Keys
    }

    constructor ()
      ensures Valid() && editVariables == map[] && suggestions == map[]
    {
      editVariables := map[];
      suggestions := map[];
    }

    /** Whether `v` is an edit variable. In a valid solver every variable with a suggested
        value is one. */
    predicate HasEditVariable(v: Variable): (b: bool)
      reads this
      ensures Valid() && v in suggestions ==> b
    {
      v in editVariables
    }

    /** Makes `v` an edit variable; adding one twice is an error and changes nothing. */
    method AddEditVariable(v: Variable, strength: real) returns (r: Outcome<SolverError>)
      requires Valid()
      modifies this
      ensures Valid()
      ensures r == (if old(v in editVariables) then Fail(DuplicateEditVariable) else Pass)
      ensures editVariables == if r.Pass? then old(editVariables)[v := strength] else old(editVariables)
      ensures suggestions == old(suggestions)
    {
      if v in editVariables {
        r := Fail(DuplicateEditVariable);
      } else {
        editVariables := editVariables[v := strength];
        r := Pass;
      }
    }

    /** Suggests a value for an edit variable; suggesting for any other variable is an error. */
    method SuggestValue(v: Variable, value: real) returns (r: Outcome<SolverError>)
      requires Valid()
      modifies this
      ensures Valid()
      ensures r == (if v in old(editVariables) then Pass else Fail(UnknownEditVariable))
      ensures suggestions == if r.Pass? then old(suggestions)[v := value] else old(suggestions)
      ensures editVariables == old(editVariables)
    {
      if v in editVariables {
        suggestions := suggestions[v := value];
        r := Pass;
      } else {
        r := Fail(UnknownEditVariable);
      }
    }
  }
}
