/**
 * The vocabulary of mongoose document validation shared by both schemas:
 * a path into a document and the validator that rejected the value there.
 */
module Validation {
  import opened Wrappers
  import opened JsString

  /** One step of a document path: a property name or an array index. */
  datatype Segment = Key(name: string) | Index(i: nat)

  /** A rejected path: a `required` path with no usable value, or a value outside its `enum`. */
  datatype Violation = Required(path: seq<Segment>) | NotInEnum(path: seq<Segment>, value: string)

  /**
   * The `required` validator of a String path: the value must be present and,
   * after setters such as `trim` have run, not empty. On strings this is
   * exactly JavaScript truthiness, so it is defined as `Truthy`.
   */
  predicate StringPresent(v: Option<string>) {
    Truthy(v)
  }

  /** The violations a required String path contributes (none or one). */
  function RequireString(path: seq<Segment>, v: Option<string>): (errs: set<Violation>)
    ensures errs == {} <==> StringPresent(v)
    ensures errs <= {Required(path)}
  {
    if StringPresent(v) then {} else {Required(path)}
  }
}
