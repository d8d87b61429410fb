/** SQL values: NULL as `None`, three-valued comparison, and the time units.
    Instants and durations are whole microseconds, PostgreSQL's resolution. */
module Sql {

  datatype Option<+T> = None | Some(value: T)

  datatype Result<+T, +E> = Ok(value: T) | Err(error: E)

  /** A WHERE or ON condition. Only `Yes` selects a row. */
  datatype Truth = Yes | No | Unknown {
    predicate Holds() { Yes? }
  }

  function And(a: Truth, b: Truth): Truth {
    if a.No? || b.No? then No else if a.Yes? && b.Yes? then Yes else Unknown
  }

  function Or(a: Truth, b: Truth): Truth {
    if a.Yes? || b.Yes? then Yes else if a.No? && b.No? then No else Unknown
  }

  function Bool(b: bool): Truth {
    if b then Yes else No
  }

  function IsNull<T>(a: Option<T>): Truth {
    Bool(a.None?)
  }

  function IsNotNull<T>(a: Option<T>): Truth {
    Bool(a.Some?)
  }

  function Eq<T(==)>(a: Option<T>, b: Option<T>): Truth {
    if a.None? || b.None? then Unknown else Bool(a.value == b.value)
  }

  function Le(a: Option<int>, b: Option<int>): Truth {
    if a.None? || b.None? then Unknown else Bool(a.value <= b.value)
  }

  function Lt(a: Option<int>, b: Option<int>): Truth {
    if a.None? || b.None? then Unknown else Bool(a.value < b.value)
  }

  function Coalesce<T>(a: Option<T>, b: T): T {
    if a.Some? then a.value else b
  }

  /** A commit, or a statement of its own: acknowledged, carried out but reported as
      an error, or reported as an error and undone. */
  datatype CommitOutcome = Acknowledged | Unacknowledged | Undone

  /** `uuid.Nil`; ids are numbered in their order. */
  const NIL: nat := 0

  const SECOND: int := 1_000_000
  const DAY: int := 86_400 * SECOND

  function Max(a: int, b: int): int { if a >= b then a else b }

  function Min(a: int, b: int): int { if a <= b then a else b }
}
