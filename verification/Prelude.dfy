// Types shared by every component: optional values (SQL NULL, Go nil pointers), identifiers and
// instants.
module Prelude {

  datatype Option<+T> = None | Some(value: T)

  // UUIDs, ordered as their canonical text is.
  type Id = int

  // An instant, in any fixed unit. Clocks are inputs: nothing here assumes they are monotone.
  type Time = int

  const MAX_INT64: int := 0x7fff_ffff_ffff_ffff
  const MIN_INT64: int := -MAX_INT64 - 1

  function Max(a: int, b: int): int {
    if a > b then a else b
  }

  function Min(a: int, b: int): int {
    if a < b then a else b
  }

  // -1, 0 or 1.
  function CompareInt(a: int, b: int): int {
    if a < b then -1 else if a > b then 1 else 0
  }

  // SQL GREATEST over a nullable timestamp: NULLs are ignored.
  function Greatest(a: Option<Time>, b: Option<Time>): Option<Time> {
    match (a, b)
    case (None, _) => b
    case (_, None) => a
    case (Some(x), Some(y)) => Some(Max(x, y))
  }

  lemma Distributes(a: int, b: int, c: int)
    ensures (a - b) * c == a * c - b * c
  {}

  // An arbitrary element.
  method Any<T>(s: set<T>) returns (x: T)
    requires s != {}
    ensures x in s
  {
    x :| x in s;
  }
}
