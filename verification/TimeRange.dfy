/** Units of the optional range of a query, numbered from 1; the last one stands for "no range". */
module TimeRange {

  const UNIT_NAMES: seq<string> := ["s", "m", "h", "d", "w", "y", "none"]

  const NONE: int := 7

  predicate IsValidUnit(t: int) { t != NONE && 0 < t <= |UNIT_NAMES| }
}
