/**
  The keyboard keys the demo reacts to (a subset of OpenTK's `Keys`), with
  every other key folded into `Other`.
 */
module Input {

  datatype Key =
    | W | S | A | D          // camera movement
    | R                      // rotation toggle
    | Left | Right           // manual rotation
    | Up | Down              // light height
    | Comma | Period         // light sideways
    | D1 | D2 | D3 | D4      // colour palette
    | Escape
    | Other(code: int)

  /**
    +1 when only `pos` is held, -1 when only `neg` is held, 0 when both or
    neither are: the net direction of a pair of opposing keys.
   */
  function Axis(held: set<Key>, pos: Key, neg: Key): real
  {
    (if pos in held then 1.0 else 0.0) - (if neg in held then 1.0 else 0.0)
  }
}
