/** The three moves each side commits to at the end of a negotiation.
    The game passes moves around as the strings "disarm", "status quo" and
    "attack"; this module names them and converts in both directions. */
module Moves {
  import opened Wrappers

  datatype Move = Disarm | StatusQuo | Attack

  /** The string the game uses for a move (button command and draw population). */
  function Name(m: Move): string
  {
    match m
    case Disarm => "disarm"
    case StatusQuo => "status quo"
    case Attack => "attack"
  }

  /** The move a string stands for, or None for any other string. */
  function Parse(s: string): (r: Option<Move>)
    ensures r.Some? <==> s == "disarm" || s == "status quo" || s == "attack"
    ensures r.Some? ==> Name(r.value) == s
  {
    if s == "disarm" then Some(Disarm)
    else if s == "status quo" then Some(StatusQuo)
    else if s == "attack" then Some(Attack)
    else None
  }

  /** Every move's name parses back to that move. */
  lemma ParseName(m: Move)
    ensures Parse(Name(m)) == Some(m)
  {
  }

  /** Distinct moves have distinct names. */
  lemma NameInjective(m1: Move, m2: Move)
    ensures Name(m1) == Name(m2) ==> m1 == m2
  {
  }
}
