/** Types shared by the modules below. */
module Common {

  datatype Option<+T> = None | Some(value: T)

  /** How one remote request ends: it succeeds, it returns an error although it may
      have been applied, or the remote side definitely turned it down. */
  datatype Outcome = Done | Lost(applied: bool) | Refused

  /** The outcomes still to be consumed; a request beyond the end succeeds. */
  function Head(outcomes: seq<Outcome>): Outcome {
    if outcomes == [] then Done else outcomes[0]
  }

  function Rest(outcomes: seq<Outcome>): seq<Outcome> {
    if outcomes == [] then [] else outcomes[1..]
  }

  predicate AllDone(outcomes: seq<Outcome>) {
    forall o | o in outcomes :: o == Done
  }

  const MAX_INT64: int := 0x7FFF_FFFF_FFFF_FFFF
}
