/** Values shared by every module: optional values, results, errors, time and identifiers. */
module Common {

  datatype Option<+T> = None | Some(value: T)

  datatype Result<+T, +E> = Ok(value: T) | Err(error: E)

  /** The canonical errors that the modelled operations raise. */
  datatype Error = ValidationError | NotFoundError | InvalidStateTransition | ActiveInvocationConflict

  /** Microseconds since the Unix epoch, in UTC. */
  type Time = int

  /**
   * A generated identifier, represented by its rank in generation order.  Module `Identity` proves
   * that generated identifiers are strictly increasing as plain strings, so ranks compare exactly
   * as the identifiers do, and a Python dictionary keyed by freshly generated identifiers is a
   * sequence indexed by rank.
   */
  type Id = nat

  /** A JSON scalar, as found in audit payloads and input references. */
  datatype Datum = Text(text: string) | Number(number: int) | Null

  const ACTOR_TYPES: set<string> := {"SYSTEM", "USER", "AGENT", "SERVICE", "EXTERNAL_SYSTEM"}

  /** `sequence[:limit]` as Python slices it; a negative limit counts from the end. */
  function Take<T>(s: seq<T>, limit: int): seq<T> {
    if limit >= |s| then s
    else if limit >= 0 then s[..limit]
    else if |s| + limit >= 0 then s[..|s| + limit]
    else []
  }
}
