/** The victim contract as the chaos engine sees it: the answers a victim
    gives to each query, and the names of those queries for call traces. */
module Victims {
  import opened Errors

  /** What a scheduled chaos holds of its victim: the identity fixed at
      discovery. Everything else is asked of the victim when the chaos runs. */
  datatype Identity = Identity(kind: string, name: string)

  /** One victim, given by the answers of its methods at execution time.
      Kind and name are its identity; the two list checks read configuration
      loaded at discovery; the others are fresh reads from the cluster. The
      count functions and `DeleteRandomPods` take an argument, so their
      answers are functions of it. */
  datatype Victim = Victim(
    kind: string,
    name: string,
    isEnrolled: Returns<bool>,
    isBlacklisted: bool,
    isWhitelisted: bool,
    killType: Returns<string>,
    killValue: Returns<int>,
    killNumberForKillingAll: Returns<int>,
    killNumberForMaxPercentage: int -> Returns<int>,
    killNumberForFixedPercentage: int -> Returns<int>,
    deleteRandomPods: int -> Option<Error>)

  /** A call made on a victim, with its integer argument where it has one. */
  datatype Call =
    | IsEnrolled
    | IsBlacklisted
    | IsWhitelisted
    | KillType
    | KillValue
    | KillNumberForKillingAll
    | KillNumberForMaxPercentage(percentage: int)
    | KillNumberForFixedPercentage(percentage: int)
    | DeleteRandomPods(count: int)

  /** A value together with the victim calls made, in order, to compute it. */
  datatype Traced<+T> = Traced(value: T, calls: seq<Call>)

  predicate IsCountCall(c: Call)
  {
    c.KillNumberForKillingAll? || c.KillNumberForMaxPercentage? || c.KillNumberForFixedPercentage?
  }

  /** The victim's answer to one of its three count functions. */
  function CountAnswer(v: Victim, c: Call): Returns<int>
    requires IsCountCall(c)
  {
    match c
    case KillNumberForKillingAll => v.killNumberForKillingAll
    case KillNumberForMaxPercentage(p) => v.killNumberForMaxPercentage(p)
    case KillNumberForFixedPercentage(p) => v.killNumberForFixedPercentage(p)
  }
}
