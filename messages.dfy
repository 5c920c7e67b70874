/** The text of each error, as `err.Error()` renders it. */
module Messages {
  import opened Errors
  import Strconv

  /** Skip reasons and missing-label errors start with the victim's kind and
      name; the wrapping of a KillType or KillValue failure keeps the cause's
      text at its end. */
  function Message(e: Error): (r: string)
    ensures e.NotEnrolled? || e.Blacklisted? || e.NotWhitelisted? || e.MissingLabel? ==>
              var who := e.kind + " " + e.name;
              |r| > |who| && r[..|who|] == who
    ensures e.KillTypeCheckFailed? || e.KillValueCheckFailed? ==>
              var cause := Message(e.cause);
              && |r| > |cause|
              && r[|r| - |cause|..] == cause
  {
    match e
    case External(reason) => reason
    case Syntax(text) => "strconv.Atoi: parsing \"" + text + "\": invalid syntax"
    case MissingLabel(kind, name, key) => kind + " " + name + " does not have " + key + " label"
    case InvalidLabelValue(key, value) => "Invalid value for label " + key + ": " + Strconv.Itoa(value)
    case NotEnrolled(kind, name) => kind + " " + name + " is no longer enrolled in kube-monkey. Skipping"
    case Blacklisted(kind, name) => kind + " " + name + " is blacklisted. Skipping"
    case NotWhitelisted(kind, name) => kind + " " + name + " is not whitelisted. Skipping"
    case KillTypeCheckFailed(kind, name, cause) =>
      Wrapped("Failed to check KillType label for " + kind + " " + name, Message(cause))
    case KillValueCheckFailed(kind, name, cause) =>
      Wrapped("Failed to check KillValue label for " + kind + " " + name, Message(cause))
    case UnrecognizedKillType(kind, name) => "failed to recognize KillType label for " + kind + " " + name
  }

  /** `errors.Wrapf`: the context, then the cause's text. */
  function Wrapped(context: string, cause: string): (r: string)
    ensures |r| > |cause| && r[|r| - |cause|..] == cause
  {
    context + ": " + cause
  }

  /** The three skip reasons of the pre-execution check read differently for
      every victim, so a reader of the result can tell them apart. */
  lemma SkipMessagesDistinct(kind: string, name: string)
    ensures Message(NotEnrolled(kind, name)) != Message(Blacklisted(kind, name))
    ensures Message(NotEnrolled(kind, name)) != Message(NotWhitelisted(kind, name))
    ensures Message(Blacklisted(kind, name)) != Message(NotWhitelisted(kind, name))
  {
  }
}
