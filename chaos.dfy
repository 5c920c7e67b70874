/** One scheduled disruption: re-validation of the victim, the kill-type
    dispatch and the emission of exactly one result. */
module Chaos {
  import opened Errors
  import opened Config
  import opened Victims
  import opened Messages

  /** An instant; the model only carries it. */
  type Time = int

  /** `verifyExecution`: enrollment, then the blacklist, then the whitelist;
      the first failing check decides the error and no later check is made. */
  function VerifyExecution(v: Victim): (r: Traced<Option<Error>>)
    ensures r.value.None? <==> v.isEnrolled == Returns(true, None) && !v.isBlacklisted && v.isWhitelisted
    ensures v.isEnrolled.err.Some? ==> r == Traced(v.isEnrolled.err, [IsEnrolled])
    ensures v.isEnrolled == Returns(false, None) ==>
              && r == Traced(Some(NotEnrolled(v.kind, v.name)), [IsEnrolled])
              && Message(r.value.value) == v.kind + " " + v.name + " is no longer enrolled in kube-monkey. Skipping"
    ensures v.isEnrolled == Returns(true, None) && v.isBlacklisted ==>
              && r == Traced(Some(Blacklisted(v.kind, v.name)), [IsEnrolled, IsBlacklisted])
              && Message(r.value.value) == v.kind + " " + v.name + " is blacklisted. Skipping"
    ensures v.isEnrolled == Returns(true, None) && !v.isBlacklisted && !v.isWhitelisted ==>
              && r == Traced(Some(NotWhitelisted(v.kind, v.name)), [IsEnrolled, IsBlacklisted, IsWhitelisted])
              && Message(r.value.value) == v.kind + " " + v.name + " is not whitelisted. Skipping"
    ensures r.value.None? ==> r.calls == [IsEnrolled, IsBlacklisted, IsWhitelisted]
  {
    if v.isEnrolled.err.Some? then Traced(v.isEnrolled.err, [IsEnrolled])
    else if !v.isEnrolled.value then Traced(Some(NotEnrolled(v.kind, v.name)), [IsEnrolled])
    else if v.isBlacklisted then Traced(Some(Blacklisted(v.kind, v.name)), [IsEnrolled, IsBlacklisted])
    else if !v.isWhitelisted then
      Traced(Some(NotWhitelisted(v.kind, v.name)), [IsEnrolled, IsBlacklisted, IsWhitelisted])
    else Traced(None, [IsEnrolled, IsBlacklisted, IsWhitelisted])
  }

  /** `getKillValue`: the victim's value, or 0 with the victim's error wrapped. */
  function GetKillValue(v: Victim): (r: Traced<Returns<int>>)
    ensures r.calls == [KillValue]
    ensures v.killValue.err.None? ==> r.value == v.killValue
    ensures v.killValue.err.Some? ==>
              r.value == Returns(0, Some(KillValueCheckFailed(v.kind, v.name, v.killValue.err.value)))
  {
    var answer := v.killValue;
    if answer.err.Some? then
      Traced(Returns(0, Some(KillValueCheckFailed(v.kind, v.name, answer.err.value))), [KillValue])
    else Traced(Returns(answer.value, None), [KillValue])
  }

  /** The tail shared by the three counted kill types: a failed count is the
      result; otherwise that many pods are deleted. */
  function DeleteCounted(v: Victim, countCall: Call): Traced<Option<Error>>
    requires IsCountCall(countCall)
  {
    var count := CountAnswer(v, countCall);
    if count.err.Some? then Traced(count.err, [countCall])
    else Traced(v.deleteRandomPods(count.value), [countCall, DeleteRandomPods(count.value)])
  }

  /** `terminate`: reads the kill type, then (speculatively) the kill value,
      and dispatches on the kill type. */
  function Terminate(v: Victim): (r: Traced<Option<Error>>)
    // a kill-type failure stops everything
    ensures v.killType.err.Some? ==>
              r == Traced(Some(KillTypeCheckFailed(v.kind, v.name, v.killType.err.value)), [KillType])
    // otherwise the kill value is always read, second
    ensures v.killType.err.None? ==> |r.calls| >= 2 && r.calls[..2] == [KillType, KillValue]
    // a kill-value failure stops every kill type but "all", recognised or not
    ensures v.killType.err.None? && v.killType.value != KillAllLabelValue && v.killValue.err.Some? ==>
              r == Traced(Some(KillValueCheckFailed(v.kind, v.name, v.killValue.err.value)), [KillType, KillValue])
    // an unrecognised kill type is an error and calls no count or delete function
    ensures v.killType.err.None? && !IsKnownKillType(v.killType.value) ==>
              && r.value.Some?
              && r.calls == [KillType, KillValue]
              && (v.killValue.err.None? ==> r.value == Some(UnrecognizedKillType(v.kind, v.name)))
    // "fixed" deletes exactly the kill value
    ensures v.killType == Returns(KillFixedLabelValue, None) && v.killValue.err.None? ==>
              r == Traced(v.deleteRandomPods(v.killValue.value),
                          [KillType, KillValue, DeleteRandomPods(v.killValue.value)])
    // "all" deletes what KillNumberForKillingAll counts, whatever the kill value
    ensures v.killType == Returns(KillAllLabelValue, None) ==>
              var n := v.killNumberForKillingAll;
              r == if n.err.Some? then Traced(n.err, [KillType, KillValue, KillNumberForKillingAll])
                   else Traced(v.deleteRandomPods(n.value),
                               [KillType, KillValue, KillNumberForKillingAll, DeleteRandomPods(n.value)])
    // "random-max" deletes what KillNumberForMaxPercentage(kill value) counts
    ensures v.killType == Returns(KillRandomMaxLabelValue, None) && v.killValue.err.None? ==>
              var p := v.killValue.value;
              var n := v.killNumberForMaxPercentage(p);
              r == if n.err.Some? then Traced(n.err, [KillType, KillValue, KillNumberForMaxPercentage(p)])
                   else Traced(v.deleteRandomPods(n.value),
                               [KillType, KillValue, KillNumberForMaxPercentage(p), DeleteRandomPods(n.value)])
    // "fixed-percentage" deletes what KillNumberForFixedPercentage(kill value) counts
    ensures v.killType == Returns(KillFixedPercentageLabelValue, None) && v.killValue.err.None? ==>
              var p := v.killValue.value;
              var n := v.killNumberForFixedPercentage(p);
              r == if n.err.Some? then Traced(n.err, [KillType, KillValue, KillNumberForFixedPercentage(p)])
                   else Traced(v.deleteRandomPods(n.value),
                               [KillType, KillValue, KillNumberForFixedPercentage(p), DeleteRandomPods(n.value)])
    // DeleteRandomPods is called at most once, last, and its result is the result
    ensures forall i | 0 <= i < |r.calls| && r.calls[i].DeleteRandomPods? ::
              i == |r.calls| - 1 && r.value == v.deleteRandomPods(r.calls[i].count)
    // a count function is called at most once; its failure is the result and no deletion follows
    ensures forall i | 0 <= i < |r.calls| && IsCountCall(r.calls[i]) ::
              && i == 2
              && (CountAnswer(v, r.calls[i]).err.Some? ==>
                    i == |r.calls| - 1 && r.value == CountAnswer(v, r.calls[i]).err)
  {
    if v.killType.err.Some? then
      Traced(Some(KillTypeCheckFailed(v.kind, v.name, v.killType.err.value)), [KillType])
    else
      var killType := v.killType.value;
      var read := GetKillValue(v);
      var killValue := read.value;
      var calls := [KillType] + read.calls;
      if killType != KillAllLabelValue && killValue.err.Some? then Traced(killValue.err, calls)
      else if killType == KillFixedLabelValue then
        Traced(v.deleteRandomPods(killValue.value), calls + [DeleteRandomPods(killValue.value)])
      else if killType == KillAllLabelValue then
        var rest := DeleteCounted(v, KillNumberForKillingAll);
        Traced(rest.value, calls + rest.calls)
      else if killType == KillRandomMaxLabelValue then
        var p := killValue.value;
        var rest := DeleteCounted(v, KillNumberForMaxPercentage(p));
        Traced(rest.value, calls + rest.calls)
      else if killType == KillFixedPercentageLabelValue then
        var p := killValue.value;
        var rest := DeleteCounted(v, KillNumberForFixedPercentage(p));
        Traced(rest.value, calls + rest.calls)
      else Traced(Some(UnrecognizedKillType(v.kind, v.name)), calls)
  }

  /** What one `Execute` reports for a victim, given the outcome of creating
      the cluster client: the first failing step's error, or nil. */
  function Execution(createClient: Option<Error>, v: Victim): (r: Traced<Option<Error>>)
    ensures createClient.Some? ==> r == Traced(createClient, [])
    ensures r.value.None? <==>
              createClient.None? && VerifyExecution(v).value.None? && Terminate(v).value.None?
    ensures createClient.None? && VerifyExecution(v).value.Some? ==>
              r == VerifyExecution(v) && KillType !in r.calls
    ensures createClient.None? && VerifyExecution(v).value.None? ==>
              r == Traced(Terminate(v).value, [IsEnrolled, IsBlacklisted, IsWhitelisted] + Terminate(v).calls)
  {
    if createClient.Some? then Traced(createClient, [])
    else
      var verified := VerifyExecution(v);
      if verified.value.Some? then verified
      else
        var terminated := Terminate(v);
        Traced(terminated.value, verified.calls + terminated.calls)
  }

  /** `Result`: the outcome of one chaos run. */
  datatype Result = Result(chaos: Chaos, err: Option<Error>)

  /** The result channel; `sent` is everything sent on it so far, in order. */
  class ResultChannel {
    var sent: seq<Result>

    constructor ()
      ensures sent == []
    {
      sent := [];
    }

    method Send(r: Result)
      modifies this
      ensures sent == old(sent) + [r]
    {
      sent := sent + [r];
    }
  }

  class Chaos {
    const killAt: Time
    const victim: Identity

    /** `New`. Both fields are constants: no method changes them. The chaos
        keeps only the victim's identity; what the victim answers is read when
        the chaos runs. */
    constructor (killtime: Time, victim: Identity)
      ensures KillAt() == killtime && Victim() == victim
    {
      this.killAt := killtime;
      this.victim := victim;
    }

    function Victim(): Identity
    {
      victim
    }

    function KillAt(): Time
    {
      killAt
    }

    /** `NewResult`: a result that refers back to this chaos. */
    function NewResult(e: Option<Error>): (r: Result)
      ensures r.chaos == this && r.err == e
    {
      Result(this, e)
    }

    /** `Execute`: sends exactly one result, whose error is that of the first
        failing step (client creation, verification, termination). `answers`
        is what this chaos's victim answers at the moment it runs, so state
        that changed since scheduling is seen. */
    method Execute(resultchan: ResultChannel, createClient: Option<Error>, answers: Victims.Victim)
      requires answers.kind == victim.kind && answers.name == victim.name
      modifies resultchan
      ensures resultchan.sent == old(resultchan.sent) + [NewResult(Execution(createClient, answers).value)]
    {
      if createClient.Some? {
        resultchan.Send(NewResult(createClient));
        return;
      }

      var verified := VerifyExecution(answers);
      if verified.value.Some? {
        resultchan.Send(NewResult(verified.value));
        return;
      }

      var terminated := Terminate(answers);
      if terminated.value.Some? {
        resultchan.Send(NewResult(terminated.value));
        return;
      }

      resultchan.Send(NewResult(None));
    }
  }

  /** With kill type "all", the kill value, read or failed, changes nothing. */
  lemma KillAllIgnoresKillValue(v: Victim, killValue: Returns<int>)
    requires v.killType == Returns(KillAllLabelValue, None)
    ensures Terminate(v.(killValue := killValue)) == Terminate(v)
  {
  }
}
