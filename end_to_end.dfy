/** Whole chaos runs against a CNPG Cluster victim whose labels are read
    fresh at execution time. */
module EndToEnd {
  import opened Errors
  import opened Config
  import opened Victims
  import opened Chaos
  import opened Clusters
  import opened ClusterVictims
  import opened Messages
  import Strconv

  /** An enrolled, listed and whitelisted Cluster with kill type "fixed" and
      kill value n loses exactly n pods in one deletion, and the run reports
      what that deletion reports. */
  lemma FixedKillDeletesKillValue(
    c: Cluster, labels: Labels, n: int,
    killAll: Returns<int>, maxPct: int -> Returns<int>, fixedPct: int -> Returns<int>,
    delete: int -> Option<Error>)
    requires n > 0
    requires EnabledLabelKey in labels && labels[EnabledLabelKey] == EnabledLabelValue
    requires KillTypeLabelKey in labels && labels[KillTypeLabelKey] == KillFixedLabelValue
    requires KillValueLabelKey in labels && labels[KillValueLabelKey] == Strconv.Itoa(n)
    ensures var v := AsVictim(c, Fetched(labels), Fetched(labels), Fetched(labels), false, true,
                              killAll, maxPct, fixedPct, delete);
            Execution(None, v) == Traced(delete(n),
              [IsEnrolled, IsBlacklisted, IsWhitelisted, KillType, KillValue, DeleteRandomPods(n)])
  {
    KillValueRoundTrip(c, labels, n);
  }

  /** A Cluster whose enabled label no longer says "enabled" is skipped with
      the not-enrolled message, before any kill-type read or deletion. */
  lemma NotEnrolledIsSkipped(
    c: Cluster, labels: Labels, killTypeFetch: Fetch<Labels>, killValueFetch: Fetch<Labels>,
    isBlacklisted: bool, isWhitelisted: bool,
    killAll: Returns<int>, maxPct: int -> Returns<int>, fixedPct: int -> Returns<int>,
    delete: int -> Option<Error>)
    requires EnabledLabelKey !in labels || labels[EnabledLabelKey] != EnabledLabelValue
    ensures var v := AsVictim(c, Fetched(labels), killTypeFetch, killValueFetch, isBlacklisted, isWhitelisted,
                              killAll, maxPct, fixedPct, delete);
            var r := Execution(None, v);
            && r.value.Some?
            && Message(r.value.value) == c.kind + " " + c.name + " is no longer enrolled in kube-monkey. Skipping"
            && r.calls == [IsEnrolled]
  {
  }

  /** An unknown kill type is an error, and nothing is counted or deleted. */
  lemma UnknownKillTypeDeletesNothing(
    c: Cluster, labels: Labels, killType: string, killValueFetch: Fetch<Labels>,
    killAll: Returns<int>, maxPct: int -> Returns<int>, fixedPct: int -> Returns<int>,
    delete: int -> Option<Error>)
    requires EnabledLabelKey in labels && labels[EnabledLabelKey] == EnabledLabelValue
    requires KillTypeLabelKey in labels && labels[KillTypeLabelKey] == killType
    requires !IsKnownKillType(killType)
    ensures var v := AsVictim(c, Fetched(labels), Fetched(labels), killValueFetch, false, true,
                              killAll, maxPct, fixedPct, delete);
            var r := Execution(None, v);
            && r.value.Some?
            && r.calls == [IsEnrolled, IsBlacklisted, IsWhitelisted, KillType, KillValue]
  {
  }
}
