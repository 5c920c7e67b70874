/** Listing the eligible CNPG Cluster victims, and the label queries a Cluster
    victim answers from a freshly fetched copy of its object. */
module ClusterVictims {
  import opened Errors
  import opened Config
  import opened Clusters
  import Strconv
  import Victims

  /** A listed object yields this Cluster victim. */
  predicate Builds(obj: Object, c: Cluster)
  {
    New(obj) == Returns(Some(c), None)
  }

  /** The victims kept from a listing, in listing order: those that construct
      and are not blacklisted. */
  function Eligible(items: seq<Object>, isBlacklisted: Cluster -> bool): (r: seq<Cluster>)
    ensures |r| <= |items|
    ensures forall k | 0 <= k < |r| :: !isBlacklisted(r[k])
  {
    if items == [] then []
    else
      var kept := Eligible(items[..|items| - 1], isBlacklisted);
      var victim := New(items[|items| - 1]);
      if victim.err.Some? || isBlacklisted(victim.value.value) then kept
      else kept + [victim.value.value]
  }

  /** `EligibleClusters`: a list failure is returned with no victims;
      otherwise the victims are exactly the eligible ones, in listing order. */
  method EligibleClusters(listed: Fetch<seq<Object>>, isBlacklisted: Cluster -> bool)
    returns (eligVictims: seq<Cluster>, err: Option<Error>)
    ensures listed.FetchFailed? ==> eligVictims == [] && err == Some(listed.error)
    ensures listed.Fetched? ==> err == None && eligVictims == Eligible(listed.value, isBlacklisted)
  {
    if listed.FetchFailed? {
      return [], Some(listed.error);
    }

    var items := listed.value;
    eligVictims := [];
    for i := 0 to |items|
      invariant eligVictims == Eligible(items[..i], isBlacklisted)
    {
      assert items[..i + 1][..i] == items[..i];
      var victim := New(items[i]);
      if victim.err.Some? {
        continue;
      }
      if isBlacklisted(victim.value.value) {
        continue;
      }
      eligVictims := eligVictims + [victim.value.value];
    }
    assert items[..|items|] == items;
    err := None;
  }

  /** Filtering a listing piecewise gives the same victims in the same order:
      the output follows listing order. */
  lemma {:induction false} EligibleAppend(a: seq<Object>, b: seq<Object>, isBlacklisted: Cluster -> bool)
    ensures Eligible(a + b, isBlacklisted) == Eligible(a, isBlacklisted) + Eligible(b, isBlacklisted)
  {
    if b != [] {
      var b' := b[..|b| - 1];
      assert (a + b)[..|a + b| - 1] == a + b';
      assert (a + b)[|a + b| - 1] == b[|b| - 1];
      EligibleAppend(a, b', isBlacklisted);
    } else {
      assert a + b == a;
    }
  }

  /** A victim is returned exactly when some listed object builds it and it is
      not blacklisted. */
  lemma {:induction false} EligibleMembership(items: seq<Object>, isBlacklisted: Cluster -> bool, c: Cluster)
    ensures c in Eligible(items, isBlacklisted) <==>
              !isBlacklisted(c) && exists i | 0 <= i < |items| :: Builds(items[i], c)
  {
    if items != [] {
      var init := items[..|items| - 1];
      EligibleMembership(init, isBlacklisted, c);
      if exists i | 0 <= i < |items| :: Builds(items[i], c) {
        var i :| 0 <= i < |items| && Builds(items[i], c);
        if i < |items| - 1 {
          assert Builds(init[i], c);
        }
      }
      if exists i | 0 <= i < |init| :: Builds(init[i], c) {
        var i :| 0 <= i < |init| && Builds(init[i], c);
        assert Builds(items[i], c);
      }
    }
  }

  /** `IsEnrolled`: whether the enabled label holds the enabled value; a
      missing label is "not enrolled", only a fetch failure is an error. */
  function IsEnrolled(c: Cluster, fetched: Fetch<Labels>): (r: Returns<bool>)
    ensures fetched.FetchFailed? ==> r == Returns(false, Some(fetched.error))
    ensures fetched.Fetched? ==>
              && r.err.None?
              && (r.value <==> EnabledLabelKey in fetched.value && fetched.value[EnabledLabelKey] == EnabledLabelValue)
  {
    match fetched
    case FetchFailed(e) => Returns(false, Some(e))
    case Fetched(labels) =>
      // a Go map yields "" for a missing key
      var enabled := if EnabledLabelKey in labels then labels[EnabledLabelKey] else "";
      Returns(enabled == EnabledLabelValue, None)
  }

  /** `KillType`: the kill-type label's value, as it is. */
  function KillType(c: Cluster, fetched: Fetch<Labels>): (r: Returns<string>)
    ensures r.err.None? <==> fetched.Fetched? && KillTypeLabelKey in fetched.value
    ensures r.err.None? ==> r.value == fetched.value[KillTypeLabelKey]
    ensures fetched.FetchFailed? ==> r == Returns("", Some(fetched.error))
    ensures fetched.Fetched? && KillTypeLabelKey !in fetched.value ==>
              r == Returns("", Some(MissingLabel(c.kind, c.name, KillTypeLabelKey)))
  {
    match fetched
    case FetchFailed(e) => Returns("", Some(e))
    case Fetched(labels) =>
      if KillTypeLabelKey in labels then Returns(labels[KillTypeLabelKey], None)
      else Returns("", Some(MissingLabel(c.kind, c.name, KillTypeLabelKey)))
  }

  /** `KillValue`: the kill-value label read as a strictly positive decimal
      integer; -1 with an error otherwise. */
  function KillValue(c: Cluster, fetched: Fetch<Labels>): (r: Returns<int>)
    ensures r.err.None? <==>
              && fetched.Fetched? && KillValueLabelKey in fetched.value
              && Strconv.IsDecimal(fetched.value[KillValueLabelKey])
              && Strconv.Atoi(fetched.value[KillValueLabelKey]).value > 0
    ensures r.err.None? ==> r.value > 0 && Strconv.Atoi(fetched.value[KillValueLabelKey]) == Returns(r.value, None)
    ensures r.err.Some? ==> r.value == -1
    ensures fetched.FetchFailed? ==> r.err == Some(fetched.error)
    ensures fetched.Fetched? && KillValueLabelKey !in fetched.value ==>
              r.err == Some(MissingLabel(c.kind, c.name, KillValueLabelKey))
    // a label that is not a number is reported with the 0 that Atoi yields for it
    ensures fetched.Fetched? && KillValueLabelKey in fetched.value
            && !Strconv.IsDecimal(fetched.value[KillValueLabelKey]) ==>
              r.err == Some(InvalidLabelValue(KillValueLabelKey, 0))
  {
    match fetched
    case FetchFailed(e) => Returns(-1, Some(e))
    case Fetched(labels) =>
      if KillValueLabelKey !in labels then Returns(-1, Some(MissingLabel(c.kind, c.name, KillValueLabelKey)))
      else
        var parsed := Strconv.Atoi(labels[KillValueLabelKey]);
        if parsed.err.Some? || !(parsed.value > 0) then
          Returns(-1, Some(InvalidLabelValue(KillValueLabelKey, parsed.value)))
        else Returns(parsed.value, None)
  }

  /** A kill-value label holding the decimal rendering of a positive number reads back as that number. */
  lemma KillValueRoundTrip(c: Cluster, labels: Labels, n: int)
    requires n > 0 && KillValueLabelKey in labels && labels[KillValueLabelKey] == Strconv.Itoa(n)
    ensures KillValue(c, Fetched(labels)) == Returns(n, None)
  {
    Strconv.AtoiItoa(n);
  }

  /** A Cluster seen through the victim contract. Each of its label queries
      makes its own fetch; the list checks, the kill-count functions and pod
      deletion are given, as they are not part of this model. */
  function AsVictim(
    c: Cluster,
    enrolledFetch: Fetch<Labels>,
    killTypeFetch: Fetch<Labels>,
    killValueFetch: Fetch<Labels>,
    isBlacklisted: bool,
    isWhitelisted: bool,
    killNumberForKillingAll: Returns<int>,
    killNumberForMaxPercentage: int -> Returns<int>,
    killNumberForFixedPercentage: int -> Returns<int>,
    deleteRandomPods: int -> Option<Error>): (v: Victims.Victim)
    ensures v.kind == c.kind && v.name == c.name
    // enrollment fails only when its own fetch fails, never on a missing label
    ensures v.isEnrolled.err.Some? <==> enrolledFetch.FetchFailed?
    ensures enrolledFetch.FetchFailed? ==> v.isEnrolled == Returns(false, Some(enrolledFetch.error))
    ensures v.isEnrolled == Returns(true, None) <==>
              enrolledFetch.Fetched? && EnabledLabelKey in enrolledFetch.value
              && enrolledFetch.value[EnabledLabelKey] == EnabledLabelValue
    // the kill type is the label's value, the thing Terminate dispatches on
    ensures v.killType.err.None? <==> killTypeFetch.Fetched? && KillTypeLabelKey in killTypeFetch.value
    ensures v.killType.err.None? ==> v.killType.value == killTypeFetch.value[KillTypeLabelKey]
    ensures killTypeFetch.FetchFailed? ==> v.killType.err == Some(killTypeFetch.error)
    // a kill value is answered exactly when its own fetch holds a strictly positive decimal
    ensures v.killValue.err.None? <==>
              && killValueFetch.Fetched? && KillValueLabelKey in killValueFetch.value
              && Strconv.IsDecimal(killValueFetch.value[KillValueLabelKey])
              && Strconv.Atoi(killValueFetch.value[KillValueLabelKey]).value > 0
    ensures v.killValue.err.None? ==>
              v.killValue.value > 0
              && Strconv.Atoi(killValueFetch.value[KillValueLabelKey]) == Returns(v.killValue.value, None)
    ensures killValueFetch.FetchFailed? ==> v.killValue.err == Some(killValueFetch.error)
    // the list checks, the kill-count functions and pod deletion are the given ones
    ensures v.isBlacklisted == isBlacklisted && v.isWhitelisted == isWhitelisted
    ensures v.killNumberForKillingAll == killNumberForKillingAll
    ensures v.killNumberForMaxPercentage == killNumberForMaxPercentage
    ensures v.killNumberForFixedPercentage == killNumberForFixedPercentage
    ensures v.deleteRandomPods == deleteRandomPods
  {
    Victims.Victim(
      c.kind, c.name,
      IsEnrolled(c, enrolledFetch), isBlacklisted, isWhitelisted,
      KillType(c, killTypeFetch), KillValue(c, killValueFetch),
      killNumberForKillingAll, killNumberForMaxPercentage, killNumberForFixedPercentage,
      deleteRandomPods)
  }
}
