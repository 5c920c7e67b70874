# kube-monkey chaos execution and CNPG Cluster victims, in Dafny

This project models the part of kube-monkey that carries out one scheduled
disruption, and the factory that turns CloudNativePG (CNPG) `Cluster`
resources into victims.

- **Chaos** (`chaos.dfy`). A `Chaos` binds a kill time to a victim. `Execute`
  creates a cluster client, re-checks the victim, and then terminates pods.
  It sends exactly one `Result` on the result channel. The re-check
  (`verifyExecution`) looks at enrollment, then the blacklist, then the
  whitelist; the first failing check stops it with its own skip message.
  `terminate` reads the kill type and then the kill value. A kill-value failure
  is tolerated only for the "kill-all" kill type. It then dispatches to the right
  count function and calls `DeleteRandomPods` at most once. These decision
  chains are functions of the victim's answers. They return the outcome and the
  trace of victim calls made, which is what the source's unit tests assert.
  `Execute` is a method on the `Chaos` class. It appends one `Result` to the
  sequence that stands for the channel. The `Chaos` keeps only the victim's
  identity (kind and name). The victim's answers are an argument of `Execute`,
  read when it runs, so state that changed since scheduling is seen.
- **Victims** (`victims.dfy`). The victim interface is a record of answers: the
  result of each query, with the count functions and `DeleteRandomPods` given as
  functions of their argument.
- **Cluster construction** (`clusters.dfy`). `New` needs the identifier label.
  It also needs an MTBF (mean time between failures) label that parses as a
  strictly positive decimal integer.
- **Cluster listing and label queries** (`eligible_clusters.dfy`).
  `EligibleClusters` is a loop that keeps the listed objects that construct and
  are not blacklisted. `IsEnrolled`, `KillType` and `KillValue` read a freshly
  fetched label map. `AsVictim` presents a Cluster through the victim record.
- **Support**: `errors.dfy` (Go's `error` and `(T, error)` returns, API reads
  that succeed or fail, and the error variants), `strconv.dfy` (`Atoi` and
  `Itoa` with their round trip), `messages.dfy` (error texts), `config.dfy`
  (label keys and values), and `end_to_end.dfy` (whole runs against a Cluster).

Go's `(T, error)` results are modelled as `Returns(value, err)`, where
`err == None` is a nil error. The value returned beside an error (`-1`, `0`,
`""`, `false`) is kept exactly as the source returns it.

## Model

| member | source | states |
|---|---|---|
| Strconv.Atoi | internal/pkg/victims/factory/cnpg.io/postgresql/clusters/clusters.go:58-61 | parsing succeeds exactly on an optional sign followed by one or more digits; a syntax error comes with value 0; the sign of the value follows the text's sign |
| Strconv.AtoiLeadingZero | internal/pkg/victims/factory/cnpg.io/postgresql/clusters/clusters.go:58-61 | a leading zero is accepted and ignored: "0" + s reads as s for any run of digits s |
| Strconv.AtoiPlus | internal/pkg/victims/factory/cnpg.io/postgresql/clusters/clusters.go:58-61 | a "+" sign is accepted and changes nothing |
| Strconv.AtoiMinus | internal/pkg/victims/factory/cnpg.io/postgresql/clusters/clusters.go:58-61 | a "-" sign negates the digits' value ("-0" reads as 0); with the two above and AtoiItoa this fixes the value of every accepted text |
| Strconv.AtoiItoa | internal/pkg/victims/factory/cnpg.io/postgresql/clusters/clusters.go:58-67 | reading back the decimal rendering of any integer gives that integer with no error |
| Messages.Message | internal/pkg/chaos/chaos.go:84-145 | every skip reason and missing-label error starts with the victim's kind and name; the wrapped KillType and KillValue failures end with the cause's own text |
| Messages.SkipMessagesDistinct | internal/pkg/chaos/chaos.go:83-95 | the not-enrolled, blacklisted and not-whitelisted messages differ pairwise for every kind and name |
| Chaos.VerifyExecution | internal/pkg/chaos/chaos.go:76-99 | succeeds iff IsEnrolled gives (true, nil), not blacklisted and whitelisted; an IsEnrolled error is returned unchanged; each failing check gives its exact skip message and no later check is called |
| Chaos.GetKillValue | internal/pkg/chaos/chaos.go:142-149 | calls KillValue once; returns the victim's value on success, and 0 with the wrapped error on failure |
| Chaos.Terminate | internal/pkg/chaos/chaos.go:102-140 | a KillType failure stops with no further call; otherwise KillValue is always read second; a KillValue failure aborts every kill type except `KillAllLabelValue` ("kill-all"); each known kill type calls its count function with the kill value and deletes that count; an unknown type errors without counting or deleting; a count failure is the result with no delete; DeleteRandomPods is called at most once, last, and its result is the result |
| Chaos.KillAllIgnoresKillValue | internal/pkg/chaos/chaos.go:108-124 | with kill type `KillAllLabelValue` ("kill-all"), the kill value's answer, success or failure, does not change the outcome or the calls |
| Chaos.Execution | internal/pkg/chaos/chaos.go:49-73 | the error is that of the first failing step (client creation, then verification, then termination); it is nil iff all three succeed; terminate is never called when verification fails |
| Chaos.ResultChannel.Send | internal/pkg/chaos/chaos.go:72 | sending appends the result to what the channel carried |
| Chaos.Chaos.constructor | internal/pkg/chaos/chaos.go:20-34 | KillAt() and Victim() return what New was given (the kill time and the victim's identity); both fields are constants, so no method changes them |
| Chaos.Chaos.NewResult | internal/pkg/chaos/chaos.go:152-157 | the result refers to the chaos that made it and carries the given error unchanged |
| Chaos.Chaos.Execute | internal/pkg/chaos/chaos.go:49-73 | appends exactly one result to the channel, referring to this chaos and carrying the error of Execution for the victim's answers at the time it runs |
| Clusters.Identifier | internal/pkg/victims/factory/cnpg.io/postgresql/clusters/clusters.go:40-47 | succeeds iff the identifier key is present, then returns its value verbatim (even empty); otherwise "" with a missing-label error |
| Clusters.MeanTimeBetweenFailures | internal/pkg/victims/factory/cnpg.io/postgresql/clusters/clusters.go:51-68 | succeeds iff the MTBF label is present, is decimal text, and parses to a value above 0; the value is then that parse and positive; an absent label gives a missing-label error, non-decimal text Atoi's syntax error, and any error comes with -1 |
| Clusters.MtbfRoundTrip | internal/pkg/victims/factory/cnpg.io/postgresql/clusters/clusters.go:58-67 | an MTBF label equal to the decimal rendering of n > 0 yields n |
| Clusters.New | internal/pkg/victims/factory/cnpg.io/postgresql/clusters/clusters.go:18-33 | fails iff identifier or MTBF fails, with the identifier error first; fails with nil and succeeds with a Cluster whose kind, name and namespace are the object's, whose identifier is the label and whose MTBF is the positive parse |
| Clusters.NewRoundTrip | internal/pkg/victims/factory/cnpg.io/postgresql/clusters/clusters.go:18-33 | every Cluster with positive MTBF is rebuilt exactly from an object carrying its identity, identifier label and rendered MTBF label |
| ClusterVictims.Eligible | internal/pkg/victims/factory/cnpg.io/postgresql/clusters/eligible_clusters.go:38-51 | the kept victims are no more than the listed items and none is blacklisted |
| ClusterVictims.EligibleClusters | internal/pkg/victims/factory/cnpg.io/postgresql/clusters/eligible_clusters.go:32-54 | a list failure gives no victims and that error; otherwise a nil error and exactly the filter of the listing: the items that construct and are not blacklisted, in listing order |
| ClusterVictims.EligibleAppend | internal/pkg/victims/factory/cnpg.io/postgresql/clusters/eligible_clusters.go:38-53 | filtering distributes over concatenation of listings, so output order follows listing order |
| ClusterVictims.EligibleMembership | internal/pkg/victims/factory/cnpg.io/postgresql/clusters/eligible_clusters.go:38-51 | a victim is returned iff it is not blacklisted and some listed item constructs to it |
| ClusterVictims.IsEnrolled | internal/pkg/victims/factory/cnpg.io/postgresql/clusters/eligible_clusters.go:56-64 | true iff the enabled key maps to the enabled value; a missing label is (false, nil); a fetch error is (false, err) |
| ClusterVictims.KillType | internal/pkg/victims/factory/cnpg.io/postgresql/clusters/eligible_clusters.go:66-79 | returns the label value verbatim iff the fetch succeeds and the label is present; a fetch error is propagated; an absent label is a missing-label error |
| ClusterVictims.KillValue | internal/pkg/victims/factory/cnpg.io/postgresql/clusters/eligible_clusters.go:81-99 | succeeds iff the label is present, decimal and above 0, with that positive parse as value; every error comes with -1; a non-numeric label is reported with Atoi's 0 |
| ClusterVictims.KillValueRoundTrip | internal/pkg/victims/factory/cnpg.io/postgresql/clusters/eligible_clusters.go:93-99 | a kill-value label equal to the decimal rendering of n > 0 yields n |
| ClusterVictims.AsVictim | internal/pkg/victims/factory/cnpg.io/postgresql/clusters/eligible_clusters.go:56-99 | a Cluster answers the victim contract with its own kind and name; enrollment fails only when its own fetch fails, and then with that fetch's error; it is enrolled iff the enabled label holds the enabled value; the kill type is answered iff its fetch has the label, and the answer is the label's value; the kill value is answered iff its fetch has a decimal label parsing above 0, and the answer is that parse; a failed fetch's error comes back unchanged; the blacklist, whitelist, kill-count and deletion answers are the ones given |
| EndToEnd.FixedKillDeletesKillValue | internal/pkg/chaos/chaos.go:117-118 | an enrolled, whitelisted, not blacklisted Cluster with kill type "fixed" and kill value n makes exactly one DeleteRandomPods(n) call, and the run reports its result |
| EndToEnd.NotEnrolledIsSkipped | internal/pkg/chaos/chaos.go:83-85 | a Cluster whose enabled label is not "enabled" is skipped with the exact not-enrolled message after only the IsEnrolled call |
| EndToEnd.UnknownKillTypeDeletesNothing | internal/pkg/chaos/chaos.go:137-138 | an unrecognised kill-type label is an error and no count or delete call is made |

## Left out

- `Schedule` and `DurationToKillTime`: they sleep on the wall clock until the kill time. The kill time is carried as a plain value and never compared.
- Concurrency: each chaos runs as its own goroutine. The result channel is modelled as a sequence that `Execute` appends to.
- Client creation (`internal/pkg/kubernetes/kubernetes.go`) is an input of `Execute` that either succeeds or carries its error. The client handles of `internal/pkg/victims/kube.go` hold no logic and are not modelled.
- API `Get` and `List` calls are inputs, each a label map or list, or a transport error. The namespace and name used to address them are not modelled.
- `IsEligible` only probes the API for the CRD and treats any error as false. It is not modelled.
- The blacklist and whitelist checks, the three kill-count functions and `DeleteRandomPods` live in the shared victim base and other victim kinds, which are not part of this model. Their answers are inputs of the victim record. No rounding or random choice is assumed.
- Logging (`glog`) is not modelled: the warning for a listed object that fails to construct, and the others.
- Messages.Message: the wrapping text of `errors.Wrapf` is rendered as "context: cause", and `strconv`'s quoting of the parsed text is rendered without Go's escapes. The three skip messages are exact.
- Strconv.Atoi: does not model the range error for text beyond 64-bit integers; integers are unbounded.
- The label keys and values live in kube-monkey's config package (`internal/pkg/config`), which is not part of this model; `config.dfy` uses the values of the upstream kube-monkey project. The proofs use two facts about them: the four kill-type values differ from each other, and the enabled value is not empty (so a missing enabled label, read as "", means not enrolled). `FixedKillDeletesKillValue` also needs the enabled, kill-type and kill-value keys to differ, or its premises cannot hold together.
- The victim's answers are an argument of `Execute`, fixed for that one execution. Each query is made at most once per `Execute`, so nothing is lost. The `VictimKubeClient` argument passed to each query is not modelled.
- The `Chaos` holds only the victim's kind and name. The namespace, identifier and MTBF of the victim base are not read by the chaos code and are not carried.
