/** The label keys and values of kube-monkey's label protocol. */
module Config {
  const IdentLabelKey: string := "kube-monkey/identifier"
  const MtbfLabelKey: string := "kube-monkey/mtbf"
  const EnabledLabelKey: string := "kube-monkey/enabled"
  const EnabledLabelValue: string := "enabled"
  const KillTypeLabelKey: string := "kube-monkey/kill-mode"
  const KillValueLabelKey: string := "kube-monkey/kill-value"

  const KillFixedLabelValue: string := "fixed"
  const KillAllLabelValue: string := "kill-all"
  const KillRandomMaxLabelValue: string := "random-max-percent"
  const KillFixedPercentageLabelValue: string := "fixed-percent"

  /** The kill types `terminate` recognises. */
  predicate IsKnownKillType(t: string)
  {
    t == KillFixedLabelValue || t == KillAllLabelValue
    || t == KillRandomMaxLabelValue || t == KillFixedPercentageLabelValue
  }
}
