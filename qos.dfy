/** QoS policy groups: a LUN or volume may name either a plain or an adaptive
    policy group, never both. */
module Qos {
  import opened Wrappers

  datatype QosPolicyGroupKind = InvalidQosPolicyGroupKind | QosPolicyGroupKind | QosAdaptivePolicyGroupKind

  datatype QosPolicyGroup = QosPolicyGroup(name: string, kind: QosPolicyGroupKind)

  const BothKindsError := "only one kind of QoS policy group may be defined"

  /** `NewQosPolicyGroup`: two names is an error; one name is that group with
      its kind; no name is the Invalid kind, which is not an error. */
  function NewQosPolicyGroup(qosPolicy: string, adaptiveQosPolicy: string): (r: Result<QosPolicyGroup, string>)
    ensures r.Failure? <==> qosPolicy != "" && adaptiveQosPolicy != ""
    ensures r.Failure? ==> r.error == BothKindsError
    ensures qosPolicy != "" && adaptiveQosPolicy == "" ==>
              r == Success(QosPolicyGroup(qosPolicy, QosPolicyGroupKind))
    ensures qosPolicy == "" && adaptiveQosPolicy != "" ==>
              r == Success(QosPolicyGroup(adaptiveQosPolicy, QosAdaptivePolicyGroupKind))
    ensures qosPolicy == "" && adaptiveQosPolicy == "" ==>
              r == Success(QosPolicyGroup("", InvalidQosPolicyGroupKind))
  {
    if qosPolicy != "" && adaptiveQosPolicy != "" then Failure(BothKindsError)
    else if qosPolicy != "" then Success(QosPolicyGroup(qosPolicy, QosPolicyGroupKind))
    else if adaptiveQosPolicy != "" then Success(QosPolicyGroup(adaptiveQosPolicy, QosAdaptivePolicyGroupKind))
    else Success(QosPolicyGroup("", InvalidQosPolicyGroupKind))
  }

  /** The two policy names a group stands for: its name under its own kind. */
  function PolicyNames(g: QosPolicyGroup): (string, string)
  {
    match g.kind
    case QosPolicyGroupKind => (g.name, "")
    case QosAdaptivePolicyGroupKind => ("", g.name)
    case InvalidQosPolicyGroupKind => ("", "")
  }

  /** Every accepted pair of names is recovered from the group it builds, and a
      group has a valid kind exactly when it carries a non-empty name. */
  lemma QosPolicyGroupRoundTrip(qosPolicy: string, adaptiveQosPolicy: string)
    requires NewQosPolicyGroup(qosPolicy, adaptiveQosPolicy).Success?
    ensures PolicyNames(NewQosPolicyGroup(qosPolicy, adaptiveQosPolicy).value) == (qosPolicy, adaptiveQosPolicy)
    ensures var g := NewQosPolicyGroup(qosPolicy, adaptiveQosPolicy).value;
            g.kind != InvalidQosPolicyGroupKind <==> g.name != ""
  {
  }
}
