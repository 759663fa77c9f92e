/** Which workload the exporter books a pod under.

  The metrics server knows each pod's direct owner. The exporter's queries turn the owner into a
  workload label: the name of a ReplicaSet without its last segment, the name of a StatefulSet, a
  DaemonSet or a Job as it is, and no label for any other owner. Kubernetes, on its side, decides which
  pods a manifest owns.
 */
module Owners {
  import opened Results
  import opened Manifests

  /** A running pod: its owner, the Deployment that owns that in turn if one does, and its containers as
      the cluster holds them. */
  datatype Pod = Pod(
    namespace: string, ownerKind: string, ownerName: string, deployment: Option<string>, containers: seq<Value>)

  type Pods = seq<Pod>

  /** The index of the last hyphen, or -1. */
  function LastHyphen(s: string): (i: int)
    ensures -1 <= i < |s|
    ensures i >= 0 ==> s[i] == '-'
    ensures forall j :: i < j < |s| ==> s[j] != '-'
  {
    if s == "" then -1
    else if s[|s| - 1] == '-' then |s| - 1
    else LastHyphen(s[..|s| - 1])
  }

  /** What stands before the last hyphen, if there is something on either side of it. */
  function Stripped(s: string): Option<string> {
    var i := LastHyphen(s);
    if 0 < i < |s| - 1 then Some(s[..i]) else None
  }

  /** The workload label of the exporter's queries. */
  function LabelOf(p: Pod): Option<string> {
    if p.ownerKind == "ReplicaSet" then Stripped(p.ownerName)
    else if p.ownerKind in {"StatefulSet", "DaemonSet", "Job"} && p.ownerName != "" then Some(p.ownerName)
    else None
  }

  /** The pods whose metrics are summed under a workload of a namespace. */
  function Filed(pods: Pods, namespace: string, workload: string): Pods {
    if pods == [] then []
    else
      var last := pods[|pods| - 1];
      Filed(pods[..|pods| - 1], namespace, workload)
      + if last.namespace == namespace && LabelOf(last) == Some(workload) then [last] else []
  }

  // ---------------------------------------------------------------- ownership

  /** The suffix a Deployment gives to each of its ReplicaSets. */
  predicate IsHash(s: string) {
    s != "" && '-' !in s
  }

  ghost predicate IsReplicaSetOf(replicaSet: string, deployment: string) {
    exists hash :: IsHash(hash) && replicaSet == deployment + "-" + hash
  }

  /** The cluster runs the pod for the object: a Deployment's pods belong to a ReplicaSet that it owns and
      has named, the pods of any other kind to the object itself, owned by nothing else. */
  ghost predicate Owns(o: Object, p: Pod) {
    && p.namespace == NamespaceOf(o)
    && if KindOf(o) == "Deployment" then
         p.ownerKind == "ReplicaSet" && p.deployment == Some(NameOf(o)) && IsReplicaSetOf(p.ownerName, NameOf(o))
       else p.ownerKind == KindOf(o) && p.ownerName == NameOf(o) && p.deployment == None
  }

  ghost function Owned(pods: Pods, o: Object): Pods {
    if pods == [] then []
    else
      var last := pods[|pods| - 1];
      Owned(pods[..|pods| - 1], o) + if Owns(o, last) then [last] else []
  }

  /** The kinds whose pods the exporter files under the name of their manifest. */
  predicate IsMapped(o: Object) {
    KindOf(o) in {"Deployment", "StatefulSet", "DaemonSet"}
  }

  /** The kinds the gate prices but the exporter does not map. */
  predicate IsUnmapped(o: Object) {
    KindOf(o) in {"ReplicaSet", "ReplicationController"}
  }

  /** No pod of anything else is filed under the object's name. */
  ghost predicate NotShared(pods: Pods, o: Object) {
    forall p :: p in pods && p.namespace == NamespaceOf(o) && LabelOf(p) == Some(NameOf(o)) ==> Owns(o, p)
  }

  lemma {:induction false} StrippedIs(name: string, hash: string)
    requires name != "" && IsHash(hash)
    ensures Stripped(name + "-" + hash) == Some(name)
  {
    var s := name + "-" + hash;
    assert s[|name|] == '-';
    assert forall j :: |name| < j < |s| ==> s[j] == hash[j - |name| - 1];
    assert LastHyphen(s) == |name|;
    assert s[..|name|] == name;
  }

  lemma {:induction false} StrippedIsShorter(s: string)
    ensures Stripped(s) != Some(s)
  {
  }

  /** The pods of a mapped kind carry the label that is the name of their manifest. */
  lemma {:induction false} OwnLabel(o: Object, p: Pod)
    requires Owns(o, p) && IsMapped(o) && NameOf(o) != ""
    ensures LabelOf(p) == Some(NameOf(o))
  {
    if KindOf(o) == "Deployment" {
      var hash :| IsHash(hash) && p.ownerName == NameOf(o) + "-" + hash;
      StrippedIs(NameOf(o), hash);
    }
  }

  /** The pods of an unmapped kind never do. */
  lemma {:induction false} NeverOwnLabel(o: Object, p: Pod)
    requires Owns(o, p) && IsUnmapped(o)
    ensures LabelOf(p) != Some(NameOf(o))
    ensures KindOf(o) == "ReplicationController" ==> LabelOf(p) == None
    ensures KindOf(o) == "ReplicaSet" ==> LabelOf(p) == Stripped(NameOf(o))
  {
    StrippedIsShorter(p.ownerName);
  }

  /** What is filed under the name of a mapped object that shares it with nothing is what it owns. */
  lemma {:induction false} FiledIsOwned(pods: Pods, o: Object)
    requires IsMapped(o) && NameOf(o) != "" && NotShared(pods, o)
    ensures Filed(pods, NamespaceOf(o), NameOf(o)) == Owned(pods, o)
  {
    if pods != [] {
      var front, last := pods[..|pods| - 1], pods[|pods| - 1];
      assert forall p :: p in front ==> p in pods;
      FiledIsOwned(front, o);
      assert last in pods;
      if Owns(o, last) {
        OwnLabel(o, last);
      }
    }
  }

  lemma {:induction false} FiledMembers(pods: Pods, namespace: string, workload: string)
    ensures forall p :: p in Filed(pods, namespace, workload) <==>
                        p in pods && p.namespace == namespace && LabelOf(p) == Some(workload)
  {
    if pods != [] {
      var front, last := pods[..|pods| - 1], pods[|pods| - 1];
      assert pods == front + [last];
      FiledMembers(front, namespace, workload);
    }
  }

  /** Something is filed under the name of an unmapped object exactly when a pod of something else is. */
  lemma {:induction false} UnmappedFiledExactlyWhen(pods: Pods, o: Object)
    requires IsUnmapped(o)
    ensures Filed(pods, NamespaceOf(o), NameOf(o)) != [] <==> !NotShared(pods, o)
  {
    var filed := Filed(pods, NamespaceOf(o), NameOf(o));
    FiledMembers(pods, NamespaceOf(o), NameOf(o));
    if filed != [] {
      var p := filed[0];
      assert p in filed;
      if Owns(o, p) {
        NeverOwnLabel(o, p);
      }
    }
  }

  /** A bare ReplicaSet whose name has a last segment is booked on the workload named like the rest. */
  lemma {:induction false} BareReplicaSetIsMisfiled(pods: Pods, o: Object, p: Pod, other: string)
    requires KindOf(o) == "ReplicaSet" && Owns(o, p) && p in pods && Stripped(NameOf(o)) == Some(other)
    ensures other != NameOf(o) && p in Filed(pods, NamespaceOf(o), other)
  {
    NeverOwnLabel(o, p);
    FiledMembers(pods, NamespaceOf(o), other);
  }

  /** If that is the name of a Deployment, it is measured with pods that are not its own. */
  lemma {:induction false} BareReplicaSetShares(pods: Pods, o: Object, p: Pod, deployment: Object)
    requires KindOf(o) == "ReplicaSet" && Owns(o, p) && p in pods && KindOf(deployment) == "Deployment"
    requires NamespaceOf(deployment) == NamespaceOf(o) && Stripped(NameOf(o)) == Some(NameOf(deployment))
    ensures !NotShared(pods, deployment)
  {
    BareReplicaSetIsMisfiled(pods, o, p, NameOf(deployment));
  }
}
