/** Resource vectors as the reports add them up. */
module Resources {
  import opened Kube

  /** Quantities that have a field of their own, and the others by name. */
  datatype Resource = Resource(
    milliCPU: nat,
    memory: nat,
    ephemeralStorage: nat,
    allowedPodNumber: nat,
    scalarResources: map<string, nat>)

  const NOTHING := Resource(0, 0, 0, 0, map[])

  predicate IsNamed(r: string) {
    r == "cpu" || r == "memory" || r == "ephemeral-storage" || r == "pods"
  }

  /** The quantity of r in the vector. */
  function Of(res: Resource, r: string): nat {
    if r == "cpu" then res.milliCPU
    else if r == "memory" then res.memory
    else if r == "ephemeral-storage" then res.ephemeralStorage
    else if r == "pods" then res.allowedPodNumber
    else Amount(res.scalarResources, r)
  }

  /** framework.Resource.Add: every listed quantity is added. */
  function AddList(res: Resource, rl: ResourceList): (sum: Resource)
    ensures forall r :: Of(sum, r) == Of(res, r) + Amount(rl, r)
  {
    Resource(
      res.milliCPU + Amount(rl, "cpu"),
      res.memory + Amount(rl, "memory"),
      res.ephemeralStorage + Amount(rl, "ephemeral-storage"),
      res.allowedPodNumber + Amount(rl, "pods"),
      map r | r in res.scalarResources.Keys + rl.Keys && (r in res.scalarResources || !IsNamed(r)) ::
        Amount(res.scalarResources, r) + if IsNamed(r) then 0 else Amount(rl, r))
  }

  /** framework.Resource.SetMaxResource: every listed quantity but the pod count is raised to at least its amount. */
  function SetMax(res: Resource, rl: ResourceList): (top: Resource)
    ensures forall r :: Of(top, r) == if r == "pods" then Of(res, r) else Max(Of(res, r), Amount(rl, r))
  {
    Resource(
      Max(res.milliCPU, Amount(rl, "cpu")),
      Max(res.memory, Amount(rl, "memory")),
      Max(res.ephemeralStorage, Amount(rl, "ephemeral-storage")),
      res.allowedPodNumber,
      map r | r in res.scalarResources.Keys + rl.Keys && (r in res.scalarResources || !IsNamed(r)) ::
        if IsNamed(r) then Amount(res.scalarResources, r) else Max(Amount(res.scalarResources, r), Amount(rl, r)))
  }

  /** The request of a pod, resource by resource: all containers together or the largest init container, plus the
      overhead. Init containers do not raise the pod count. */
  method ComputePodResourceRequest(pod: Pod) returns (result: Resource)
    ensures forall r :: r != "pods" ==> Of(result, r) == Request(pod, r)
    ensures forall r :: r != "pods" ==>
      && TotalOf(pod.containers, r) + Amount(pod.overhead, r) <= Of(result, r)
      && (forall i :: 0 <= i < |pod.initContainers| ==>
            Amount(pod.initContainers[i], r) + Amount(pod.overhead, r) <= Of(result, r))
      && (Of(result, r) == TotalOf(pod.containers, r) + Amount(pod.overhead, r)
          || exists i :: 0 <= i < |pod.initContainers|
               && Of(result, r) == Amount(pod.initContainers[i], r) + Amount(pod.overhead, r))
    ensures Of(result, "pods") == TotalOf(pod.containers, "pods") + Amount(pod.overhead, "pods")
  {
    result := NOTHING;
    for i := 0 to |pod.containers|
      invariant forall r :: Of(result, r) == TotalOf(pod.containers[..i], r)
    {
      assert pod.containers[..i + 1][..i] == pod.containers[..i];
      result := AddList(result, pod.containers[i]);
    }
    assert pod.containers[..|pod.containers|] == pod.containers;
    for i := 0 to |pod.initContainers|
      invariant forall r :: r != "pods" ==>
        Of(result, r) == Max(TotalOf(pod.containers, r), LargestOf(pod.initContainers[..i], r))
      invariant Of(result, "pods") == TotalOf(pod.containers, "pods")
    {
      assert pod.initContainers[..i + 1][..i] == pod.initContainers[..i];
      result := SetMax(result, pod.initContainers[i]);
    }
    assert pod.initContainers[..|pod.initContainers|] == pod.initContainers;
    result := AddList(result, pod.overhead);
    forall r | r != "pods" ensures IsMost(pod, r, Of(result, r) - Amount(pod.overhead, r)) {
      DemandIs(pod, r);
    }
  }

  /** Adds one vector to another; the pod count is not carried over. */
  method AddResource(source: Resource, res: Resource) returns (sum: Resource)
    ensures forall r :: r != "pods" ==> Of(sum, r) == Of(source, r) + Of(res, r)
    ensures sum.allowedPodNumber == source.allowedPodNumber
  {
    sum := source.(
      milliCPU := source.milliCPU + res.milliCPU,
      memory := source.memory + res.memory,
      ephemeralStorage := source.ephemeralStorage + res.ephemeralStorage);
    var rest := res.scalarResources.Keys;
    while rest != {}
      invariant rest <= res.scalarResources.Keys
      invariant sum == source.(
        milliCPU := source.milliCPU + res.milliCPU,
        memory := source.memory + res.memory,
        ephemeralStorage := source.ephemeralStorage + res.ephemeralStorage,
        scalarResources := sum.scalarResources)
      invariant forall r :: r in rest ==> Amount(sum.scalarResources, r) == Amount(source.scalarResources, r)
      invariant forall r :: r !in rest ==>
        Amount(sum.scalarResources, r) == Amount(source.scalarResources, r) + Amount(res.scalarResources, r)
      decreases rest
    {
      var rName :| rName in rest;
      sum := sum.(scalarResources := sum.scalarResources[
        rName := Amount(sum.scalarResources, rName) + res.scalarResources[rName]]);
      rest := rest - {rName};
    }
  }
}
