/** A gang's stored workers, as the scheduler reads them: their jobspecs match no qpu. */
module WorkerJobspecs {
  import opened Vocabulary
  import opened Options
  import opened Json
  import opened PodEdits
  import opened GangSplit
  import Sorting
  import Scheduling = Placement

  /** A container's requests, given how quantities are read. */
  function Asks(c: Container, quantity: Json -> nat): Scheduling.Requests {
    map k | k in c.requests :: quantity(c.requests[k])
  }

  function SchedulingPod(s: PodState, quantity: Json -> nat, annotations: map<string, string>): Scheduling.Pod {
    Scheduling.Pod(seq(|s.containers|, i requires 0 <= i < |s.containers| => Asks(s.containers[i], quantity)), annotations)
  }

  lemma QpuName()
    ensures PodTasks.QPU == FLUXION_PREFIX + "qpu"
  {
  }

  /** Only a request named for the qpu counts towards the qpu type. */
  lemma QpuTypeName(name: string)
    ensures Scheduling.TypeOf(name) == Some("qpu") ==> name == PodTasks.QPU
  {
    QpuName();
    if Scheduling.HasPrefix(name, FLUXION_PREFIX) {
      assert name == FLUXION_PREFIX + Scheduling.TrimPrefix(name, FLUXION_PREFIX);
    }
  }

  lemma WorkerNeedsNoQpu(gang: Gang, s: PodState, quantity: Json -> nat, annotations: map<string, string>)
    requires IsWorkerPod(gang, s)
    ensures Scheduling.Need(SchedulingPod(s, quantity, annotations), "qpu") == 0
  {
    var p := SchedulingPod(s, quantity, annotations);
    if Scheduling.Need(p, "qpu") > 0 {
      Scheduling.SomeContainerNeeds(p.containers, "qpu");
      var i :| 0 <= i < |p.containers| && Scheduling.ContainerNeed(p.containers[i], "qpu") > 0;
      Scheduling.NeedIsNamed(p.containers[i], "qpu");
      var n :| n in p.containers[i] && Scheduling.TypeOf(n) == Some("qpu");
      QpuTypeName(n);
    }
  }

  /**
   * However many stored workers the scheduler matches together, no jobspec asks for a
   * vertex of the qpu class.
   */
  lemma WorkersMatchNoQpu(gang: Gang, stored: seq<PodState>, quantity: Json -> nat, pods: seq<Scheduling.Pod>)
    requires |pods| == |stored| && forall i :: 0 <= i < |stored| ==> IsWorkerPod(gang, stored[i])
    requires forall i :: 0 <= i < |stored| ==> pods[i] == SchedulingPod(stored[i], quantity, pods[i].annotations)
    ensures "qpu" !in Scheduling.DeviceTypes(pods)
    ensures "qpu" !in Sorting.Sorted(Scheduling.DeviceTypes(pods))
  {
    forall i | 0 <= i < |pods| ensures "qpu" !in Scheduling.Needed(pods[i]) {
      WorkerNeedsNoQpu(gang, stored[i], quantity, pods[i].annotations);
    }
  }
}
