/** The quantum handler's admission check, with its room decided by the capacity rule. */
module RoomRule {
  import opened Vocabulary
  import opened Text
  import opened PodEdits
  import opened Handlers
  import Admission
  import AdmissionRuns

  /** The cores an admission asks for: the whole gang's, or the pod's own. */
  function Wanted(ctx: Ctx, p: PodState): int {
    if SharedGang(ctx, p) then ctx.cores * GangSize(ctx, p) else ctx.cores
  }

  /** The rule's answer at one reading of the cluster; without admission control, or nothing asked, it is yes. */
  predicate RoomByRule(ctx: Ctx, p: PodState, controlled: bool, cap: Admission.Capacity) {
    ctx.room <==> !controlled || Wanted(ctx, p) <= 0 || AdmissionRuns.Fits(cap, Wanted(ctx, p))
  }

  /**
   * A qpu pod is refused exactly when it claims to be protected, or when admission control
   * is on, its gang has no record yet, and what it asks for and what is promised exceed
   * what is reachable.
   */
  lemma RefusedIff(ctx: Ctx, s: State, controlled: bool, cap: Admission.Capacity)
    requires AnyRequestsQpu(s.g.pod) && RoomByRule(ctx, s.g.pod, controlled, cap)
    ensures var p := s.g.pod;
            Handle(QuantumHandler, ctx, s).Denied? <==>
            || Annotation(p, PROTECTED) != ""
            || (&& controlled && Wanted(ctx, p) > 0
                && !(SharedGang(ctx, p) && GroupAdmitted(s.groups, GroupId(ctx.ns, ResolveGroup(ctx, p))))
                && Wanted(ctx, p) + cap.promised > Admission.Reachable(cap))
  {
  }

  /** What a gang's group then records is what the rule was asked. */
  lemma RecordsWhatWasAsked(ctx: Ctx, s: State)
    requires AnyRequestsQpu(s.g.pod) && SharedGang(ctx, s.g.pod) && ctx.cores > 0
    requires !GroupAdmitted(s.groups, GroupId(ctx.ns, ResolveGroup(ctx, s.g.pod)))
    requires Handle(QuantumHandler, ctx, s).Admitted?
    ensures var id, groups := GroupId(ctx.ns, ResolveGroup(ctx, s.g.pod)), Handle(QuantumHandler, ctx, s).s.groups;
            id in groups && Wanted(ctx, s.g.pod) > 0 && groups[id].admitted == Dec(Wanted(ctx, s.g.pod))
  {
    Positive(ctx.cores, GangSize(ctx, s.g.pod));
    var group := ResolveGroup(ctx, s.g.pod);
    assert |group + SCOUT_SUFFIX| != |group|;
  }

  lemma Positive(a: int, b: int)
    requires a > 0 && b > 0
    ensures a * b > 0
  {
  }
}
