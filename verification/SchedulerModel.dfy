/**
 * The scheduler plugin's state and what each of its entry points does to it,
 * as functions on values. SchedulerPlugin.dfy holds the plugin itself, whose
 * methods are proved to follow these, and SchedulerRuns.dfy what follows for runs.
 */
module SchedulerModel {
  import opened Vocabulary
  import opened Options
  import opened JobIds
  import opened Sorting
  import opened Constraints
  import opened Placement


  /** A namespaced name; the source joins the two with a slash, which neither may hold. */
  datatype Key = Key(ns: string, name: string)

  datatype PodGroup = PodGroup(fluenceCreated: bool, jobAnn: string)

  datatype PodObj = PodObj(group: string, groupLabel: string, terminal: bool, gated: bool, jobAnn: string, spec: Pod)

  /** What an informer reports; each carries the object's last annotations. */
  datatype Event =
    | PodCompleted(key: Key, group: string, jobAnn: string)
    | PodGone(key: Key, group: string, jobAnn: string)
    | GroupGone(key: Key, jobAnn: string)

  datatype GroupAlloc = GroupAlloc(place: Placement, jobids: seq<JobId>)

  /** What one submission to Fluxion comes to. */
  datatype Answer =
    | RenderFails
    | NoMatch
    | Allocated(id: JobId, allocation: Option<seq<Vertex>>)

  datatype Code = Success | Error | Unschedulable | UnschedulableAndUnresolvable

  datatype Config = Config(knownDevices: Option<set<string>>, universe: set<string>)

  /**
   * memo and excluded are the plugin's maps; held and used are Fluxion's live ids and
   * every id it ever issued; the rest is the API server and the informer queue.
   */
  datatype World = World(
    memo: map<Key, GroupAlloc>,
    excluded: map<Key, set<string>>,
    held: set<JobId>,
    used: set<JobId>,
    groups: map<Key, PodGroup>,
    pods: map<Key, PodObj>,
    events: multiset<Event>)

  function GroupKey(k: Key, p: PodObj): Key {
    if p.group != "" then Key(k.ns, p.group) else k
  }

  function IdSet(ids: seq<JobId>): set<JobId> {
    set x | x in ids
  }

  function ExcludedFor(excluded: map<Key, set<string>>, k: Key): set<string> {
    if k in excluded then excluded[k] else {}
  }

  // ---- matching a group ----

  function At(answers: seq<Answer>, i: nat): Answer {
    if i < |answers| then answers[i] else NoMatch
  }

  predicate Fails(a: Answer) {
    !a.Allocated? || a.allocation.None?
  }

  /** The index of the first of n submissions that fails, n when none does. */
  function FirstFailure(answers: seq<Answer>, n: nat): (k: nat)
    ensures k <= n && (k < n ==> Fails(At(answers, k)))
    ensures forall i :: 0 <= i < k ==> !Fails(At(answers, i))
  {
    if n == 0 then 0
    else
      var k := FirstFailure(answers, n - 1);
      if k < n - 1 then k
      else if Fails(At(answers, n - 1)) then n - 1 else n
  }

  function Issued(answers: seq<Answer>, n: nat): set<JobId> {
    set i | 0 <= i < n && At(answers, i).Allocated? :: At(answers, i).id
  }

  function JobidsOf(answers: seq<Answer>, n: nat): (ids: seq<JobId>)
    requires forall i :: 0 <= i < n ==> At(answers, i).Allocated?
    ensures |ids| == n
  {
    seq(n, i requires 0 <= i < n => At(answers, i).id)
  }

  /** Nodes are gathered from every allocation; a later backend replaces an earlier one. */
  function Merged(p: Placement, last: Placement): Placement {
    var merged := p.(nodes := p.nodes + last.nodes);
    if last.backend != "" then merged.(backend := last.backend, attributes := last.attributes) else merged
  }

  function Combined(answers: seq<Answer>, n: nat): Placement
    requires forall i :: 0 <= i < n ==> !Fails(At(answers, i))
  {
    if n == 0 then NOWHERE
    else
      assert !Fails(At(answers, n - 1));
      Merged(Combined(answers, n - 1), Classified(At(answers, n - 1).allocation.value))
  }

  datatype MatchResult = Matched(alloc: GroupAlloc) | Rejected

  function MatchGroup(n: nat, answers: seq<Answer>): MatchResult {
    if FirstFailure(answers, n) < n then Rejected
    else
      var p := Combined(answers, n);
      if p.nodes == [] && p.backend == "" then Rejected
      else Matched(GroupAlloc(p, JobidsOf(answers, n)))
  }

  /** The ids Fluxion issued while the group was matched, kept or rolled back. */
  function MatchIssued(n: nat, answers: seq<Answer>): set<JobId> {
    var k := FirstFailure(answers, n);
    Issued(answers, if k < n then k + 1 else n)
  }

  // ---- scheduling steps ----

  /** A pod group's members in the live scheduling cycle, in the order listed. */
  function GroupMembers(pods: map<Key, PodObj>, listing: seq<Key>, g: Key): seq<Pod> {
    if listing == [] then []
    else
      var rest := GroupMembers(pods, listing[..|listing| - 1], g);
      var k := listing[|listing| - 1];
      if k in pods && k.ns == g.ns && pods[k].group == g.name && !pods[k].gated then rest + [pods[k].spec] else rest
  }

  function GroupPods(pods: map<Key, PodObj>, listing: seq<Key>, k: Key, p: PodObj): seq<Pod> {
    if p.group == "" then [p.spec] else GroupMembers(pods, listing, Key(k.ns, p.group))
  }

  function SpecsFor(cfg: Config, w: World, k: Key, listing: seq<Key>): JobspecsResult
    requires k in w.pods
  {
    var g := GroupKey(k, w.pods[k]);
    Jobspecs(g.ns + "/" + g.name, GroupPods(w.pods, listing, k, w.pods[k]), cfg.knownDevices, Sorted(ExcludedFor(w.excluded, g)))
  }

  /** Remembers the outcome of submitting the group's jobspecs, when there is one. */
  function Submit(w: World, g: Key, r: JobspecsResult, answers: seq<Answer>): World {
    if !r.Specs? then w
    else
      var used := w.used + MatchIssued(|r.specs|, answers);
      match MatchGroup(|r.specs|, answers)
      case Rejected => w.(used := used)
      case Matched(alloc) => w.(used := used, held := w.held + IdSet(alloc.jobids), memo := w.memo[g := alloc])
  }

  function PreFilter(cfg: Config, w: World, k: Key, listing: seq<Key>, answers: seq<Answer>): World
    requires k in w.pods
  {
    var g := GroupKey(k, w.pods[k]);
    if g in w.memo then w else Submit(w, g, SpecsFor(cfg, w, k, listing), answers)
  }

  predicate Incompatible(codes: map<string, Code>, node: string) {
    node in codes && codes[node] == UnschedulableAndUnresolvable
  }

  function NewlyExcluded(alloc: GroupAlloc, codes: map<string, Code>): set<string> {
    set n | n in alloc.place.nodes && Incompatible(codes, n)
  }

  function PostFilter(w: World, g: Key, codes: map<string, Code>): World {
    if g !in w.memo then w
    else
      w.(memo := w.memo - {g},
         held := w.held - IdSet(w.memo[g].jobids),
         excluded := w.excluded[g := ExcludedFor(w.excluded, g) + NewlyExcluded(w.memo[g], codes)])
  }

  /** Records the group's jobids on its owner; an owner that is gone refuses the patch. */
  function PreBind(w: World, k: Key): World
    requires k in w.pods
  {
    var p := w.pods[k];
    var g := GroupKey(k, p);
    if g !in w.memo then w
    else
      var ann := Format(w.memo[g].jobids);
      if p.group == "" then w.(pods := w.pods[k := p.(jobAnn := ann)])
      else if g in w.groups then w.(groups := w.groups[g := w.groups[g].(jobAnn := ann)])
      else w
  }

  // ---- teardown ----

  function CancelledIds(w: World, k: Key, jobAnn: string): Option<seq<JobId>> {
    if Parse(jobAnn).Some? then Parse(jobAnn)
    else if k in w.memo then Some(w.memo[k].jobids)
    else None
  }

  function CancelGroup(w: World, k: Key, jobAnn: string): World {
    match CancelledIds(w, k, jobAnn)
    case None => w
    case Some(ids) => w.(held := w.held - IdSet(ids), memo := w.memo - {k}, excluded := w.excluded - {k})
  }

  predicate HasScoutSuffix(name: string) {
    |name| >= |SCOUT_SUFFIX| && name[|name| - |SCOUT_SUFFIX|..] == SCOUT_SUFFIX
  }

  /** A pod counts as a member by its scheduling group or, before it is linked, by its label. */
  predicate Member(k: Key, p: PodObj, g: Key) {
    k.ns == g.ns && (p.group == g.name || p.groupLabel == g.name)
  }

  predicate LiveMember(pods: map<Key, PodObj>, g: Key) {
    exists k :: k in pods && Member(k, pods[k], g) && !pods[k].terminal
  }

  predicate AnyMember(pods: map<Key, PodObj>, g: Key) {
    exists k :: k in pods && Member(k, pods[k], g)
  }

  /** Whether a sweep may delete the group; old says its grace period is over. */
  predicate Reapable(w: World, g: Key, old_: bool) {
    && g in w.groups && w.groups[g].fluenceCreated
    && !LiveMember(w.pods, g)
    && (AnyMember(w.pods, g) || Parse(w.groups[g].jobAnn).Some? || old_)
  }

  function DeleteGroup(w: World, g: Key): World {
    if g !in w.groups then w
    else w.(groups := w.groups - {g}, events := w.events + multiset{GroupGone(g, w.groups[g].jobAnn)})
  }

  /** Deletes a group and, unless it is itself a scout group, its scout's group. */
  function Reap(w: World, g: Key): World {
    if HasScoutSuffix(g.name) then DeleteGroup(w, g)
    else DeleteGroup(DeleteGroup(w, g), Key(g.ns, g.name + SCOUT_SUFFIX))
  }

  function ReconcileGroup(w: World, g: Key, old_: bool): World {
    if g.name == "" || !Reapable(w, g, old_) then w else Reap(w, g)
  }

  /** What the informer handler for an event does. */
  function HandleEvent(w: World, e: Event, old_: bool): World {
    match e
    case GroupGone(k, ann) => CancelGroup(w, k, ann)
    case PodCompleted(k, group, ann) =>
      if group == "" then CancelGroup(w, k, ann) else ReconcileGroup(w, Key(k.ns, group), old_)
    case PodGone(k, group, ann) =>
      if group == "" then CancelGroup(w, k, ann) else ReconcileGroup(w, Key(k.ns, group), old_)
  }
}
