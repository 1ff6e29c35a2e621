/** The scheduler plugin over Fluxion and the API server. */
module SchedulerPlugin {
  import opened Vocabulary
  import opened JobIds
  import opened Sorting
  import opened Placement
  import opened SchedulerModel

  /**
   * Fluxion as the plugin sees it. What a submission answers is Fluxion's choice, so
   * the caller's script supplies it; an id it hands out has never been handed out before.
   */
  class Matcher {
    var held: set<JobId>
    var used: set<JobId>

    constructor ()
      ensures held == {} && used == {}
    {
      held, used := {}, {};
    }

    method MatchAllocate(answer: Answer) returns (err: bool)
      requires answer.Allocated? ==> answer.id !in used
      modifies this
      ensures err == !answer.Allocated?
      ensures answer.Allocated? ==> held == old(held) + {answer.id} && used == old(used) + {answer.id}
      ensures !answer.Allocated? ==> held == old(held) && used == old(used)
    {
      if answer.Allocated? {
        held, used := held + {answer.id}, used + {answer.id};
      }
      err := !answer.Allocated?;
    }

    /** Cancelling an id that is not held changes nothing. */
    method Cancel(id: JobId)
      modifies this`held
      ensures held == old(held) - {id}
    {
      held := held - {id};
    }
  }

  /** The API server's objects and the informer events not yet delivered. */
  class ApiServer {
    var groups: map<Key, PodGroup>
    var pods: map<Key, PodObj>
    var events: multiset<Event>

    constructor ()
      ensures groups == map[] && pods == map[] && events == multiset{}
    {
      groups, pods, events := map[], map[], multiset{};
    }

    method DeletePodGroup(g: Key)
      modifies this`groups, this`events
      ensures g !in old(groups) ==> groups == old(groups) && events == old(events)
      ensures g in old(groups) ==> groups == old(groups) - {g}
                                   && events == old(events) + multiset{GroupGone(g, old(groups)[g].jobAnn)}
    {
      if g in groups {
        events := events + multiset{GroupGone(g, groups[g].jobAnn)};
        groups := groups - {g};
      }
    }
  }

  /** No two answers carry the same id, and none an id issued before. */
  ghost predicate FreshAnswers(answers: seq<Answer>, used: set<JobId>) {
    && (forall i :: 0 <= i < |answers| && answers[i].Allocated? ==> answers[i].id !in used)
    && (forall i, j :: 0 <= i < j < |answers| && answers[i].Allocated? && answers[j].Allocated? ==> answers[i].id != answers[j].id)
  }

  class Fluence {
    const cfg: Config
    const matcher: Matcher
    const api: ApiServer
    var placement: map<Key, GroupAlloc>
    var excludedNodes: map<Key, set<string>>

    constructor (cfg: Config, matcher: Matcher, api: ApiServer)
      ensures this.cfg == cfg && this.matcher == matcher && this.api == api
      ensures placement == map[] && excludedNodes == map[]
    {
      this.cfg, this.matcher, this.api := cfg, matcher, api;
      placement, excludedNodes := map[], map[];
    }

    ghost function State(): World
      reads this, matcher, api
    {
      World(placement, excludedNodes, matcher.held, matcher.used, api.groups, api.pods, api.events)
    }

    method CancelJobids(jobids: seq<JobId>)
      modifies matcher`held
      ensures matcher.held == old(matcher.held) - IdSet(jobids)
    {
      for i := 0 to |jobids|
        invariant matcher.held == old(matcher.held) - IdSet(jobids[..i])
      {
        matcher.Cancel(jobids[i]);
        assert IdSet(jobids[..i + 1]) == IdSet(jobids[..i]) + {jobids[i]} by {
          assert jobids[..i + 1] == jobids[..i] + [jobids[i]];
        }
      }
      assert jobids[..|jobids|] == jobids;
    }

    /** Undoes what has been matched so far: base is what Fluxion held before. */
    method RollBack(jobids: seq<JobId>, ghost base: set<JobId>)
      requires matcher.held == base + IdSet(jobids) && base !! IdSet(jobids)
      modifies matcher`held
      ensures matcher.held == base
    {
      CancelJobids(jobids);
    }

    /** Submits one jobspec; when that fails, what the group held so far is given back. */
    method MatchNext(answer: Answer, place: Placement, jobids: seq<JobId>, ghost base: set<JobId>)
      returns (ok: bool, place': Placement, jobids': seq<JobId>)
      requires matcher.held == base + IdSet(jobids) && base !! IdSet(jobids) && matcher.held <= matcher.used
      requires answer.Allocated? ==> answer.id !in matcher.used
      modifies matcher
      ensures matcher.used == old(matcher.used) + (if answer.Allocated? then {answer.id} else {})
      ensures ok <==> !Fails(answer)
      ensures !ok ==> matcher.held == base
      ensures ok ==> jobids' == jobids + [answer.id] && place' == Merged(place, Classified(answer.allocation.value))
      ensures ok ==> matcher.held == base + IdSet(jobids') && base !! IdSet(jobids')
    {
      if answer.RenderFails? {
        RollBack(jobids, base);
        return false, NOWHERE, [];
      }
      var err := matcher.MatchAllocate(answer);
      if err {
        RollBack(jobids, base);
        return false, NOWHERE, [];
      }
      IdSetMore(jobids, answer.id);
      if answer.allocation.None? {
        RollBack(jobids + [answer.id], base);
        return false, NOWHERE, [];
      }
      var p := PlacementFromAllocation(answer.allocation.value);
      jobids' := jobids + [answer.id];
      place' := place.(nodes := place.nodes + p.nodes);
      if p.backend != "" {
        place' := place'.(backend := p.backend, attributes := p.attributes);
      }
      ok := true;
    }

    /**
     * All or nothing: either every jobspec is matched and exactly the returned ids,
     * one a jobspec, join what Fluxion holds, or Fluxion holds what it held before.
     */
    method MatchGroup(specs: seq<Jobspec>, answers: seq<Answer>) returns (ok: bool, place: Placement, jobids: seq<JobId>)
      requires |answers| >= |specs| && FreshAnswers(answers, matcher.used)
      requires matcher.held <= matcher.used
      modifies matcher
      ensures matcher.used == old(matcher.used) + MatchIssued(|specs|, answers)
      ensures !ok ==> matcher.held == old(matcher.held)
      ensures ok ==> |jobids| == |specs| && matcher.held == old(matcher.held) + IdSet(jobids) && IdSet(jobids) !! old(matcher.used)
      ensures ok ==> forall i, j :: 0 <= i < j < |jobids| ==> jobids[i] != jobids[j]
      ensures SchedulerModel.MatchGroup(|specs|, answers) == if ok then Matched(GroupAlloc(place, jobids)) else Rejected
    {
      place, jobids := NOWHERE, [];
      var n := |specs|;
      ghost var held, used := matcher.held, matcher.used;
      for i := 0 to n
        invariant forall j :: 0 <= j < i ==> !Fails(At(answers, j))
        invariant jobids == JobidsOf(answers, i) && place == Combined(answers, i)
        invariant matcher.used == used + Issued(answers, i)
        invariant matcher.held == held + IdSet(jobids) <= matcher.used && IdSet(jobids) !! held
      {
        FreshAt(answers, used, i);
        IssuedStep(answers, i);
        ok, place, jobids := MatchNext(answers[i], place, jobids, held);
        if !ok {
          FailureAt(answers, i, n);
          return;
        }
      }
      NoFailure(answers, n);
      JobidsDistinct(answers, n, used);
      if place.nodes == [] && place.backend == "" {
        RollBack(jobids, held);
        return false, NOWHERE, [];
      }
      ok := true;
    }

    /**
     * Matches the group once and remembers it. The answers are Fluxion's to the
     * jobspecs this call submits, and listing is the lister's order.
     */
    method PreFilter(k: Key, listing: seq<Key>, answers: seq<Answer>) returns (ok: bool)
      requires k in api.pods && matcher.held <= matcher.used
      requires FreshAnswers(answers, matcher.used)
      requires SpecsFor(cfg, State(), k, listing).Specs? ==> |answers| >= |SpecsFor(cfg, State(), k, listing).specs|
      modifies this`placement, matcher
      ensures State() == SchedulerModel.PreFilter(cfg, old(State()), k, listing, answers)
      ensures ok <==> GroupKey(k, old(api.pods)[k]) in placement
    {
      var group := GroupKey(k, api.pods[k]);
      if group in placement {
        return true;
      }
      var pods := GroupPods(api.pods, listing, k, api.pods[k]);
      var excluded := Sorted(ExcludedFor(excludedNodes, group));
      var r := JobspecsForGroup(group.ns + "/" + group.name, pods, cfg.knownDevices, excluded);
      if !r.Specs? {
        return false;
      }
      var matched, place, jobids := MatchGroup(r.specs, answers);
      if !matched {
        return false;
      }
      placement := placement[group := GroupAlloc(place, jobids)];
      ok := true;
    }

    /** A node is allowed when Fluxion chose it, or when Fluxion chose none. */
    method Filter(k: Key, node: string) returns (ok: bool)
      requires k in api.pods
      ensures ok <==> (var g := GroupKey(k, api.pods[k]);
                       g in placement && placement[g].place.nodes != [] ==> node in placement[g].place.nodes)
    {
      var g := GroupKey(k, api.pods[k]);
      var nodes := if g in placement then placement[g].place.nodes else [];
      if nodes == [] {
        return true;
      }
      for i := 0 to |nodes|
        invariant node !in nodes[..i]
      {
        if nodes[i] == node {
          return true;
        }
      }
      ok := false;
    }

    /** Abandons the allocation; only nodes found incompatible are excluded from the next match. */
    method PostFilter(k: Key, codes: map<string, Code>)
      requires k in api.pods
      modifies this, matcher`held
      ensures State() == SchedulerModel.PostFilter(old(State()), GroupKey(k, old(api.pods)[k]), codes)
    {
      var group := GroupKey(k, api.pods[k]);
      if group !in placement {
        return;
      }
      var alloc := placement[group];
      var excluded := ExcludedFor(excludedNodes, group);
      ghost var before := excluded;
      var nodes := alloc.place.nodes;
      for i := 0 to |nodes|
        invariant excluded == before + set n | n in nodes[..i] && Incompatible(codes, n)
      {
        assert nodes[..i + 1] == nodes[..i] + [nodes[i]];
        if Incompatible(codes, nodes[i]) {
          excluded := excluded + {nodes[i]};
        }
      }
      assert nodes[..|nodes|] == nodes;
      excludedNodes := excludedNodes[group := excluded];
      placement := placement - {group};
      CancelJobids(alloc.jobids);
    }

    method PreBind(k: Key) returns (ok: bool)
      requires k in api.pods
      modifies api
      ensures State() == SchedulerModel.PreBind(old(State()), k)
      ensures ok <==> var p := old(api.pods)[k]; GroupKey(k, p) in placement && p.group != "" ==> GroupKey(k, p) in api.groups
    {
      var p := api.pods[k];
      var group := GroupKey(k, p);
      if group !in placement {
        return true;
      }
      var val := FormatJobIDs(placement[group].jobids);
      if p.group != "" {
        if group !in api.groups {
          return false;
        }
        api.groups := api.groups[group := api.groups[group].(jobAnn := val)];
        return true;
      }
      api.pods := api.pods[k := p.(jobAnn := val)];
      ok := true;
    }

    method CancelGroup(key: Key, jobAnn: string)
      modifies this, matcher`held
      ensures State() == SchedulerModel.CancelGroup(old(State()), key, jobAnn)
    {
      var jobids, ok := ParseJobIDs(jobAnn);
      if !ok {
        if key !in placement {
          return;
        }
        jobids := placement[key].jobids;
      }
      CancelJobids(jobids);
      placement := placement - {key};
      excludedNodes := excludedNodes - {key};
    }

    method ReconcileGroup(g: Key, old_: bool)
      modifies api`groups, api`events
      ensures State() == SchedulerModel.ReconcileGroup(old(State()), g, old_)
    {
      if g.name == "" || g !in api.groups {
        return;
      }
      if !api.groups[g].fluenceCreated {
        return;
      }
      var unseen := api.pods.Keys;
      var seen := false;
      while unseen != {}
        invariant unseen <= api.pods.Keys
        invariant seen <==> exists k :: k in api.pods.Keys - unseen && Member(k, api.pods[k], g)
        invariant forall k :: k in api.pods.Keys - unseen && Member(k, api.pods[k], g) ==> api.pods[k].terminal
      {
        var k :| k in unseen;
        unseen := unseen - {k};
        if !Member(k, api.pods[k], g) {
          continue;
        }
        seen := true;
        if !api.pods[k].terminal {
          assert LiveMember(api.pods, g);
          return;
        }
      }
      assert seen <==> AnyMember(api.pods, g);
      assert !LiveMember(api.pods, g);
      if !seen {
        var ids, scheduled := ParseJobIDs(api.groups[g].jobAnn);
        if !scheduled && !old_ {
          return;
        }
      }
      api.DeletePodGroup(g);
      if !HasScoutSuffix(g.name) {
        api.DeletePodGroup(Key(g.ns, g.name + SCOUT_SUFFIX));
      }
    }

    method OnPodGroupDeleted(e: Event)
      requires e.GroupGone?
      modifies this, matcher`held
      ensures State() == HandleEvent(old(State()), e, false)
    {
      CancelGroup(e.key, e.jobAnn);
    }

    /** Acts on the update that takes a pod into a terminal phase, and on no other. */
    method OnPodUpdated(key: Key, before: PodObj, after: PodObj, old_: bool)
      modifies this, matcher`held, api`groups, api`events
      ensures State() == if before.terminal || !after.terminal then old(State())
                         else HandleEvent(old(State()), PodCompleted(key, after.group, after.jobAnn), old_)
    {
      if before.terminal || !after.terminal {
        return;
      }
      if after.group == "" {
        CancelGroup(key, after.jobAnn);
        return;
      }
      ReconcileGroup(Key(key.ns, after.group), old_);
    }

    method OnPodDeleted(key: Key, pod: PodObj, old_: bool)
      modifies this, matcher`held, api`groups, api`events
      ensures State() == HandleEvent(old(State()), PodGone(key, pod.group, pod.jobAnn), old_)
    {
      if pod.group != "" {
        ReconcileGroup(Key(key.ns, pod.group), old_);
        return;
      }
      CancelGroup(key, pod.jobAnn);
    }
  }

  // ---- what the matching loop needs ----

  lemma IdSetMore(ids: seq<JobId>, id: JobId)
    ensures IdSet(ids + [id]) == IdSet(ids) + {id}
  {
  }

  /** The next answer's id is none issued before or in this group. */
  lemma FreshAt(answers: seq<Answer>, used: set<JobId>, i: nat)
    requires i < |answers| && FreshAnswers(answers, used)
    ensures At(answers, i) == answers[i]
    ensures answers[i].Allocated? ==> answers[i].id !in used && answers[i].id !in Issued(answers, i)
  {
  }

  lemma IssuedStep(answers: seq<Answer>, i: nat)
    ensures Issued(answers, i + 1) == Issued(answers, i) + (if At(answers, i).Allocated? then {At(answers, i).id} else {})
  {
  }

  lemma {:induction false} FailureAt(answers: seq<Answer>, i: nat, n: nat)
    requires i < n && Fails(At(answers, i)) && forall j :: 0 <= j < i ==> !Fails(At(answers, j))
    ensures FirstFailure(answers, n) == i
  {
    if i < n - 1 {
      FailureAt(answers, i, n - 1);
    }
  }

  lemma {:induction false} NoFailure(answers: seq<Answer>, n: nat)
    requires forall j :: 0 <= j < n ==> !Fails(At(answers, j))
    ensures FirstFailure(answers, n) == n
  {
    if n > 0 {
      NoFailure(answers, n - 1);
    }
  }

  lemma JobidsDistinct(answers: seq<Answer>, n: nat, used: set<JobId>)
    requires n <= |answers| && FreshAnswers(answers, used)
    requires forall i :: 0 <= i < n ==> At(answers, i).Allocated?
    ensures forall i, j :: 0 <= i < j < n ==> JobidsOf(answers, n)[i] != JobidsOf(answers, n)[j]
    ensures IdSet(JobidsOf(answers, n)) !! used
  {
  }
}
