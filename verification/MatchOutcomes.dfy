/**
 * What a match comes to, from Fluxion's answers alone: when it succeeds, the ids and nodes
 * it holds, the backend it reports, and what the later stages make of them.
 */
module MatchOutcomes {
  import opened Options
  import opened JobIds
  import opened Sorting
  import opened Constraints
  import opened Placement
  import opened SchedulerModel
  import opened SchedulerRuns

  /** Answer i holds an allocation. */
  predicate Holds(answers: seq<Answer>, i: nat) {
    i < |answers| && answers[i].Allocated? && answers[i].allocation.Some?
  }

  predicate AllHold(answers: seq<Answer>, n: nat) {
    forall i :: 0 <= i < n ==> Holds(answers, i)
  }

  lemma HoldsAt(answers: seq<Answer>, i: nat)
    ensures Holds(answers, i) <==> !Fails(At(answers, i))
    ensures Holds(answers, i) ==> At(answers, i) == answers[i]
  {
  }

  lemma AllHoldAt(answers: seq<Answer>, n: nat)
    requires AllHold(answers, n)
    ensures forall i :: 0 <= i < n ==> !Fails(At(answers, i)) && At(answers, i) == answers[i]
  {
    forall i | 0 <= i < n ensures !Fails(At(answers, i)) && At(answers, i) == answers[i] {
      HoldsAt(answers, i);
    }
  }

  /** Answer i allocates a physical vertex of that name. */
  predicate GivesNode(answers: seq<Answer>, i: nat, name: string) {
    && Holds(answers, i)
    && var nodes := answers[i].allocation.value;
       exists j :: 0 <= j < |nodes| && "virtual=true" !in nodes[j].properties && nodes[j].name == name
  }

  predicate Virtual(answers: seq<Answer>, i: nat, j: nat)
    requires Holds(answers, i) && j < |answers[i].allocation.value|
  {
    "virtual=true" in answers[i].allocation.value[j].properties && answers[i].allocation.value[j].name != ""
  }

  /** The first virtual vertex of answer i that has a name. */
  predicate FirstVirtual(answers: seq<Answer>, i: nat, j: nat) {
    && Holds(answers, i) && j < |answers[i].allocation.value| && Virtual(answers, i, j)
    && forall k :: 0 <= k < j ==> !Virtual(answers, i, k)
  }

  predicate NamesBackend(answers: seq<Answer>, i: nat) {
    Holds(answers, i) && exists j: nat :: j < |answers[i].allocation.value| && Virtual(answers, i, j)
  }

  lemma FirstVirtualExists(answers: seq<Answer>, i: nat, n: nat) returns (j: nat)
    requires Holds(answers, i) && n <= |answers[i].allocation.value|
    requires exists k :: 0 <= k < n && Virtual(answers, i, k)
    ensures j < n && FirstVirtual(answers, i, j)
  {
    if exists k :: 0 <= k < n - 1 && Virtual(answers, i, k) {
      j := FirstVirtualExists(answers, i, n - 1);
    } else {
      j := n - 1;
    }
  }

  lemma OneAnswer(answers: seq<Answer>, i: nat)
    requires Holds(answers, i)
    ensures At(answers, i) == answers[i] && !Fails(At(answers, i))
    ensures forall name :: name in Classified(answers[i].allocation.value).nodes <==> GivesNode(answers, i, name)
    ensures Classified(answers[i].allocation.value).backend != "" <==> NamesBackend(answers, i)
    ensures forall j: nat :: Reports(answers, i, j, Classified(answers[i].allocation.value))
  {
    var nodes := answers[i].allocation.value;
    ClassifiedNodes(nodes);
    forall j: nat ensures Reports(answers, i, j, Classified(nodes)) {
      if FirstVirtual(answers, i, j) {
        assert forall k :: 0 <= k < j && VIRTUAL_TRUE in nodes[k].properties ==> !Virtual(answers, i, k);
        ClassifiedBackend(nodes, j);
      }
    }
    if NamesBackend(answers, i) {
      var j := FirstVirtualExists(answers, i, |nodes|);
      assert Reports(answers, i, j, Classified(nodes));
    } else {
      forall k | 0 <= k < |nodes| && VIRTUAL_TRUE in nodes[k].properties ensures nodes[k].name == "" {
        assert !Virtual(answers, i, k);
      }
      NoBackend(nodes);
    }
  }

  /** The nodes of a match are those of its answers, all of them. */
  lemma {:induction false} CombinedNodesAre(answers: seq<Answer>, n: nat)
    requires AllHold(answers, n)
    ensures forall i :: 0 <= i < n ==> !Fails(At(answers, i))
    ensures forall name :: name in Combined(answers, n).nodes <==> exists i :: 0 <= i < n && GivesNode(answers, i, name)
    decreases n
  {
    AllHoldAt(answers, n);
    if n > 0 {
      CombinedNodesAre(answers, n - 1);
      OneAnswer(answers, n - 1);
      assert Combined(answers, n).nodes == Combined(answers, n - 1).nodes + Classified(answers[n - 1].allocation.value).nodes;
    }
  }

  /** Answer i is the last of n that names a backend. */
  predicate LastNames(answers: seq<Answer>, n: nat, i: nat) {
    i < n && NamesBackend(answers, i) && forall k :: i < k < n ==> !NamesBackend(answers, k)
  }

  predicate NoneNames(answers: seq<Answer>, n: nat) {
    forall i :: 0 <= i < n ==> !NamesBackend(answers, i)
  }

  predicate Reports(answers: seq<Answer>, i: nat, j: nat, p: Placement) {
    FirstVirtual(answers, i, j) ==>
      p.backend == answers[i].allocation.value[j].name && p.attributes == BackendAttributes(answers[i].allocation.value[j].properties)
  }

  /** The last answer that names a backend decides it, and its attributes. */
  ghost predicate BackendFrom(answers: seq<Answer>, n: nat, p: Placement) {
    && (NoneNames(answers, n) ==> p.backend == "" && p.attributes == map[])
    && forall i: nat, j: nat :: LastNames(answers, n, i) ==> Reports(answers, i, j, p)
  }

  lemma LastNamesMore(answers: seq<Answer>, n: nat)
    requires n > 0
    ensures forall i: nat :: LastNames(answers, n, i) <==> if NamesBackend(answers, n - 1) then i == n - 1 else LastNames(answers, n - 1, i)
    ensures NoneNames(answers, n) <==> NoneNames(answers, n - 1) && !NamesBackend(answers, n - 1)
  {
  }

  lemma {:induction false} CombinedBackend(answers: seq<Answer>, n: nat)
    requires AllHold(answers, n)
    ensures forall i :: 0 <= i < n ==> !Fails(At(answers, i))
    ensures BackendFrom(answers, n, Combined(answers, n))
    decreases n
  {
    AllHoldAt(answers, n);
    if n > 0 {
      CombinedBackend(answers, n - 1);
      OneAnswer(answers, n - 1);
      LastNamesMore(answers, n);
      BackendMore(answers, n - 1, n, Combined(answers, n - 1), Combined(answers, n), Classified(answers[n - 1].allocation.value));
    }
  }

  lemma BackendMore(answers: seq<Answer>, m: nat, n: nat, before: Placement, p: Placement, last: Placement)
    requires n > 0 && m == n - 1 && BackendFrom(answers, m, before)
    requires last.backend != "" <==> NamesBackend(answers, m)
    requires forall j: nat :: Reports(answers, m, j, last)
    requires if last.backend != "" then p.backend == last.backend && p.attributes == last.attributes
             else p.backend == before.backend && p.attributes == before.attributes
    ensures BackendFrom(answers, n, p)
  {
    LastNamesMore(answers, n);
    forall i: nat, j: nat | LastNames(answers, n, i) ensures Reports(answers, i, j, p) {
      assert if NamesBackend(answers, m) then Reports(answers, m, j, last) else Reports(answers, i, j, before);
    }
  }

  lemma {:induction false} FirstFailureIs(answers: seq<Answer>, n: nat)
    ensures FirstFailure(answers, n) == n <==> AllHold(answers, n)
    decreases n
  {
    if n > 0 {
      FirstFailureIs(answers, n - 1);
      HoldsAt(answers, n - 1);
      if FirstFailure(answers, n - 1) < n - 1 {
        HoldsAt(answers, FirstFailure(answers, n - 1));
      }
    }
  }

  /** A group is matched exactly when every submission is allocated and some answer gives a node or names a backend. */
  ghost predicate Succeeds(answers: seq<Answer>, n: nat) {
    AllHold(answers, n) && exists i :: 0 <= i < n && Gives(answers, i)
  }

  ghost predicate Gives(answers: seq<Answer>, i: nat) {
    NamesBackend(answers, i) || exists name :: GivesNode(answers, i, name)
  }

  lemma Somewhere(answers: seq<Answer>, n: nat)
    requires AllHold(answers, n)
    ensures forall i :: 0 <= i < n ==> !Fails(At(answers, i))
    ensures Combined(answers, n).nodes == [] && Combined(answers, n).backend == "" <==> !Succeeds(answers, n)
  {
    CombinedNodesAre(answers, n);
    CombinedBackend(answers, n);
    var p := Combined(answers, n);
    if !NoneNames(answers, n) {
      var i := LastNaming(answers, n);
      var j := FirstVirtualExists(answers, i, |answers[i].allocation.value|);
      assert Reports(answers, i, j, p) && Gives(answers, i);
    } else if p.nodes != [] {
      assert p.nodes[0] in p.nodes;
      var i :| 0 <= i < n && GivesNode(answers, i, p.nodes[0]);
      assert Gives(answers, i);
    } else {
      forall i | 0 <= i < n ensures !Gives(answers, i) {
        forall name ensures !GivesNode(answers, i, name) {
          assert name !in p.nodes;
        }
      }
    }
  }

  lemma LastNaming(answers: seq<Answer>, n: nat) returns (i: nat)
    requires !NoneNames(answers, n)
    ensures LastNames(answers, n, i)
  {
    if NamesBackend(answers, n - 1) {
      i := n - 1;
    } else {
      i := LastNaming(answers, n - 1);
    }
  }

  /**
   * What matching n jobspecs makes of Fluxion's answers: it succeeds exactly when all are
   * allocated and give something; it then holds one id an answer, in order; its nodes are
   * those of the vertices not marked virtual, over all answers; and its backend is the
   * first named virtual vertex of the last answer that has one, with its attributes.
   */
  lemma MatchMeans(answers: seq<Answer>, n: nat)
    ensures var r := SchedulerModel.MatchGroup(n, answers);
            && (r.Matched? <==> Succeeds(answers, n))
            && (r.Matched? ==>
                  && |r.alloc.jobids| == n <= |answers|
                  && (forall i :: 0 <= i < n ==> answers[i].Allocated? && r.alloc.jobids[i] == answers[i].id)
                  && (forall name :: name in r.alloc.place.nodes <==> exists i :: 0 <= i < n && GivesNode(answers, i, name))
                  && BackendFrom(answers, n, r.alloc.place))
  {
    FirstFailureIs(answers, n);
    if AllHold(answers, n) {
      CombinedNodesAre(answers, n);
      CombinedBackend(answers, n);
      Somewhere(answers, n);
      AllHoldAt(answers, n);
      assert n > 0 ==> Holds(answers, n - 1);
    }
  }

  /** The filter's answer for a node, from what is remembered for its group. */
  predicate Passes(w: World, g: Key, node: string) {
    g in w.memo && w.memo[g].place.nodes != [] ==> node in w.memo[g].place.nodes
  }

  /**
   * A group not remembered yet is remembered by PreFilter exactly when its jobspecs are
   * rendered and matched. Then the ids join what Fluxion holds, and Filter passes a node
   * exactly when some answer gives it, or none gives any. Otherwise nothing is held.
   */
  lemma PreFilterMatches(cfg: Config, w: World, k: Key, listing: seq<Key>, answers: seq<Answer>, node: string)
    requires k in w.pods && GroupKey(k, w.pods[k]) !in w.memo
    ensures var g, r, w' := GroupKey(k, w.pods[k]), SpecsFor(cfg, w, k, listing), PreFilter(cfg, w, k, listing, answers);
            && (g in w'.memo <==> r.Specs? && Succeeds(answers, |r.specs|))
            && (g !in w'.memo ==> w'.memo == w.memo && w'.held == w.held)
            && (g in w'.memo ==>
                  && w'.memo == w.memo[g := w'.memo[g]] && |w'.memo[g].jobids| == |r.specs| <= |answers|
                  && w'.held == w.held + (set i | 0 <= i < |r.specs| && answers[i].Allocated? :: answers[i].id)
                  && (Passes(w', g, node) <==>
                        || (exists i :: 0 <= i < |r.specs| && GivesNode(answers, i, node))
                        || forall i, name :: 0 <= i < |r.specs| ==> !GivesNode(answers, i, name)))
  {
    var g, r, w' := GroupKey(k, w.pods[k]), SpecsFor(cfg, w, k, listing), PreFilter(cfg, w, k, listing, answers);
    if r.Specs? {
      SubmitMatches(w, g, r, answers);
      if g in w'.memo {
        FilterFollows(w', g, answers, |r.specs|, node);
      }
    }
  }

  lemma SubmitMatches(w: World, g: Key, r: JobspecsResult, answers: seq<Answer>)
    requires g !in w.memo && r.Specs?
    ensures var w', n := Submit(w, g, r, answers), |r.specs|;
            && (g in w'.memo <==> Succeeds(answers, n))
            && (g !in w'.memo ==> w'.memo == w.memo && w'.held == w.held)
            && (g in w'.memo ==>
                  && w'.memo == w.memo[g := w'.memo[g]] && |w'.memo[g].jobids| == n <= |answers|
                  && w'.held == w.held + (set i | 0 <= i < n && answers[i].Allocated? :: answers[i].id)
                  && forall name :: name in w'.memo[g].place.nodes <==> exists i :: 0 <= i < n && GivesNode(answers, i, name))
  {
    MatchMeans(answers, |r.specs|);
    if SchedulerModel.MatchGroup(|r.specs|, answers).Matched? {
      HeldByMatch(answers, |r.specs|, SchedulerModel.MatchGroup(|r.specs|, answers).alloc.jobids);
    }
  }

  lemma FilterFollows(w: World, g: Key, answers: seq<Answer>, n: nat, node: string)
    requires g in w.memo && forall name :: name in w.memo[g].place.nodes <==> exists i :: 0 <= i < n && GivesNode(answers, i, name)
    ensures Passes(w, g, node) <==>
            || (exists i :: 0 <= i < n && GivesNode(answers, i, node))
            || forall i, name :: 0 <= i < n ==> !GivesNode(answers, i, name)
  {
    var nodes := w.memo[g].place.nodes;
    if nodes != [] {
      assert nodes[0] in nodes;
    } else {
      forall i, name | 0 <= i < n ensures !GivesNode(answers, i, name) {
        assert name !in nodes;
      }
    }
  }

  lemma HeldByMatch(answers: seq<Answer>, n: nat, ids: seq<JobId>)
    requires |ids| == n <= |answers| && forall i :: 0 <= i < n ==> answers[i].Allocated? && ids[i] == answers[i].id
    ensures IdSet(ids) == set i | 0 <= i < n && answers[i].Allocated? :: answers[i].id
  {
    forall x | x in IdSet(ids) ensures x in set i | 0 <= i < n && answers[i].Allocated? :: answers[i].id {
      var i :| 0 <= i < n && ids[i] == x;
    }
  }

  // ---- whom a match is for ----

  /** A listed pod that is matched with the group: linked to it in its namespace, and not gated. */
  predicate Ready(pods: map<Key, PodObj>, g: Key, k: Key) {
    k in pods && k.ns == g.ns && pods[k].group == g.name && !pods[k].gated
  }

  function CountReady(pods: map<Key, PodObj>, g: Key, listing: seq<Key>): nat {
    |set i: nat | i < |listing| && Ready(pods, g, listing[i])|
  }

  lemma {:induction false} MembersAre(pods: map<Key, PodObj>, listing: seq<Key>, g: Key)
    ensures |GroupMembers(pods, listing, g)| == CountReady(pods, g, listing)
    ensures forall p :: p in GroupMembers(pods, listing, g) <==>
              exists i :: 0 <= i < |listing| && Ready(pods, g, listing[i]) && pods[listing[i]].spec == p
  {
    if listing != [] {
      var n := |listing| - 1;
      MembersAre(pods, listing[..n], g);
      ReadyMore(pods, g, listing, n);
      assert GroupMembers(pods, listing, g) ==
             GroupMembers(pods, listing[..n], g) + if Ready(pods, g, listing[n]) then [pods[listing[n]].spec] else [];
    }
  }

  lemma ReadyMore(pods: map<Key, PodObj>, g: Key, listing: seq<Key>, n: nat)
    requires |listing| == n + 1
    ensures CountReady(pods, g, listing) == CountReady(pods, g, listing[..n]) + if Ready(pods, g, listing[n]) then 1 else 0
  {
    var init := listing[..n];
    var before := set i: nat | i < n && Ready(pods, g, init[i]);
    var all := set i: nat | i < n + 1 && Ready(pods, g, listing[i]);
    assert n !in before && all == before + if Ready(pods, g, listing[n]) then {n} else {};
  }

  /**
   * The compute jobspec a pod's group submits has a slot for each of its listed members
   * that are not gated, and for an ungrouped pod one; no jobspec selects an excluded node.
   */
  lemma SlotsPerMember(cfg: Config, w: World, k: Key, listing: seq<Key>, i: nat, v: Vertex)
    requires k in w.pods && SpecsFor(cfg, w, k, listing).Specs?
    ensures var p, specs := w.pods[k], SpecsFor(cfg, w, k, listing).specs;
            && specs != [] && specs[0].command == GroupKey(k, p).ns + "/" + GroupKey(k, p).name
            && specs[0].slots == (if p.group == "" then 1 else CountReady(w.pods, Key(k.ns, p.group), listing))
            && (v.name in ExcludedFor(w.excluded, GroupKey(k, p)) ==> !Satisfies(v, specs[0].constraints))
  {
    var p := w.pods[k];
    var g := GroupKey(k, p);
    var pods, excluded := GroupPods(w.pods, listing, k, p), Sorted(ExcludedFor(w.excluded, g));
    JobspecsByType(g.ns + "/" + g.name, pods, cfg.knownDevices, excluded);
    ComputeSelects(g.ns + "/" + g.name, pods, cfg.knownDevices, excluded, v);
    if p.group != "" {
      MembersAre(w.pods, listing, Key(k.ns, p.group));
    }
  }

  // ---- what is recorded and excluded afterwards ----

  /** PreBind leaves the group's ids on its owner: reading the annotation gives them back. */
  lemma PreBindRecords(w: World, k: Key)
    requires Inv(w) && k in w.pods && GroupKey(k, w.pods[k]) in w.memo
    ensures var w', p, ids := PreBind(w, k), w.pods[k], w.memo[GroupKey(k, w.pods[k])].jobids;
            && (p.group == "" ==> k in w'.pods && Parse(w'.pods[k].jobAnn) == Some(ids))
            && (p.group != "" && Key(k.ns, p.group) in w.groups ==>
                  Key(k.ns, p.group) in w'.groups && Parse(w'.groups[Key(k.ns, p.group)].jobAnn) == Some(ids))
  {
    ParseFormat(w.memo[GroupKey(k, w.pods[k])].jobids);
  }

  /** PostFilter keeps the group off the nodes it was given and that were found incompatible, and off no other than before. */
  lemma PostFilterExcludes(w: World, g: Key, codes: map<string, Code>, node: string)
    requires g in w.memo
    ensures var w' := PostFilter(w, g, codes);
            && g !in w'.memo && w'.held == w.held - (set x | x in w.memo[g].jobids)
            && (g in w'.excluded && node in w'.excluded[g] <==>
                  || (g in w.excluded && node in w.excluded[g])
                  || (node in w.memo[g].place.nodes && node in codes && codes[node] == UnschedulableAndUnresolvable))
  {
  }

  /** Teardown lets a later group of the name start with no node excluded. */
  lemma TeardownClears(w: World, e: Event, k: Key, old_: bool)
    requires EventOwner(e) == Some(k) && (k in w.memo || Parse(e.jobAnn).Some?)
    ensures k !in HandleEvent(w, e, old_).excluded && k !in HandleEvent(w, e, old_).memo
  {
  }
}
