/**
 * Runs of the scheduler plugin: every interleaving of scheduling steps, API
 * changes, informer deliveries and sweeps, and what all of them keep.
 */
module SchedulerRuns {
  import opened Vocabulary
  import opened Options
  import opened JobIds
  import opened Sorting
  import opened Constraints
  import opened Placement
  import opened SchedulerModel
  import opened Runs
  import Sums

  datatype Step =
    | CreateGroup(key: Key, fluenceCreated: bool, jobAnn: string)
    | CreatePod(key: Key, pod: PodObj)
    | Ungate(key: Key)
    | Complete(key: Key)
    | DeletePod(key: Key)
    | DeletePodGroup(key: Key)
    | Deliver(event: Event, old_: bool)
    | Sweep(key: Key, old_: bool)
    | RunPreFilter(key: Key, listing: seq<Key>, answers: seq<Answer>)
    | RunPostFilter(key: Key, codes: map<string, Code>)
    | RunPreBind(key: Key)

  function Next(cfg: Config, w: World, s: Step): World
    requires Possible(cfg, w, s)
  {
    match s
    case CreateGroup(k, fluenceCreated, ann) => w.(groups := w.groups[k := PodGroup(fluenceCreated, ann)])
    case CreatePod(k, p) => w.(pods := w.pods[k := p])
    case Ungate(k) => w.(pods := w.pods[k := w.pods[k].(gated := false)])
    case Complete(k) =>
      var p := w.pods[k];
      w.(pods := w.pods[k := p.(terminal := true)], events := w.events + multiset{PodCompleted(k, p.group, p.jobAnn)})
    case DeletePod(k) =>
      w.(pods := w.pods - {k}, events := w.events + multiset{PodGone(k, w.pods[k].group, w.pods[k].jobAnn)})
    case DeletePodGroup(k) => DeleteGroup(w, k)
    case Deliver(e, old_) => HandleEvent(w.(events := w.events - multiset{e}), e, old_)
    case Sweep(k, old_) => ReconcileGroup(w, k, old_)
    case RunPreFilter(k, listing, answers) => PreFilter(cfg, w, k, listing, answers)
    case RunPostFilter(k, codes) => PostFilter(w, GroupKey(k, w.pods[k]), codes)
    case RunPreBind(k) => PreBind(w, k)
  }

  /** What the API server, the scheduling framework and Fluxion guarantee of a step. */
  ghost predicate Possible(cfg: Config, w: World, s: Step) {
    match s
    case CreateGroup(k, _, _) => k !in w.groups
    case CreatePod(k, p) => k !in w.pods && !p.terminal
    case Ungate(k) => k in w.pods && !w.pods[k].terminal
    case Complete(k) => k in w.pods && !w.pods[k].terminal
    case DeletePod(k) => k in w.pods
    case DeletePodGroup(k) => k in w.groups
    case Deliver(e, _) => e in w.events
    case Sweep(k, _) => true
    case RunPreFilter(k, listing, answers) =>
      && k in w.pods && !w.pods[k].terminal
      && (SpecsFor(cfg, w, k, listing).Specs? ==> Honest(cfg, SpecsFor(cfg, w, k, listing).specs, answers, w.used))
    case RunPostFilter(k, _) => k in w.pods
    case RunPreBind(k) => k in w.pods
  }

  /**
   * Fluxion's side: 64-bit ids never issued before, vertices that satisfy the jobspec
   * they answer, and physical vertices that are nodes of the graph.
   */
  ghost predicate Honest(cfg: Config, specs: seq<Jobspec>, answers: seq<Answer>, used: set<JobId>) {
    && (forall i :: 0 <= i < |specs| && At(answers, i).Allocated? ==> At(answers, i).id !in used && At(answers, i).id <= MAX_UINT64)
    && (forall i, j :: 0 <= i < j < |specs| && At(answers, i).Allocated? && At(answers, j).Allocated? ==> At(answers, i).id != At(answers, j).id)
    && (forall i :: 0 <= i < |specs| && At(answers, i).Allocated? && At(answers, i).allocation.Some? ==>
          Eligible(cfg, specs[i], At(answers, i).allocation.value))
  }

  ghost predicate Eligible(cfg: Config, spec: Jobspec, nodes: seq<Vertex>) {
    forall v :: v in nodes ==> Satisfies(v, spec.constraints) && (VIRTUAL_TRUE !in v.properties ==> v.name in cfg.universe)
  }

  // ---- the stated environment conditions ----

  function EventOwner(e: Event): Option<Key> {
    match e
    case GroupGone(k, _) => Some(k)
    case PodCompleted(k, g, _) => if g == "" then Some(k) else None
    case PodGone(k, g, _) => if g == "" then Some(k) else None
  }

  ghost predicate Pending(w: World, k: Key) {
    exists e :: e in w.events && EventOwner(e) == Some(k)
  }

  /** k names an ungrouped pod, or one whose events are still on their way. */
  ghost predicate PodName(w: World, k: Key) {
    || (k in w.pods && w.pods[k].group == "")
    || exists e :: e in w.events && EventOwner(e) == Some(k) && !e.GroupGone?
  }

  /** k names a pod group: the object, a pod that refers to it, or its deletion. */
  ghost predicate GroupNamed(w: World, k: Key) {
    || k in w.groups
    || (exists j :: j in w.pods && w.pods[j].group != "" && GroupKey(j, w.pods[j]) == k)
    || exists e :: e in w.events && EventOwner(e) == Some(k) && e.GroupGone?
  }

  /** An owner of k, live or with its last event pending, carries this annotation. */
  ghost predicate Owns(w: World, k: Key, ann: string) {
    || (k in w.groups && w.groups[k].jobAnn == ann)
    || (k in w.pods && w.pods[k].group == "" && w.pods[k].jobAnn == ann)
    || exists e :: e in w.events && EventOwner(e) == Some(k) && e.jobAnn == ann
  }

  ghost predicate Recorded(w: World, k: Key) {
    exists ann :: Owns(w, k, ann) && Parse(ann).Some?
  }

  /**
   * A pod group and an ungrouped pod do not share a name, events for an owner are
   * handled before its key is reused, no owner arrives with a jobid annotation that
   * parses unless it names its own key's ids, and a group is not taken through
   * PostFilter while an owner that is not being torn down has its ids recorded.
   */
  ghost predicate Assumed(w: World, s: Step) {
    match s
    case CreateGroup(k, _, ann) => !PodName(w, k) && !Pending(w, k) && Matches(w, k, ann)
    case CreatePod(k, p) => NameFree(w, k, p) && (p.group == "" ==> Matches(w, k, p.jobAnn))
    case RunPostFilter(k, _) => k in w.pods && GroupKey(k, w.pods[k]) in w.memo ==> !RecordedLive(w, GroupKey(k, w.pods[k]))
    case _ => true
  }

  type Run = Trace<World, Step>

  ghost predicate IsStep(cfg: Config, r: Run, i: nat)
    requires i < |r.steps| && i + 1 < |r.states|
  {
    && Possible(cfg, r.states[i], r.steps[i]) && Assumed(r.states[i], r.steps[i])
    && r.states[i + 1] == Next(cfg, r.states[i], r.steps[i])
  }

  ghost predicate IsRun(cfg: Config, r: Run) {
    && |r.states| == |r.steps| + 1
    && forall i :: 0 <= i < |r.steps| ==> IsStep(cfg, r, i)
  }

  const START := World(map[], map[], {}, {}, map[], map[], multiset{})

  // ---- the invariant ----

  function MemoIds(memo: map<Key, GroupAlloc>): set<JobId> {
    set k, x | k in memo && x in memo[k].jobids :: x
  }

  function IdsAt(memo: map<Key, GroupAlloc>, k: Key): set<JobId> {
    if k in memo then IdSet(memo[k].jobids) else {}
  }

  ghost predicate Disjoint(memo: map<Key, GroupAlloc>) {
    forall j, k :: j in memo && k in memo && j != k ==> IdSet(memo[j].jobids) !! IdSet(memo[k].jobids)
  }

  ghost predicate Distinct(ids: seq<JobId>) {
    forall i, j :: 0 <= i < j < |ids| ==> ids[i] != ids[j]
  }

  /** Fluxion holds exactly the ids in the memo, each listed once, by one group. */
  ghost predicate Exact(w: World) {
    && w.held == MemoIds(w.memo)
    && Disjoint(w.memo)
    && forall k :: k in w.memo ==> Distinct(w.memo[k].jobids)
  }

  /** A parsed annotation names, of the ids still held, exactly its group's. */
  ghost predicate Accounted(w: World, k: Key, ann: string) {
    Parse(ann).Some? ==>
      IdSet(Parse(ann).value) <= w.used && IdSet(Parse(ann).value) * w.held == IdsAt(w.memo, k)
  }

  /** The annotation names the ids the memo holds for the key. */
  ghost predicate Matches(w: World, k: Key, ann: string) {
    Parse(ann).Some? ==> k in w.memo && IdSet(Parse(ann).value) == IdSet(w.memo[k].jobids)
  }

  /** An owner of k that has not been torn down carries this annotation. */
  ghost predicate OwnsLive(w: World, k: Key, ann: string) {
    || (k in w.groups && w.groups[k].jobAnn == ann)
    || (k in w.pods && w.pods[k].group == "" && !w.pods[k].terminal && w.pods[k].jobAnn == ann)
    || GroupGone(k, ann) in w.events
  }

  ghost predicate RecordedLive(w: World, k: Key) {
    exists ann :: OwnsLive(w, k, ann) && Parse(ann).Some?
  }

  ghost predicate Bounds(w: World) {
    && w.held <= w.used
    && forall k :: k in w.memo ==> w.memo[k].jobids != [] && Uint64s(w.memo[k].jobids)
  }

  ghost predicate Records(w: World) {
    && (forall k, ann :: Owns(w, k, ann) ==> Accounted(w, k, ann))
    && (forall k, ann :: OwnsLive(w, k, ann) ==> Matches(w, k, ann))
  }

  /** Keys are not shared, and an owner with a pending event is on its way out. */
  ghost predicate Names(w: World) {
    && (forall k :: !(PodName(w, k) && GroupNamed(w, k)))
    && (forall k :: k in w.groups ==> !Pending(w, k))
    && (forall k :: k in w.pods && w.pods[k].group == "" && !w.pods[k].terminal ==> !Pending(w, k))
    && (forall e :: e in w.events && e.GroupGone? ==> w.events[e] == 1)
    && (forall e, f :: e in w.events && f in w.events && e.GroupGone? && f.GroupGone? && e.key == f.key ==> e == f)
  }

  ghost predicate Inv(w: World) {
    Exact(w) && Bounds(w) && Records(w) && Names(w)
  }

  // ---- cancelling ----

  lemma MemoWithout(memo: map<Key, GroupAlloc>, k: Key)
    requires Disjoint(memo)
    ensures MemoIds(memo - {k}) == MemoIds(memo) - IdsAt(memo, k)
  {
    forall x | x in MemoIds(memo) - IdsAt(memo, k) ensures x in MemoIds(memo - {k}) {
      var j :| j in memo && x in memo[j].jobids;
      assert j == k ==> x in IdsAt(memo, k);
      assert j in memo - {k} && (memo - {k})[j] == memo[j];
    }
    forall x | x in MemoIds(memo - {k}) ensures x !in IdsAt(memo, k) {
      var j :| j in memo - {k} && x in memo[j].jobids;
      if k in memo {
        assert x in IdSet(memo[j].jobids);
      }
    }
  }

  lemma MemoWith(memo: map<Key, GroupAlloc>, k: Key, alloc: GroupAlloc)
    requires k !in memo
    ensures MemoIds(memo[k := alloc]) == MemoIds(memo) + IdSet(alloc.jobids)
  {
    forall x | x in MemoIds(memo) ensures x in MemoIds(memo[k := alloc]) {
      var j :| j in memo && x in memo[j].jobids;
      assert j in memo[k := alloc];
    }
    forall x | x in alloc.jobids ensures x in MemoIds(memo[k := alloc]) {
      assert k in memo[k := alloc];
    }
  }

  /**
   * When cancelling a group keeps the memo exact: the annotation is followed, so the
   * ids it names that are still held must be the memo's ids for the key, all of them.
   */
  lemma CancelKeepsExactIff(w: World, k: Key, ann: string)
    requires Exact(w)
    ensures Exact(CancelGroup(w, k, ann)) <==> (Parse(ann).Some? ==> IdSet(Parse(ann).value) * w.held == IdsAt(w.memo, k))
  {
    MemoWithout(w.memo, k);
    var w' := CancelGroup(w, k, ann);
    assert IdsAt(w.memo, k) <= w.held by {
      if k in w.memo {
        assert forall x :: x in w.memo[k].jobids ==> x in MemoIds(w.memo);
      }
    }
    if Parse(ann).Some? {
      SubtractSame(w.held, IdSet(Parse(ann).value), IdsAt(w.memo, k));
    }
  }

  lemma SubtractSame(h: set<JobId>, a: set<JobId>, b: set<JobId>)
    requires b <= h
    ensures h - a == h - b <==> a * h == b
  {
    assert a * h == h - (h - a);
    assert b == h - (h - b);
    assert h - a == h - a * h;
  }

  /** Names and annotation ownership are matters of the API server's objects alone. */
  lemma SameObjects(w: World, w': World)
    requires w.groups == w'.groups && w.pods == w'.pods && w.events == w'.events
    ensures Names(w) ==> Names(w')
    ensures forall k, ann :: Owns(w', k, ann) ==> Owns(w, k, ann)
    ensures forall k, ann :: OwnsLive(w', k, ann) ==> OwnsLive(w, k, ann)
  {
    assert forall k :: PodName(w', k) ==> PodName(w, k);
    assert forall k :: GroupNamed(w', k) ==> GroupNamed(w, k);
    assert forall k :: Pending(w', k) ==> Pending(w, k);
  }

  /** A change of objects that records nothing new leaves the records right. */
  lemma SamePlugin(w: World, w': World)
    requires w.memo == w'.memo && w.held == w'.held && w.used == w'.used
    requires Records(w)
    requires forall k, ann :: Owns(w', k, ann) ==> Owns(w, k, ann) || Accounted(w, k, ann)
    requires forall k, ann :: OwnsLive(w', k, ann) ==> OwnsLive(w, k, ann) || Matches(w, k, ann)
    ensures Records(w')
  {
    forall k, ann | Owns(w', k, ann) ensures Accounted(w', k, ann) {
      assert Accounted(w, k, ann);
    }
    forall k, ann | OwnsLive(w', k, ann) ensures Matches(w', k, ann) {
      assert Matches(w, k, ann);
    }
  }

  lemma CancelKeeps(w: World, k: Key, ann: string)
    requires Inv(w) && Accounted(w, k, ann)
    requires forall a :: !OwnsLive(w, k, a)
    ensures Inv(CancelGroup(w, k, ann))
  {
    var w' := CancelGroup(w, k, ann);
    CancelKeepsExactIff(w, k, ann);
    SameObjects(w, w');
    if CancelledIds(w, k, ann).Some? {
      var ids := IdSet(CancelledIds(w, k, ann).value);
      assert ids * w.held == IdsAt(w.memo, k) by {
        if Parse(ann).None? {
          assert forall x :: x in w.memo[k].jobids ==> x in MemoIds(w.memo);
        }
      }
      forall j, a | Owns(w', j, a) ensures Accounted(w', j, a) {
        CancelAccounted(w, k, ann, j, a);
      }
      forall j, a | OwnsLive(w', j, a) ensures Matches(w', j, a) {
        assert OwnsLive(w, j, a) && Matches(w, j, a);
      }
    }
  }

  lemma CancelAccounted(w: World, k: Key, ann: string, j: Key, a: string)
    requires Exact(w) && Accounted(w, j, a) && CancelledIds(w, k, ann).Some?
    requires IdSet(CancelledIds(w, k, ann).value) * w.held == IdsAt(w.memo, k)
    ensures Accounted(CancelGroup(w, k, ann), j, a)
  {
    var ids := IdSet(CancelledIds(w, k, ann).value);
    if Parse(a).Some? {
      var named := IdSet(Parse(a).value);
      assert named * (w.held - ids) == named * w.held - IdsAt(w.memo, k);
      if j != k && k in w.memo && j in w.memo {
        assert IdSet(w.memo[j].jobids) !! IdSet(w.memo[k].jobids);
      }
      assert IdsAt(w.memo - {k}, j) == IdsAt(w.memo, j) - IdsAt(w.memo, k);
    }
  }

  // ---- each step keeps the invariant ----

  lemma FewerEvents(w: World, e: Event)
    requires Inv(w) && e in w.events
    ensures Inv(w.(events := w.events - multiset{e}))
  {
    var w' := w.(events := w.events - multiset{e});
    assert forall f :: f in w'.events ==> f in w.events;
    assert forall k :: PodName(w', k) ==> PodName(w, k);
    assert forall k :: GroupNamed(w', k) ==> GroupNamed(w, k);
    assert forall k :: Pending(w', k) ==> Pending(w, k);
    SamePlugin(w, w');
  }

  lemma DeleteGroupNames(w: World, g: Key)
    requires Names(w) && g in w.groups
    ensures Names(DeleteGroup(w, g))
  {
    var w' := DeleteGroup(w, g);
    var gone := GroupGone(g, w.groups[g].jobAnn);
    assert EventOwner(gone) == Some(g);
    assert !Pending(w, g) && gone !in w.events;
    assert forall f :: f in w.events && f.GroupGone? ==> EventOwner(f) == Some(f.key);
    assert forall f :: f in w'.events <==> f in w.events || f == gone;
    assert GroupNamed(w, g);
    assert forall k :: PodName(w', k) ==> PodName(w, k);
    assert forall k :: GroupNamed(w', k) ==> GroupNamed(w, k);
    assert forall k :: Pending(w', k) ==> Pending(w, k) || k == g;
  }

  lemma DeleteGroupRecords(w: World, g: Key)
    requires Records(w) && g in w.groups
    ensures Records(DeleteGroup(w, g))
  {
    var w' := DeleteGroup(w, g);
    var gone := GroupGone(g, w.groups[g].jobAnn);
    assert forall f :: f in w'.events ==> f in w.events || f == gone;
    assert OwnsLive(w, g, w.groups[g].jobAnn);
    SamePlugin(w, w');
  }

  lemma DeleteGroupKeeps(w: World, g: Key)
    requires Inv(w)
    ensures Inv(DeleteGroup(w, g))
  {
    if g in w.groups {
      DeleteGroupNames(w, g);
      DeleteGroupRecords(w, g);
    }
  }

  lemma ReconcileKeeps(w: World, g: Key, old_: bool)
    requires Inv(w)
    ensures Inv(ReconcileGroup(w, g, old_))
  {
    DeleteGroupKeeps(w, g);
    DeleteGroupKeeps(DeleteGroup(w, g), Key(g.ns, g.name + SCOUT_SUFFIX));
  }

  lemma DeliverKeeps(w: World, e: Event, old_: bool)
    requires Inv(w) && e in w.events
    ensures Inv(HandleEvent(w.(events := w.events - multiset{e}), e, old_))
  {
    var w0 := w.(events := w.events - multiset{e});
    FewerEvents(w, e);
    match EventOwner(e)
    case None => ReconcileKeeps(w0, Key(e.key.ns, e.group), old_);
    case Some(k) =>
      assert Pending(w, k);
      assert Owns(w, k, e.jobAnn) && Accounted(w, k, e.jobAnn);
      forall f | f in w0.events && f.GroupGone? ensures f.key != k {
        assert f in w.events && EventOwner(f) == Some(f.key);
        assert GroupNamed(w, f.key);
        assert e.GroupGone? || PodName(w, k);
        assert e.GroupGone? ==> w.events[e] == 1;
      }
      CancelKeeps(w0, k, e.jobAnn);
  }

  /** An annotation that names the memo's ids for its key is accounted for. */
  lemma MatchesAccounted(w: World, k: Key, ann: string)
    requires Exact(w) && Bounds(w) && Matches(w, k, ann)
    ensures Accounted(w, k, ann)
  {
    if Parse(ann).Some? {
      assert forall x :: x in w.memo[k].jobids ==> x in MemoIds(w.memo);
    }
  }

  lemma CreateGroupNames(w: World, k: Key, group: PodGroup)
    requires Names(w) && k !in w.groups && !PodName(w, k) && !Pending(w, k)
    ensures Names(w.(groups := w.groups[k := group]))
  {
    var w' := w.(groups := w.groups[k := group]);
    assert forall j :: PodName(w', j) ==> PodName(w, j);
    assert forall j :: GroupNamed(w', j) ==> GroupNamed(w, j) || j == k;
    assert forall j :: Pending(w', j) ==> Pending(w, j);
  }

  lemma CreateGroupKeeps(w: World, k: Key, group: PodGroup)
    requires Inv(w) && k !in w.groups && !PodName(w, k) && !Pending(w, k) && Matches(w, k, group.jobAnn)
    ensures Inv(w.(groups := w.groups[k := group]))
  {
    CreateGroupNames(w, k, group);
    MatchesAccounted(w, k, group.jobAnn);
    SamePlugin(w, w.(groups := w.groups[k := group]));
  }

  /** A group arriving keeps the invariant exactly when its annotation does not parse or names its own ids. */
  lemma CreateGroupKeepsIff(w: World, k: Key, group: PodGroup)
    requires Inv(w) && k !in w.groups && !PodName(w, k) && !Pending(w, k)
    ensures Inv(w.(groups := w.groups[k := group])) <==>
            Parse(group.jobAnn).None? || (k in w.memo && IdSet(Parse(group.jobAnn).value) == IdSet(w.memo[k].jobids))
  {
    var w' := w.(groups := w.groups[k := group]);
    if Matches(w, k, group.jobAnn) {
      CreateGroupKeeps(w, k, group);
    } else {
      assert OwnsLive(w', k, group.jobAnn) && !Matches(w', k, group.jobAnn);
    }
  }

  /** The condition on a new pod: its name, or its group's, is not taken by the other kind. */
  ghost predicate NameFree(w: World, k: Key, p: PodObj) {
    && k !in w.pods
    && if p.group == "" then !GroupNamed(w, k) && !Pending(w, k) else !PodName(w, GroupKey(k, p))
  }

  lemma CreatePodNames(w: World, k: Key, p: PodObj)
    requires Names(w) && NameFree(w, k, p)
    ensures Names(w.(pods := w.pods[k := p]))
  {
    var w' := w.(pods := w.pods[k := p]);
    assert forall j :: PodName(w', j) ==> PodName(w, j) || (j == k && p.group == "");
    assert forall j :: GroupNamed(w', j) ==> GroupNamed(w, j) || (j == GroupKey(k, p) && p.group != "");
    assert forall j :: Pending(w', j) ==> Pending(w, j);
  }

  lemma CreatePodRecords(w: World, k: Key, p: PodObj)
    requires Exact(w) && Bounds(w) && Records(w) && k !in w.pods && (p.group == "" ==> Matches(w, k, p.jobAnn))
    ensures Records(w.(pods := w.pods[k := p]))
  {
    if p.group == "" {
      MatchesAccounted(w, k, p.jobAnn);
    }
    SamePlugin(w, w.(pods := w.pods[k := p]));
  }

  lemma CreatePodKeeps(w: World, k: Key, p: PodObj)
    requires Inv(w) && NameFree(w, k, p) && (p.group == "" ==> Matches(w, k, p.jobAnn))
    ensures Inv(w.(pods := w.pods[k := p]))
  {
    CreatePodNames(w, k, p);
    CreatePodRecords(w, k, p);
  }

  /**
   * A pod arriving keeps the invariant exactly when it belongs to a group, whose pods'
   * annotations nobody follows, or its annotation does not parse or names its own ids.
   */
  lemma CreatePodKeepsIff(w: World, k: Key, p: PodObj)
    requires Inv(w) && NameFree(w, k, p) && !p.terminal
    ensures Inv(w.(pods := w.pods[k := p])) <==>
            p.group != "" || Parse(p.jobAnn).None? || (k in w.memo && IdSet(Parse(p.jobAnn).value) == IdSet(w.memo[k].jobids))
  {
    var w' := w.(pods := w.pods[k := p]);
    if p.group == "" ==> Matches(w, k, p.jobAnn) {
      CreatePodKeeps(w, k, p);
    } else {
      assert OwnsLive(w', k, p.jobAnn) && !Matches(w', k, p.jobAnn);
    }
  }

  lemma UngateKeeps(w: World, k: Key)
    requires Inv(w) && k in w.pods
    ensures Inv(w.(pods := w.pods[k := w.pods[k].(gated := false)]))
  {
    var w' := w.(pods := w.pods[k := w.pods[k].(gated := false)]);
    assert forall j :: PodName(w', j) ==> PodName(w, j);
    assert forall j :: GroupNamed(w', j) ==> GroupNamed(w, j);
    assert forall j :: Pending(w', j) ==> Pending(w, j);
    SamePlugin(w, w');
  }

  /** How a pod leaves: it turns terminal, or goes, and either way an event follows. */
  predicate Leaves(w: World, k: Key, pods': map<Key, PodObj>, e: Event) {
    && k in w.pods
    && (pods' == w.pods - {k} || pods' == w.pods[k := w.pods[k].(terminal := true)])
    && !e.GroupGone? && e.key == k && e.group == w.pods[k].group && e.jobAnn == w.pods[k].jobAnn
  }

  lemma LeaveNames(w: World, k: Key, pods': map<Key, PodObj>, e: Event)
    requires Names(w) && Leaves(w, k, pods', e)
    ensures Names(w.(pods := pods', events := w.events + multiset{e}))
  {
    var w' := w.(pods := pods', events := w.events + multiset{e});
    assert forall f :: f in w'.events <==> f in w.events || f == e;
    LeaveNamed(w, k, pods', e);
    assert forall j :: j in w.groups ==> GroupNamed(w, j);
  }

  lemma LeaveNamed(w: World, k: Key, pods': map<Key, PodObj>, e: Event)
    requires Leaves(w, k, pods', e)
    ensures var w' := w.(pods := pods', events := w.events + multiset{e});
            && (forall j :: PodName(w', j) ==> PodName(w, j))
            && (forall j :: GroupNamed(w', j) ==> GroupNamed(w, j))
            && (forall j :: Pending(w', j) ==> Pending(w, j) || (j == k && PodName(w, k)))
  {
    var w' := w.(pods := pods', events := w.events + multiset{e});
    assert forall f :: f in w'.events <==> f in w.events || f == e;
  }

  lemma LeaveRecords(w: World, k: Key, pods': map<Key, PodObj>, e: Event)
    requires Records(w) && Leaves(w, k, pods', e)
    ensures Records(w.(pods := pods', events := w.events + multiset{e}))
  {
    var w' := w.(pods := pods', events := w.events + multiset{e});
    assert forall f :: f in w'.events ==> f in w.events || f == e;
    SamePlugin(w, w');
  }

  lemma LeaveKeeps(w: World, k: Key, pods': map<Key, PodObj>, e: Event)
    requires Inv(w) && Leaves(w, k, pods', e)
    ensures Inv(w.(pods := pods', events := w.events + multiset{e}))
  {
    LeaveNames(w, k, pods', e);
    LeaveRecords(w, k, pods', e);
  }

  lemma PreBindNames(w: World, k: Key)
    requires Names(w) && k in w.pods
    ensures Names(PreBind(w, k))
  {
    var w' := PreBind(w, k);
    assert forall j :: PodName(w', j) ==> PodName(w, j);
    assert forall j :: GroupNamed(w', j) ==> GroupNamed(w, j);
    assert forall j :: Pending(w', j) ==> Pending(w, j);
  }

  lemma PreBindRecords(w: World, k: Key)
    requires Exact(w) && Bounds(w) && Records(w) && k in w.pods && GroupKey(k, w.pods[k]) in w.memo
    ensures Records(PreBind(w, k))
  {
    var g := GroupKey(k, w.pods[k]);
    var w' := PreBind(w, k);
    var ids := w.memo[g].jobids;
    var ann := Format(ids);
    ParseFormat(ids);
    assert IdSet(ids) <= w.held by {
      assert forall x :: x in ids ==> x in MemoIds(w.memo);
    }
    assert IdSet(ids) * w.held == IdSet(ids);
    assert Accounted(w, g, ann) && Matches(w, g, ann);
    SamePlugin(w, w');
  }

  lemma PreBindKeeps(w: World, k: Key)
    requires Inv(w) && k in w.pods
    ensures Inv(PreBind(w, k))
  {
    if GroupKey(k, w.pods[k]) in w.memo {
      PreBindNames(w, k);
      PreBindRecords(w, k);
    }
  }

  lemma PostFilterKeeps(w: World, g: Key, codes: map<string, Code>)
    requires Inv(w) && g in w.memo && !RecordedLive(w, g)
    ensures Inv(PostFilter(w, g, codes))
  {
    var w' := PostFilter(w, g, codes);
    MemoWithout(w.memo, g);
    SameObjects(w, w');
    forall j, a | Owns(w', j, a) ensures Accounted(w', j, a) {
      assert Owns(w, j, a) && Accounted(w, j, a);
      if Parse(a).Some? {
        assert j in w.memo && j != g ==> IdSet(w.memo[j].jobids) !! IdSet(w.memo[g].jobids);
        var named := IdSet(Parse(a).value);
        assert named * w'.held == named * w.held - IdSet(w.memo[g].jobids);
      }
    }
    forall j, a | OwnsLive(w', j, a) ensures Matches(w', j, a) {
      assert OwnsLive(w, j, a) && Matches(w, j, a);
    }
  }

  /**
   * Abandoning an allocation keeps the invariant exactly when no owner of the group that
   * is not on its way out, a PodGroup or a pod of its own, has ids recorded by PreBind.
   */
  lemma PostFilterKeepsIff(w: World, g: Key, codes: map<string, Code>)
    requires Inv(w) && g in w.memo
    ensures Inv(PostFilter(w, g, codes)) <==> forall ann :: OwnsLive(w, g, ann) ==> Parse(ann).None?
  {
    if RecordedLive(w, g) {
      var ann :| OwnsLive(w, g, ann) && Parse(ann).Some?;
      assert OwnsLive(PostFilter(w, g, codes), g, ann) && !Matches(PostFilter(w, g, codes), g, ann);
    } else {
      PostFilterKeeps(w, g, codes);
    }
  }

  /** A pod the scheduler is still placing has nothing recorded for a group not in the memo. */
  lemma PendingPodUnrecorded(w: World, k: Key)
    requires Inv(w) && k in w.pods && !w.pods[k].terminal
    requires GroupKey(k, w.pods[k]) !in w.memo
    ensures !Recorded(w, GroupKey(k, w.pods[k]))
  {
    var g := GroupKey(k, w.pods[k]);
    forall ann | Owns(w, g, ann) ensures Parse(ann).None? {
      if w.pods[k].group == "" {
        assert PodName(w, g) && !GroupNamed(w, g) && !Pending(w, g);
      } else {
        assert GroupNamed(w, g) && !PodName(w, g);
        if g !in w.groups {
          var e :| e in w.events && EventOwner(e) == Some(g) && e.jobAnn == ann;
          assert e == GroupGone(g, ann);
          assert OwnsLive(w, g, ann);
        } else {
          assert OwnsLive(w, g, ann) || Pending(w, g);
        }
      }
      assert OwnsLive(w, g, ann) && Matches(w, g, ann);
    }
  }

  lemma MatchedIds(cfg: Config, specs: seq<Jobspec>, answers: seq<Answer>, used: set<JobId>)
    requires specs != [] && Honest(cfg, specs, answers, used)
    requires SchedulerModel.MatchGroup(|specs|, answers).Matched?
    ensures var ids := SchedulerModel.MatchGroup(|specs|, answers).alloc.jobids;
            && |ids| == |specs| && ids != [] && Uint64s(ids) && Distinct(ids)
            && IdSet(ids) !! used && IdSet(ids) <= MatchIssued(|specs|, answers)
  {
    var ids := SchedulerModel.MatchGroup(|specs|, answers).alloc.jobids;
    assert forall i :: 0 <= i < |specs| ==> !Fails(At(answers, i));
    assert forall i :: 0 <= i < |ids| ==> ids[i] == At(answers, i).id;
    forall x | x in IdSet(ids) ensures x !in used && x in MatchIssued(|specs|, answers) {
      var i :| 0 <= i < |ids| && ids[i] == x;
      assert At(answers, i).Allocated?;
    }
  }

  lemma PreFilterKeeps(cfg: Config, w: World, k: Key, listing: seq<Key>, answers: seq<Answer>)
    requires Inv(w) && Possible(cfg, w, RunPreFilter(k, listing, answers))
    ensures Inv(PreFilter(cfg, w, k, listing, answers))
  {
    var g := GroupKey(k, w.pods[k]);
    if g !in w.memo && SpecsFor(cfg, w, k, listing).Specs? {
      var specs := SpecsFor(cfg, w, k, listing).specs;
      var w' := PreFilter(cfg, w, k, listing, answers);
      SameObjects(w, w');
      PendingPodUnrecorded(w, k);
      ComputeSelects(g.ns + "/" + g.name, GroupPods(w.pods, listing, k, w.pods[k]), cfg.knownDevices,
                     Sorted(ExcludedFor(w.excluded, g)), Vertex("", []));
      match SchedulerModel.MatchGroup(|specs|, answers)
      case Rejected =>
        forall j, a | Owns(w', j, a) ensures Accounted(w', j, a) {
          assert Accounted(w, j, a);
        }
        forall j, a | OwnsLive(w', j, a) ensures Matches(w', j, a) {
          assert Matches(w, j, a);
        }
      case Matched(alloc) =>
        MatchedIds(cfg, specs, answers, w.used);
        MemoWith(w.memo, g, alloc);
        MatchKeeps(w, w', g, alloc);
    }
  }

  lemma MatchKeeps(w: World, w': World, g: Key, alloc: GroupAlloc)
    requires Inv(w) && g !in w.memo && !Recorded(w, g)
    requires w' == w.(used := w'.used, held := w.held + IdSet(alloc.jobids), memo := w.memo[g := alloc])
    requires w.used + IdSet(alloc.jobids) <= w'.used && IdSet(alloc.jobids) !! w.used
    requires alloc.jobids != [] && Uint64s(alloc.jobids) && Distinct(alloc.jobids)
    requires MemoIds(w'.memo) == MemoIds(w.memo) + IdSet(alloc.jobids)
    ensures Inv(w')
  {
    SameObjects(w, w');
    forall j | j in w.memo ensures IdSet(w.memo[j].jobids) !! IdSet(alloc.jobids) {
      assert forall x :: x in w.memo[j].jobids ==> x in MemoIds(w.memo);
    }
    forall j, a | Owns(w', j, a) ensures Accounted(w', j, a) {
      assert Owns(w, j, a) && Accounted(w, j, a);
      if Parse(a).Some? {
        assert j != g;
        var named := IdSet(Parse(a).value);
        assert named * w'.held == named * w.held;
      }
    }
    forall j, a | OwnsLive(w', j, a) ensures Matches(w', j, a) {
      assert OwnsLive(w, j, a) && Matches(w, j, a);
    }
  }

  lemma StepKeeps(cfg: Config, w: World, s: Step)
    requires Inv(w) && Possible(cfg, w, s) && Assumed(w, s)
    ensures Inv(Next(cfg, w, s))
  {
    match s
    case CreateGroup(k, fluenceCreated, ann) => CreateGroupKeeps(w, k, PodGroup(fluenceCreated, ann));
    case CreatePod(k, p) => CreatePodKeeps(w, k, p);
    case Ungate(k) => UngateKeeps(w, k);
    case Complete(k) =>
      LeaveKeeps(w, k, w.pods[k := w.pods[k].(terminal := true)], PodCompleted(k, w.pods[k].group, w.pods[k].jobAnn));
    case DeletePod(k) =>
      LeaveKeeps(w, k, w.pods - {k}, PodGone(k, w.pods[k].group, w.pods[k].jobAnn));
    case DeletePodGroup(k) => DeleteGroupKeeps(w, k);
    case Deliver(e, old_) => DeliverKeeps(w, e, old_);
    case Sweep(k, old_) => ReconcileKeeps(w, k, old_);
    case RunPreFilter(k, listing, answers) => PreFilterKeeps(cfg, w, k, listing, answers);
    case RunPostFilter(k, codes) =>
      if GroupKey(k, w.pods[k]) in w.memo {
        PostFilterKeeps(w, GroupKey(k, w.pods[k]), codes);
      }
    case RunPreBind(k) => PreBindKeeps(w, k);
  }

  lemma {:induction false} RunKeeps(cfg: Config, r: Run, n: nat)
    requires IsRun(cfg, r) && Inv(r.states[0]) && n < |r.states|
    ensures Inv(r.states[n])
  {
    if n > 0 {
      RunKeeps(cfg, r, n - 1);
      assert IsStep(cfg, r, n - 1);
      StepKeeps(cfg, r.states[n - 1], r.steps[n - 1]);
    }
  }

  /**
   * In every run from an empty cluster that meets the environment conditions, Fluxion
   * holds exactly the ids in the memo, and no id belongs to two groups.
   */
  lemma HeldIsMemo(cfg: Config, r: Run, n: nat)
    requires IsRun(cfg, r) && r.states[0] == START && n < |r.states|
    ensures r.states[n].held == MemoIds(r.states[n].memo)
    ensures forall j, k :: j in r.states[n].memo && k in r.states[n].memo && j != k ==>
              IdSet(r.states[n].memo[j].jobids) !! IdSet(r.states[n].memo[k].jobids)
    ensures forall k :: k in r.states[n].memo ==> Distinct(r.states[n].memo[k].jobids)
  {
    assert Inv(START);
    RunKeeps(cfg, r, n);
  }

  // ---- teardown ----

  /**
   * Delivering the event of an owner that is gone frees exactly its group's ids, and
   * the memo forgets the group.
   */
  lemma TeardownFreesTheGroup(w: World, e: Event, k: Key, old_: bool)
    requires Inv(w) && e in w.events && EventOwner(e) == Some(k)
    ensures var w' := HandleEvent(w.(events := w.events - multiset{e}), e, old_);
            w'.held == w.held - IdsAt(w.memo, k) && k !in w'.memo && forall j :: j in w.memo && j != k ==> j in w'.memo
  {
    assert Owns(w, k, e.jobAnn) && Accounted(w, k, e.jobAnn);
    CancelFrees(w.(events := w.events - multiset{e}), k, e.jobAnn);
  }

  lemma CancelFrees(w: World, k: Key, ann: string)
    requires Accounted(w, k, ann)
    ensures var w' := CancelGroup(w, k, ann);
            w'.held == w.held - IdsAt(w.memo, k) && k !in w'.memo && forall j :: j in w.memo && j != k ==> j in w'.memo
  {
    if Parse(ann).Some? {
      var named := IdSet(Parse(ann).value);
      assert w.held - named == w.held - named * w.held;
    }
  }

  // ---- what a step leaves alone ----

  lemma SubmitFrame(w: World, g: Key, r: JobspecsResult, answers: seq<Answer>)
    requires g !in w.memo
    ensures var w' := Submit(w, g, r, answers);
            && w'.excluded == w.excluded && w'.groups == w.groups && w'.pods == w.pods && w'.events == w.events
            && (forall j :: j in w.memo ==> j in w'.memo && w'.memo[j] == w.memo[j])
            && (forall j :: j in w'.memo && j !in w.memo ==> j == g)
  {
  }

  lemma PreFilterFrame(cfg: Config, w: World, k: Key, listing: seq<Key>, answers: seq<Answer>)
    requires k in w.pods
    ensures var w' := PreFilter(cfg, w, k, listing, answers);
            && w'.excluded == w.excluded && w'.groups == w.groups && w'.pods == w.pods && w'.events == w.events
            && (forall j :: j in w.memo ==> j in w'.memo && w'.memo[j] == w.memo[j])
            && (forall j :: j in w'.memo && j !in w.memo ==> j == GroupKey(k, w.pods[k]))
  {
    var g := GroupKey(k, w.pods[k]);
    if g !in w.memo {
      SubmitFrame(w, g, SpecsFor(cfg, w, k, listing), answers);
    }
  }

  /** Deleting groups touches neither the plugin nor the pods. */
  ghost predicate OnlyGroups(w: World, w': World) {
    w' == w.(groups := w'.groups, events := w'.events)
  }

  lemma ReapFrame(w: World, g: Key)
    ensures OnlyGroups(w, Reap(w, g))
  {
    var w1 := DeleteGroup(w, g);
    assert OnlyGroups(w, w1);
    assert OnlyGroups(w1, DeleteGroup(w1, Key(g.ns, g.name + SCOUT_SUFFIX)));
  }

  lemma ReconcileFrame(w: World, k: Key, old_: bool)
    ensures OnlyGroups(w, ReconcileGroup(w, k, old_))
  {
    ReapFrame(w, k);
  }

  lemma DeliverFrame(w: World, e: Event, old_: bool, g: Key)
    requires EventOwner(e) != Some(g)
    ensures var w' := HandleEvent(w, e, old_);
            && (g in w'.memo <==> g in w.memo) && (g in w.memo ==> w'.memo[g] == w.memo[g])
            && ExcludedFor(w'.excluded, g) == ExcludedFor(w.excluded, g)
  {
    if EventOwner(e).None? {
      ReconcileFrame(w, Key(e.key.ns, e.group), old_);
    }
  }

  // ---- what a broken condition leads to ----

  lemma SubmitMatched(cfg: Config, w: World, g: Key, r: JobspecsResult, answers: seq<Answer>)
    requires g !in w.memo && r.Specs? && r.specs != [] && Honest(cfg, r.specs, answers, w.used)
    requires g in Submit(w, g, r, answers).memo
    ensures var w' := Submit(w, g, r, answers);
            && w'.memo == w.memo[g := w'.memo[g]] && w'.held == w.held + IdSet(w'.memo[g].jobids)
            && w'.memo[g].jobids != [] && IdSet(w'.memo[g].jobids) !! w.used
  {
    MatchedIds(cfg, r.specs, answers, w.used);
  }

  /** Matching a group afresh after PostFilter, with the old annotation still in place. */
  lemma Rematched(cfg: Config, w: World, k: Key, listing: seq<Key>, answers: seq<Answer>)
    requires Possible(cfg, w, RunPreFilter(k, listing, answers)) && GroupKey(k, w.pods[k]) !in w.memo
    requires GroupKey(k, w.pods[k]) in PreFilter(cfg, w, k, listing, answers).memo
    ensures var g, w' := GroupKey(k, w.pods[k]), PreFilter(cfg, w, k, listing, answers);
            && w'.memo == w.memo[g := w'.memo[g]] && w'.held == w.held + IdSet(w'.memo[g].jobids)
            && w'.memo[g].jobids != [] && IdSet(w'.memo[g].jobids) !! w.used
  {
    var g := GroupKey(k, w.pods[k]);
    var r := SpecsFor(cfg, w, k, listing);
    assert r.Specs?;
    ComputeSelects(g.ns + "/" + g.name, GroupPods(w.pods, listing, k, w.pods[k]), cfg.knownDevices,
                   Sorted(ExcludedFor(w.excluded, g)), Vertex("", []));
    SubmitMatched(cfg, w, g, r, answers);
  }

  /** Tearing down by an annotation that names other ids leaves the memo's ids held. */
  lemma StaleAnnotationOrphans(w: World, g: Key, ann: string)
    requires Parse(ann).Some? && g in w.memo && w.memo[g].jobids != [] && Disjoint(w.memo)
    requires IdSet(w.memo[g].jobids) <= w.held && IdSet(w.memo[g].jobids) !! IdSet(Parse(ann).value)
    ensures var w' := CancelGroup(w, g, ann);
            IdSet(w.memo[g].jobids) <= w'.held && IdSet(w.memo[g].jobids) !! MemoIds(w'.memo) && !Exact(w')
  {
    MemoWithout(w.memo, g);
    assert w.memo[g].jobids[0] in IdSet(w.memo[g].jobids);
  }

  /** What owns the allocation of a pod's group: its PodGroup, or an ungrouped pod itself. */
  function OwnerAnn(w: World, k: Key): Option<string>
    requires k in w.pods
  {
    var p := w.pods[k];
    if p.group == "" then Some(p.jobAnn)
    else if GroupKey(k, p) in w.groups then Some(w.groups[GroupKey(k, p)].jobAnn)
    else None
  }

  /** The owner's deletion, and the event that reports it. */
  function OwnerLost(w: World, k: Key): Step
    requires k in w.pods
  {
    if w.pods[k].group == "" then DeletePod(k) else DeletePodGroup(GroupKey(k, w.pods[k]))
  }

  function LossReported(w: World, k: Key): Event
    requires k in w.pods
  {
    var ann := if OwnerAnn(w, k).Some? then OwnerAnn(w, k).value else "";
    if w.pods[k].group == "" then PodGone(k, "", ann) else GroupGone(GroupKey(k, w.pods[k]), ann)
  }

  /**
   * The condition on PostFilter is needed: once PreBind recorded a group, or a pod with no
   * group, abandoning the allocation, matching again and losing the owner before the next
   * PreBind leaves every id of the new allocation held by Fluxion and known to nobody.
   */
  lemma RetryAfterRecordOrphans(cfg: Config, w: World, k: Key, codes: map<string, Code>, listing: seq<Key>, answers: seq<Answer>)
    requires Inv(w) && k in w.pods && GroupKey(k, w.pods[k]) in w.memo
    requires OwnerAnn(w, k).Some? && Parse(OwnerAnn(w, k).value).Some?
    requires Possible(cfg, PostFilter(w, GroupKey(k, w.pods[k]), codes), RunPreFilter(k, listing, answers))
    requires GroupKey(k, w.pods[k]) in PreFilter(cfg, PostFilter(w, GroupKey(k, w.pods[k]), codes), k, listing, answers).memo
    ensures var g := GroupKey(k, w.pods[k]);
            var retried := PreFilter(cfg, PostFilter(w, g, codes), k, listing, answers);
            var e := LossReported(w, k);
            && Possible(cfg, retried, OwnerLost(w, k))
            && Possible(cfg, Next(cfg, retried, OwnerLost(w, k)), Deliver(e, false))
            && var torn := Next(cfg, Next(cfg, retried, OwnerLost(w, k)), Deliver(e, false));
               var orphans := IdSet(retried.memo[g].jobids);
               orphans != {} && orphans <= torn.held && orphans !! MemoIds(torn.memo) && !Exact(torn)
  {
    var g, ann := GroupKey(k, w.pods[k]), OwnerAnn(w, k).value;
    var retried := PreFilter(cfg, PostFilter(w, g, codes), k, listing, answers);
    RetriedStale(cfg, w, k, codes, listing, answers);
    var lost := Next(cfg, retried, OwnerLost(w, k));
    var e := LossReported(w, k);
    assert HandleEvent(lost.(events := lost.events - multiset{e}), e, false) ==
           CancelGroup(lost.(events := lost.events - multiset{e}), g, ann);
    StaleAnnotationOrphans(lost.(events := lost.events - multiset{e}), g, ann);
  }

  /** After the retry the owner's annotation names none of the ids the memo now holds for it. */
  lemma RetriedStale(cfg: Config, w: World, k: Key, codes: map<string, Code>, listing: seq<Key>, answers: seq<Answer>)
    requires Inv(w) && k in w.pods && GroupKey(k, w.pods[k]) in w.memo
    requires OwnerAnn(w, k).Some? && Parse(OwnerAnn(w, k).value).Some?
    requires Possible(cfg, PostFilter(w, GroupKey(k, w.pods[k]), codes), RunPreFilter(k, listing, answers))
    requires GroupKey(k, w.pods[k]) in PreFilter(cfg, PostFilter(w, GroupKey(k, w.pods[k]), codes), k, listing, answers).memo
    ensures var g := GroupKey(k, w.pods[k]);
            var retried := PreFilter(cfg, PostFilter(w, g, codes), k, listing, answers);
            var ids := retried.memo[g].jobids;
            && retried.groups == w.groups && retried.pods == w.pods && Disjoint(retried.memo)
            && ids != [] && ids[0] in IdSet(ids) && IdSet(ids) <= retried.held
            && IdSet(ids) !! IdSet(Parse(OwnerAnn(w, k).value).value)
  {
    var g, ann := GroupKey(k, w.pods[k]), OwnerAnn(w, k).value;
    var w1 := PostFilter(w, g, codes);
    PreFilterFrame(cfg, w1, k, listing, answers);
    Rematched(cfg, w1, k, listing, answers);
    assert Owns(w, g, ann) && Accounted(w, g, ann);
    forall j | j in w.memo ensures IdSet(w.memo[j].jobids) <= w.used {
      assert forall x :: x in w.memo[j].jobids ==> x in MemoIds(w.memo);
    }
  }

  // ---- an owner that arrives with a jobid annotation ----

  /** A pod with no group arrives and is deleted, and its deletion is handled. */
  function ComeAndGo(w: World, k: Key, p: PodObj): World
    requires p.group == ""
  {
    var gone := PodGone(k, "", p.jobAnn);
    HandleEvent(w.(pods := w.pods - {k}, events := w.events + multiset{gone} - multiset{gone}), gone, false)
  }

  /** It does so in three steps. */
  ghost predicate ComesAndGoes(cfg: Config, w: World, k: Key, p: PodObj)
    requires k !in w.pods && p.group == ""
  {
    && Possible(cfg, w, CreatePod(k, p))
    && var w1 := Next(cfg, w, CreatePod(k, p));
       Possible(cfg, w1, DeletePod(k))
       && var w2 := Next(cfg, w1, DeletePod(k));
          Possible(cfg, w2, Deliver(PodGone(k, "", p.jobAnn), false))
          && Next(cfg, w2, Deliver(PodGone(k, "", p.jobAnn), false)) == ComeAndGo(w, k, p)
  }

  lemma ComeAndGoSteps(cfg: Config, w: World, k: Key, p: PodObj)
    requires k !in w.pods && !p.terminal && p.group == ""
    ensures ComesAndGoes(cfg, w, k, p)
  {
    assert w.pods[k := p] - {k} == w.pods - {k};
  }

  /**
   * A pod that merely comes and goes keeps the memo exact exactly when the held ids its
   * annotation names are its own: one that names another group's ids frees them.
   */
  lemma ForgedAnnotationFreesIff(cfg: Config, w: World, k: Key, p: PodObj)
    requires Exact(w) && p.group == ""
    ensures k !in w.pods && !p.terminal ==> ComesAndGoes(cfg, w, k, p)
    ensures Exact(ComeAndGo(w, k, p)) <==>
            (Parse(p.jobAnn).Some? ==> IdSet(Parse(p.jobAnn).value) * w.held == IdsAt(w.memo, k))
  {
    if k !in w.pods && !p.terminal {
      ComeAndGoSteps(cfg, w, k, p);
    }
    var gone := PodGone(k, "", p.jobAnn);
    var w2 := w.(pods := w.pods - {k}, events := w.events + multiset{gone} - multiset{gone});
    assert Exact(w2);
    CancelKeepsExactIff(w2, k, p.jobAnn);
  }

  /** The same for a pod group that comes with an annotation and is deleted. */
  lemma ForgedGroupFreesIff(cfg: Config, w: World, k: Key, fluenceCreated: bool, ann: string)
    requires Exact(w) && k !in w.groups
    ensures var w1 := Next(cfg, w, CreateGroup(k, fluenceCreated, ann));
            && Possible(cfg, w1, DeletePodGroup(k))
            && var w2 := Next(cfg, w1, DeletePodGroup(k));
               && Possible(cfg, w2, Deliver(GroupGone(k, ann), false))
               && (Exact(Next(cfg, w2, Deliver(GroupGone(k, ann), false))) <==>
                     (Parse(ann).Some? ==> IdSet(Parse(ann).value) * w.held == IdsAt(w.memo, k)))
  {
    var w2 := Next(cfg, Next(cfg, w, CreateGroup(k, fluenceCreated, ann)), DeletePodGroup(k));
    var w3 := w2.(events := w2.events - multiset{GroupGone(k, ann)});
    assert Exact(w3);
    CancelKeepsExactIff(w3, k, ann);
  }

  /** Matching a group keeps the memo exact whatever the annotations say. */
  lemma SubmitKeepsExact(w: World, g: Key, r: JobspecsResult, answers: seq<Answer>)
    requires Exact(w) && w.held <= w.used && g !in w.memo && r.Specs?
    requires SchedulerModel.MatchGroup(|r.specs|, answers).Matched? ==>
               var ids := SchedulerModel.MatchGroup(|r.specs|, answers).alloc.jobids; Distinct(ids) && IdSet(ids) !! w.used
    ensures Exact(Submit(w, g, r, answers))
  {
    if SchedulerModel.MatchGroup(|r.specs|, answers).Matched? {
      var alloc := SchedulerModel.MatchGroup(|r.specs|, answers).alloc;
      MemoWith(w.memo, g, alloc);
      forall j | j in w.memo ensures IdSet(w.memo[j].jobids) !! IdSet(alloc.jobids) {
        assert forall x :: x in w.memo[j].jobids ==> x in MemoIds(w.memo);
      }
    }
  }

  lemma MatchedExact(cfg: Config, w: World, k: Key, listing: seq<Key>, answers: seq<Answer>)
    requires Exact(w) && w.held <= w.used && Possible(cfg, w, RunPreFilter(k, listing, answers))
    ensures Exact(PreFilter(cfg, w, k, listing, answers))
  {
    var g := GroupKey(k, w.pods[k]);
    var r := SpecsFor(cfg, w, k, listing);
    if g !in w.memo && r.Specs? {
      ComputeSelects(g.ns + "/" + g.name, GroupPods(w.pods, listing, k, w.pods[k]), cfg.knownDevices,
                     Sorted(ExcludedFor(w.excluded, g)), Vertex("", []));
      if SchedulerModel.MatchGroup(|r.specs|, answers).Matched? {
        MatchedIds(cfg, r.specs, answers, w.used);
      }
      SubmitKeepsExact(w, g, r, answers);
    }
  }

  /**
   * An annotation that names no held id is no better: once the pod is matched, its loss
   * before PreBind keeps the memo exact exactly when the annotation happens to name the
   * ids just issued, and otherwise orphans them.
   */
  lemma ForgedAnnotationOrphansIff(cfg: Config, w: World, k: Key, listing: seq<Key>, answers: seq<Answer>, old_: bool)
    requires Exact(w) && w.held <= w.used && Possible(cfg, w, RunPreFilter(k, listing, answers))
    requires w.pods[k].group == "" && Parse(w.pods[k].jobAnn).Some?
    ensures var w1 := PreFilter(cfg, w, k, listing, answers);
            var torn := CancelGroup(w1, k, w.pods[k].jobAnn);
            Exact(torn) <==> IdSet(Parse(w.pods[k].jobAnn).value) * w1.held == IdsAt(w1.memo, k)
  {
    MatchedExact(cfg, w, k, listing, answers);
    CancelKeepsExactIff(PreFilter(cfg, w, k, listing, answers), k, w.pods[k].jobAnn);
  }

  // ---- every remembered group has an owner ----

  /** An object owns k's allocation and its end will be reported, or its end is on its way. */
  ghost predicate Owned(w: World, k: Key) {
    || k in w.groups
    || (k in w.pods && w.pods[k].group == "" && !w.pods[k].terminal)
    || Pending(w, k)
  }

  ghost predicate AllOwned(w: World) {
    forall k :: k in w.memo ==> Owned(w, k)
  }

  /** A pod is matched for a group whose PodGroup is not there, nor about to be torn down. */
  ghost predicate MatchesUnowned(cfg: Config, w: World, s: Step)
    requires Possible(cfg, w, s)
  {
    s.RunPreFilter? && !Owned(w, GroupKey(s.key, w.pods[s.key])) && GroupKey(s.key, w.pods[s.key]) in Next(cfg, w, s).memo
  }

  lemma DeleteGroupOwned(w: World, g: Key, k: Key)
    requires Owned(w, k)
    ensures Owned(DeleteGroup(w, g), k)
  {
    if g in w.groups {
      var gone := GroupGone(g, w.groups[g].jobAnn);
      assert EventOwner(gone) == Some(g);
      assert forall e :: e in w.events || e == gone ==> e in DeleteGroup(w, g).events;
    }
  }

  lemma ReconcileOwned(w: World, g: Key, old_: bool, k: Key)
    requires Owned(w, k)
    ensures Owned(ReconcileGroup(w, g, old_), k)
  {
    DeleteGroupOwned(w, g, k);
    DeleteGroupOwned(DeleteGroup(w, g), Key(g.ns, g.name + SCOUT_SUFFIX), k);
  }

  lemma LeaveOwned(w: World, k: Key, pods': map<Key, PodObj>, e: Event, j: Key)
    requires Leaves(w, k, pods', e) && Owned(w, j)
    ensures Owned(w.(pods := pods', events := w.events + multiset{e}), j)
  {
    var w' := w.(pods := pods', events := w.events + multiset{e});
    assert e in w'.events && forall f :: f in w.events ==> f in w'.events;
  }

  /** Handling an event leaves every other owner's key owned. */
  lemma DeliverOwned(w: World, e: Event, old_: bool, k: Key)
    requires e in w.events && Owned(w, k) && EventOwner(e) != Some(k)
    ensures Owned(HandleEvent(w.(events := w.events - multiset{e}), e, old_), k)
  {
    var w0 := w.(events := w.events - multiset{e});
    assert forall f :: f in w.events && f != e ==> f in w0.events;
    assert Owned(w0, k);
    if EventOwner(e).None? {
      ReconcileOwned(w0, Key(e.key.ns, e.group), old_, k);
    } else {
      assert HandleEvent(w0, e, old_) == CancelGroup(w0, e.key, e.jobAnn);
    }
  }

  lemma DeliverAllOwned(w: World, e: Event, old_: bool)
    requires e in w.events && AllOwned(w)
    ensures AllOwned(HandleEvent(w.(events := w.events - multiset{e}), e, old_))
  {
    var w0 := w.(events := w.events - multiset{e});
    forall k | k in HandleEvent(w0, e, old_).memo ensures Owned(HandleEvent(w0, e, old_), k) {
      if EventOwner(e) != Some(k) {
        DeliverFrame(w0, e, old_, k);
        DeliverOwned(w, e, old_, k);
      }
    }
  }

  /** The steps that remember nothing new leave every owned key owned. */
  lemma QuietStepOwned(cfg: Config, w: World, s: Step, k: Key)
    requires Possible(cfg, w, s) && !s.Deliver? && Owned(w, k)
    ensures Owned(Next(cfg, w, s), k)
  {
    match s
    case CreateGroup(j, _, _) => assert Next(cfg, w, s).events == w.events;
    case CreatePod(j, p) => assert Next(cfg, w, s).events == w.events;
    case Ungate(j) => assert Next(cfg, w, s).events == w.events;
    case Complete(j) =>
      LeaveOwned(w, j, w.pods[j := w.pods[j].(terminal := true)], PodCompleted(j, w.pods[j].group, w.pods[j].jobAnn), k);
    case DeletePod(j) => LeaveOwned(w, j, w.pods - {j}, PodGone(j, w.pods[j].group, w.pods[j].jobAnn), k);
    case DeletePodGroup(j) => DeleteGroupOwned(w, j, k);
    case Sweep(j, old_) => ReconcileOwned(w, j, old_, k);
    case RunPreFilter(j, listing, answers) => PreFilterFrame(cfg, w, j, listing, answers);
    case RunPostFilter(j, codes) => assert Next(cfg, w, s).events == w.events;
    case RunPreBind(j) => assert Next(cfg, w, s).events == w.events;
  }

  /** A key that a step begins to remember is that of a pod it matched. */
  lemma NewlyRemembered(cfg: Config, w: World, s: Step, k: Key)
    requires Possible(cfg, w, s) && !s.Deliver? && k in Next(cfg, w, s).memo && k !in w.memo
    ensures s.RunPreFilter? && k == GroupKey(s.key, w.pods[s.key])
  {
    if s.RunPreFilter? {
      PreFilterFrame(cfg, w, s.key, s.listing, s.answers);
    } else if s.Sweep? {
      ReconcileFrame(w, s.key, s.old_);
    }
  }

  /** Whatever the environment does, a step keeps every remembered group owned exactly when it does not match an unowned one. */
  lemma OwnedStepIff(cfg: Config, w: World, s: Step)
    requires Possible(cfg, w, s) && AllOwned(w)
    ensures AllOwned(Next(cfg, w, s)) <==> !MatchesUnowned(cfg, w, s)
  {
    var w' := Next(cfg, w, s);
    if s.Deliver? {
      DeliverAllOwned(w, s.event, s.old_);
    } else if MatchesUnowned(cfg, w, s) {
      PreFilterFrame(cfg, w, s.key, s.listing, s.answers);
      assert !Owned(w', GroupKey(s.key, w.pods[s.key]));
    } else {
      forall k | k in w'.memo ensures Owned(w', k) {
        if k !in w.memo {
          NewlyRemembered(cfg, w, s, k);
        }
        QuietStepOwned(cfg, w, s, k);
      }
    }
  }

  ghost predicate TendedAt(cfg: Config, r: Run, i: nat)
    requires i < |r.steps| <= |r.states|
  {
    Possible(cfg, r.states[i], r.steps[i]) && !MatchesUnowned(cfg, r.states[i], r.steps[i])
  }

  /** The first n steps match no pod whose group nobody owns. */
  ghost predicate Tended(cfg: Config, r: Run, n: nat)
    requires n <= |r.steps| <= |r.states|
  {
    forall i :: 0 <= i < n ==> TendedAt(cfg, r, i)
  }

  lemma OwnedAtIff(cfg: Config, r: Run, i: nat)
    requires IsRun(cfg, r) && i < |r.steps| && AllOwned(r.states[i])
    ensures AllOwned(r.states[i + 1]) <==> TendedAt(cfg, r, i)
  {
    assert IsStep(cfg, r, i);
    OwnedStepIff(cfg, r.states[i], r.steps[i]);
  }

  /** So in a run every remembered group has an owner all along exactly when no unowned one is ever matched. */
  lemma {:induction false} OwnedRunIff(cfg: Config, r: Run, n: nat)
    requires IsRun(cfg, r) && r.states[0] == START && n < |r.states|
    ensures Tended(cfg, r, n) <==> forall i :: 0 <= i <= n ==> AllOwned(r.states[i])
  {
    if n > 0 {
      OwnedRunIff(cfg, r, n - 1);
      assert Tended(cfg, r, n) <==> Tended(cfg, r, n - 1) && TendedAt(cfg, r, n - 1);
      if AllOwned(r.states[n - 1]) {
        OwnedAtIff(cfg, r, n - 1);
      }
    }
  }

  /**
   * In such a run nothing leaks: once the PodGroups are gone, the ungrouped pods gone or
   * finished, and their events handled, Fluxion holds no id.
   */
  lemma NothingLeaks(cfg: Config, r: Run, n: nat)
    requires IsRun(cfg, r) && r.states[0] == START && n < |r.states| && Tended(cfg, r, n)
    requires forall k :: !Owned(r.states[n], k)
    ensures r.states[n].held == {}
  {
    OwnedRunIff(cfg, r, n);
    HeldIsMemo(cfg, r, n);
    assert AllOwned(r.states[n]);
  }

  /** No object or event has the name, so that nothing reports the end of its allocation. */
  ghost predicate Abandoned(w: World, g: Key) {
    && g !in w.groups && !Pending(w, g)
    && forall k :: k in w.pods ==> GroupKey(k, w.pods[k]) != g
  }

  predicate Renames(s: Step, g: Key) {
    || (s.CreateGroup? && s.key == g)
    || (s.CreatePod? && GroupKey(s.key, s.pod) == g)
  }

  lemma DeleteGroupAbandons(w: World, h: Key, g: Key)
    requires Abandoned(w, g)
    ensures Abandoned(DeleteGroup(w, h), g)
  {
    var w' := DeleteGroup(w, h);
    assert forall e :: e in w'.events ==> e in w.events || (h in w.groups && e == GroupGone(h, w.groups[h].jobAnn));
  }

  lemma ReconcileAbandons(w: World, h: Key, old_: bool, g: Key)
    requires Abandoned(w, g)
    ensures Abandoned(ReconcileGroup(w, h, old_), g)
  {
    DeleteGroupAbandons(w, h, g);
    DeleteGroupAbandons(DeleteGroup(w, h), Key(h.ns, h.name + SCOUT_SUFFIX), g);
  }

  lemma DeliverAbandons(w: World, e: Event, old_: bool, g: Key)
    requires e in w.events && Abandoned(w, g)
    ensures var w' := HandleEvent(w.(events := w.events - multiset{e}), e, old_);
            Abandoned(w', g) && (g in w.memo ==> g in w'.memo && w'.memo[g] == w.memo[g])
  {
    var w0 := w.(events := w.events - multiset{e});
    assert forall f :: f in w0.events ==> f in w.events;
    assert Abandoned(w0, g) && EventOwner(e) != Some(g);
    DeliverFrame(w0, e, old_, g);
    if EventOwner(e).None? {
      ReconcileAbandons(w0, Key(e.key.ns, e.group), old_, g);
    }
  }

  lemma LeaveAbandons(w: World, k: Key, pods': map<Key, PodObj>, e: Event, g: Key)
    requires Leaves(w, k, pods', e) && Abandoned(w, g)
    ensures Abandoned(w.(pods := pods', events := w.events + multiset{e}), g)
  {
    var w' := w.(pods := pods', events := w.events + multiset{e});
    assert GroupKey(k, w.pods[k]) != g;
    assert forall f :: f in w'.events ==> f in w.events || f == e;
  }

  /** Until something of the name is created again, no step touches what is remembered for it. */
  lemma AbandonedStep(cfg: Config, w: World, s: Step, g: Key)
    requires Possible(cfg, w, s) && Abandoned(w, g) && g in w.memo && !Renames(s, g)
    ensures var w' := Next(cfg, w, s); Abandoned(w', g) && g in w'.memo && w'.memo[g] == w.memo[g]
  {
    match s
    case CreateGroup(k, _, _) => assert Next(cfg, w, s).events == w.events;
    case CreatePod(k, p) => assert Next(cfg, w, s).events == w.events;
    case Ungate(k) => assert Next(cfg, w, s).events == w.events;
    case Complete(k) =>
      LeaveAbandons(w, k, w.pods[k := w.pods[k].(terminal := true)], PodCompleted(k, w.pods[k].group, w.pods[k].jobAnn), g);
    case DeletePod(k) => LeaveAbandons(w, k, w.pods - {k}, PodGone(k, w.pods[k].group, w.pods[k].jobAnn), g);
    case DeletePodGroup(k) => DeleteGroupAbandons(w, k, g);
    case Deliver(e, old_) => DeliverAbandons(w, e, old_, g);
    case Sweep(k, old_) =>
      ReconcileAbandons(w, k, old_, g);
      ReconcileFrame(w, k, old_);
    case RunPreFilter(k, listing, answers) => PreFilterFrame(cfg, w, k, listing, answers);
    case RunPostFilter(k, codes) => assert Next(cfg, w, s).events == w.events;
    case RunPreBind(k) => assert Next(cfg, w, s).events == w.events;
  }

  lemma {:induction false} AbandonedRun(cfg: Config, r: Run, g: Key, m: nat, n: nat)
    requires IsRun(cfg, r) && m <= n < |r.states| && Abandoned(r.states[m], g) && g in r.states[m].memo
    requires forall i :: m <= i < n ==> !Renames(r.steps[i], g)
    ensures Abandoned(r.states[n], g) && g in r.states[n].memo && r.states[n].memo[g] == r.states[m].memo[g]
  {
    if m < n {
      AbandonedRun(cfg, r, g, m, n - 1);
      assert IsStep(cfg, r, n - 1);
      AbandonedStep(cfg, r.states[n - 1], r.steps[n - 1], g);
    }
  }

  /**
   * What is remembered for a name that no object has leaks: its ids stay held until an
   * object of that name is created again, whatever else is deleted, handled or swept.
   */
  lemma AbandonedStaysHeld(cfg: Config, r: Run, g: Key, m: nat, n: nat)
    requires IsRun(cfg, r) && r.states[0] == START && m <= n < |r.states|
    requires Abandoned(r.states[m], g) && g in r.states[m].memo
    requires forall i :: m <= i < n ==> !Renames(r.steps[i], g)
    ensures IdSet(r.states[m].memo[g].jobids) != {} && IdSet(r.states[m].memo[g].jobids) <= r.states[n].held
  {
    AbandonedRun(cfg, r, g, m, n);
    InvAt(cfg, r, n);
    assert r.states[n].memo[g].jobids[0] in IdSet(r.states[n].memo[g].jobids);
    assert forall x :: x in r.states[n].memo[g].jobids ==> x in MemoIds(r.states[n].memo);
  }

  // ---- a deletion handled while its group is being matched ----

  /**
   * Matching and remembering are one step here, but the plugin drops its lock between
   * them. A PodGroup deleted and torn down in that window finds nothing to cancel, and
   * the ids are then remembered for a group nobody owns and no pending event frees.
   */
  lemma DeletionDuringMatchLeaks(w: World, g: Key, alloc: GroupAlloc, used: set<JobId>)
    requires Inv(w) && g in w.groups && g !in w.memo && Parse(w.groups[g].jobAnn).None? && alloc.jobids != []
    ensures var submitted := w.(held := w.held + IdSet(alloc.jobids), used := used);
            var deleted := DeleteGroup(submitted, g);
            var gone := GroupGone(g, w.groups[g].jobAnn);
            && gone in deleted.events
            && var torn := HandleEvent(deleted.(events := deleted.events - multiset{gone}), gone, false);
               var late := torn.(memo := torn.memo[g := alloc]);
               && torn.held == submitted.held && IdSet(alloc.jobids) <= late.held
               && g in late.memo && !Owned(late, g)
  {
    assert GroupNamed(w, g) && !PodName(w, g) && !Pending(w, g);
    var gone := GroupGone(g, w.groups[g].jobAnn);
    assert EventOwner(gone) == Some(g);
    assert gone !in w.events;
    assert w.events + multiset{gone} - multiset{gone} == w.events;
  }

  // ---- a live gang keeps its allocation ----

  lemma LiveRecord(w: World, g: Key)
    requires Inv(w) && g in w.groups && Parse(w.groups[g].jobAnn).Some?
    ensures Recorded(w, g) && !Pending(w, g) && g in w.memo && w.memo[g].jobids != [] && Uint64s(w.memo[g].jobids)
    ensures IdSet(Parse(w.groups[g].jobAnn).value) == IdSet(w.memo[g].jobids) <= w.held
  {
    var ann := w.groups[g].jobAnn;
    assert OwnsLive(w, g, ann) && Matches(w, g, ann);
    assert Owns(w, g, ann);
    assert forall x :: x in w.memo[g].jobids ==> x in MemoIds(w.memo);
  }

  /** The group is recorded and its allocation is the one given. */
  ghost predicate HoldsFor(w: World, g: Key, alloc: GroupAlloc) {
    g in w.groups && Parse(w.groups[g].jobAnn).Some? && g in w.memo && w.memo[g] == alloc
  }

  lemma LiveGangStep(cfg: Config, w: World, s: Step, g: Key, alloc: GroupAlloc)
    requires Possible(cfg, w, s) && Assumed(w, s) && HoldsFor(w, g, alloc)
    requires Recorded(w, g) && !Pending(w, g) && alloc.jobids != [] && Uint64s(alloc.jobids)
    requires LiveMember(w.pods, g) && s != DeletePodGroup(g) && !HasScoutSuffix(g.name)
    ensures HoldsFor(Next(cfg, w, s), g, alloc)
  {
    match s
    case CreateGroup(k, _, _) =>
    case CreatePod(k, p) =>
    case Ungate(k) =>
    case Complete(k) =>
    case DeletePod(k) =>
    case DeletePodGroup(k) =>
    case Deliver(e, old_) =>
      var w0 := w.(events := w.events - multiset{e});
      DeliverFrame(w0, e, old_, g);
      if EventOwner(e).None? {
        ReconcileSparesLive(w0, g, Key(e.key.ns, e.group), old_);
      }
    case Sweep(k, old_) => ReconcileSparesLive(w, g, k, old_);
    case RunPreFilter(k, listing, answers) => PreFilterFrame(cfg, w, k, listing, answers);
    case RunPostFilter(k, codes) => assert OwnsLive(w, g, w.groups[g].jobAnn);
    case RunPreBind(k) => ParseFormat(alloc.jobids);
  }

  lemma ReapSpares(w: World, g: Key, k: Key)
    requires g in w.groups && g != k && !HasScoutSuffix(g.name)
    ensures var w' := Reap(w, k); g in w'.groups && w'.groups[g] == w.groups[g] && w'.memo == w.memo
  {
    ScoutNamed(k.name);
    if !HasScoutSuffix(k.name) {
      var scout := Key(k.ns, k.name + SCOUT_SUFFIX);
      DeleteSpares(DeleteGroup(w, k), g, scout);
    }
    DeleteSpares(w, g, k);
  }

  lemma ScoutNamed(name: string)
    ensures HasScoutSuffix(name + SCOUT_SUFFIX)
  {
    var scout := name + SCOUT_SUFFIX;
    assert scout[|scout| - |SCOUT_SUFFIX|..] == SCOUT_SUFFIX;
  }

  lemma DeleteSpares(w: World, g: Key, k: Key)
    requires g != k
    ensures var w' := DeleteGroup(w, k);
            w'.memo == w.memo && (g in w.groups ==> g in w'.groups && w'.groups[g] == w.groups[g])
  {
  }

  lemma ReconcileSparesLive(w: World, g: Key, k: Key, old_: bool)
    requires g in w.groups && LiveMember(w.pods, g) && !HasScoutSuffix(g.name)
    ensures var w' := ReconcileGroup(w, k, old_); g in w'.groups && w'.groups[g] == w.groups[g] && w'.memo == w.memo
  {
    if g != k {
      ReapSpares(w, g, k);
    }
  }

  lemma {:induction false} LiveGangRun(cfg: Config, r: Run, g: Key, alloc: GroupAlloc, m: nat, n: nat)
    requires IsRun(cfg, r) && r.states[0] == START && m <= n < |r.states|
    requires HoldsFor(r.states[m], g, alloc) && !HasScoutSuffix(g.name)
    requires forall i :: m <= i < n ==> r.steps[i] != DeletePodGroup(g) && LiveMember(r.states[i].pods, g)
    ensures HoldsFor(r.states[n], g, alloc)
  {
    if m < n {
      LiveGangRun(cfg, r, g, alloc, m, n - 1);
      InvAt(cfg, r, n - 1);
      assert r.steps[n - 1] != DeletePodGroup(g) && LiveMember(r.states[n - 1].pods, g);
      LiveGangNext(cfg, r, g, alloc, n - 1);
    }
  }

  lemma LiveGangNext(cfg: Config, r: Run, g: Key, alloc: GroupAlloc, i: nat)
    requires IsRun(cfg, r) && i < |r.steps| && Inv(r.states[i]) && HoldsFor(r.states[i], g, alloc) && !HasScoutSuffix(g.name)
    requires r.steps[i] != DeletePodGroup(g) && LiveMember(r.states[i].pods, g)
    ensures HoldsFor(r.states[i + 1], g, alloc)
  {
    LiveRecord(r.states[i], g);
    assert IsStep(cfg, r, i);
    LiveGangStep(cfg, r.states[i], r.steps[i], g, alloc);
  }

  lemma InvAt(cfg: Config, r: Run, n: nat)
    requires IsRun(cfg, r) && r.states[0] == START && n < |r.states|
    ensures Inv(r.states[n])
  {
    assert Inv(START);
    RunKeeps(cfg, r, n);
  }

  /**
   * While a gang has a live member, and nobody outside deletes its PodGroup, the
   * allocation recorded for it stays held whatever else the run does.
   */
  lemma LiveGangKeepsJobids(cfg: Config, r: Run, g: Key, m: nat, n: nat)
    requires IsRun(cfg, r) && r.states[0] == START && m <= n < |r.states|
    requires g in r.states[m].groups && Parse(r.states[m].groups[g].jobAnn).Some? && !HasScoutSuffix(g.name)
    requires forall i :: m <= i < n ==> r.steps[i] != DeletePodGroup(g) && LiveMember(r.states[i].pods, g)
    ensures IdSet(Parse(r.states[m].groups[g].jobAnn).value) <= r.states[n].held
    ensures g in r.states[m].memo && g in r.states[n].memo && r.states[n].memo[g] == r.states[m].memo[g]
    ensures g in r.states[n].groups && Parse(r.states[n].groups[g].jobAnn).Some?
    ensures IdSet(Parse(r.states[n].groups[g].jobAnn).value) == IdSet(Parse(r.states[m].groups[g].jobAnn).value)
  {
    InvAt(cfg, r, m);
    LiveRecord(r.states[m], g);
    LiveGangRun(cfg, r, g, r.states[m].memo[g], m, n);
    InvAt(cfg, r, n);
    LiveRecord(r.states[n], g);
  }

  // ---- exclusion is finite ----

  /** A group's remembered nodes are nodes of the graph it has not been kept off. */
  ghost predicate SteeredAt(cfg: Config, w: World, k: Key) {
    && ExcludedFor(w.excluded, k) <= cfg.universe
    && (k in w.memo ==> forall n :: n in w.memo[k].place.nodes ==> n in cfg.universe && n !in ExcludedFor(w.excluded, k))
  }

  ghost predicate Steered(cfg: Config, w: World) {
    forall k :: SteeredAt(cfg, w, k)
  }

  lemma {:induction false} CombinedNodes(answers: seq<Answer>, n: nat, name: string) returns (i: nat)
    requires forall j :: 0 <= j < n ==> !Fails(At(answers, j))
    requires name in Combined(answers, n).nodes
    ensures i < n && name in Classified(At(answers, i).allocation.value).nodes
  {
    assert !Fails(At(answers, n - 1));
    if name in Combined(answers, n - 1).nodes {
      i := CombinedNodes(answers, n - 1, name);
    } else {
      i := n - 1;
    }
  }

  lemma MatchedNodes(cfg: Config, w: World, k: Key, listing: seq<Key>, answers: seq<Answer>, name: string)
    requires Possible(cfg, w, RunPreFilter(k, listing, answers)) && SpecsFor(cfg, w, k, listing).Specs?
    requires var r := SchedulerModel.MatchGroup(|SpecsFor(cfg, w, k, listing).specs|, answers);
             r.Matched? && name in r.alloc.place.nodes
    ensures name in cfg.universe && name !in ExcludedFor(w.excluded, GroupKey(k, w.pods[k]))
  {
    var g := GroupKey(k, w.pods[k]);
    var pods, excluded := GroupPods(w.pods, listing, k, w.pods[k]), Sorted(ExcludedFor(w.excluded, g));
    var specs := SpecsFor(cfg, w, k, listing).specs;
    var i := CombinedNodes(answers, |specs|, name);
    var nodes := At(answers, i).allocation.value;
    ClassifiedNodes(nodes);
    var j :| 0 <= j < |nodes| && VIRTUAL_TRUE !in nodes[j].properties && nodes[j].name == name;
    assert Eligible(cfg, specs[i], nodes) && nodes[j] in nodes;
    if i == 0 {
      ComputeSelects(g.ns + "/" + g.name, pods, cfg.knownDevices, excluded, nodes[j]);
    } else {
      DeviceSelects(g.ns + "/" + g.name, pods, cfg.knownDevices, excluded, i, nodes[j]);
      assert false;
    }
  }

  lemma SteeredStep(cfg: Config, w: World, s: Step)
    requires Steered(cfg, w) && Possible(cfg, w, s)
    ensures Steered(cfg, Next(cfg, w, s))
  {
    if s.RunPreFilter? {
      PreFilterSteered(cfg, w, s.key, s.listing, s.answers);
    } else if s.Deliver? {
      var w0 := w.(events := w.events - multiset{s.event});
      forall k ensures SteeredAt(cfg, w0, k) {
        assert SteeredAt(cfg, w, k);
      }
      DeliverSteered(cfg, w0, s.event, s.old_);
    } else if s.RunPostFilter? {
      PostFilterSteered(cfg, w, GroupKey(s.key, w.pods[s.key]), s.codes);
    } else {
      var w' := Next(cfg, w, s);
      if s.Sweep? {
        ReconcileFrame(w, s.key, s.old_);
      }
      assert w'.memo == w.memo && w'.excluded == w.excluded;
      forall k ensures SteeredAt(cfg, w', k) {
        assert SteeredAt(cfg, w, k);
      }
    }
  }

  lemma DeliverSteered(cfg: Config, w: World, e: Event, old_: bool)
    requires Steered(cfg, w)
    ensures Steered(cfg, HandleEvent(w, e, old_))
  {
    forall k ensures SteeredAt(cfg, HandleEvent(w, e, old_), k) {
      assert SteeredAt(cfg, w, k);
      if EventOwner(e) != Some(k) {
        DeliverFrame(w, e, old_, k);
      }
    }
  }

  lemma PostFilterSteered(cfg: Config, w: World, g: Key, codes: map<string, Code>)
    requires Steered(cfg, w)
    ensures Steered(cfg, PostFilter(w, g, codes))
  {
    forall k ensures SteeredAt(cfg, PostFilter(w, g, codes), k) {
      assert SteeredAt(cfg, w, k);
    }
  }

  lemma PreFilterSteered(cfg: Config, w: World, k: Key, listing: seq<Key>, answers: seq<Answer>)
    requires Steered(cfg, w) && Possible(cfg, w, RunPreFilter(k, listing, answers))
    ensures Steered(cfg, PreFilter(cfg, w, k, listing, answers))
  {
    var g := GroupKey(k, w.pods[k]);
    var r := SpecsFor(cfg, w, k, listing);
    if g !in w.memo && r.Specs? {
      if SchedulerModel.MatchGroup(|r.specs|, answers).Matched? {
        forall n | n in SchedulerModel.MatchGroup(|r.specs|, answers).alloc.place.nodes
          ensures n in cfg.universe && n !in ExcludedFor(w.excluded, g)
        {
          MatchedNodes(cfg, w, k, listing, answers, n);
        }
      }
      SubmitSteered(cfg, w, g, r, answers);
    }
  }

  lemma SubmitSteered(cfg: Config, w: World, g: Key, r: JobspecsResult, answers: seq<Answer>)
    requires Steered(cfg, w) && r.Specs?
    requires SchedulerModel.MatchGroup(|r.specs|, answers).Matched? ==>
               forall n :: n in SchedulerModel.MatchGroup(|r.specs|, answers).alloc.place.nodes ==>
                 n in cfg.universe && n !in ExcludedFor(w.excluded, g)
    ensures Steered(cfg, Submit(w, g, r, answers))
  {
    forall k ensures SteeredAt(cfg, Submit(w, g, r, answers), k) {
      assert SteeredAt(cfg, w, k);
    }
  }

  lemma {:induction false} RunSteered(cfg: Config, r: Run, n: nat)
    requires IsRun(cfg, r) && r.states[0] == START && n < |r.states|
    ensures Steered(cfg, r.states[n])
  {
    if n > 0 {
      RunSteered(cfg, r, n - 1);
      assert IsStep(cfg, r, n - 1);
      SteeredStep(cfg, r.states[n - 1], r.steps[n - 1]);
    }
  }

  /** The nodes a step newly keeps the group off: PostFilter found each incompatible. */
  function Banned(w: World, s: Step, g: Key): set<string> {
    if s.RunPostFilter? && s.key in w.pods && GroupKey(s.key, w.pods[s.key]) == g && g in w.memo
    then NewlyExcluded(w.memo[g], s.codes) else {}
  }

  ghost predicate TearsDown(w: World, s: Step, g: Key) {
    s.Deliver? && EventOwner(s.event) == Some(g)
  }

  function Excluded(r: Run, g: Key, i: nat): set<string>
    requires i < |r.states|
  {
    ExcludedFor(r.states[i].excluded, g)
  }

  function BannedAt(r: Run, g: Key, i: nat): set<string>
    requires i < |r.steps| <= |r.states|
  {
    Banned(r.states[i], r.steps[i], g)
  }

  /** How often in steps m to n the group was abandoned over an incompatible node. */
  function Abandonments(r: Run, g: Key, m: nat, n: nat): nat
    requires m <= n <= |r.steps| <= |r.states|
    decreases n - m
  {
    if m == n then 0 else Abandonments(r, g, m, n - 1) + if BannedAt(r, g, n - 1) != {} then 1 else 0
  }

  /** Only nodes found incompatible are added, and each was eligible until then. */
  lemma ExclusionStep(cfg: Config, w: World, s: Step, g: Key)
    requires Steered(cfg, w) && Possible(cfg, w, s) && !TearsDown(w, s, g)
    ensures ExcludedFor(Next(cfg, w, s).excluded, g) == ExcludedFor(w.excluded, g) + Banned(w, s, g)
    ensures Banned(w, s, g) !! ExcludedFor(w.excluded, g)
  {
    assert SteeredAt(cfg, w, g);
    match s
    case CreateGroup(k, _, _) =>
    case CreatePod(k, p) =>
    case Ungate(k) =>
    case Complete(k) =>
    case DeletePod(k) =>
    case DeletePodGroup(k) =>
    case Deliver(e, old_) => DeliverFrame(w.(events := w.events - multiset{e}), e, old_, g);
    case Sweep(k, old_) => ReconcileFrame(w, k, old_);
    case RunPreFilter(k, listing, answers) => PreFilterFrame(cfg, w, k, listing, answers);
    case RunPostFilter(k, codes) =>
    case RunPreBind(k) =>
  }

  lemma ExclusionAt(cfg: Config, r: Run, g: Key, i: nat)
    requires IsRun(cfg, r) && r.states[0] == START && i < |r.steps| && !TearsDown(r.states[i], r.steps[i], g)
    ensures Excluded(r, g, i + 1) == Excluded(r, g, i) + BannedAt(r, g, i) && BannedAt(r, g, i) !! Excluded(r, g, i)
  {
    RunSteered(cfg, r, i);
    assert IsStep(cfg, r, i);
    ExclusionStep(cfg, r.states[i], r.steps[i], g);
  }

  /** All the nodes banned in steps m to n. */
  function BannedIn(r: Run, g: Key, m: nat, n: nat): set<string>
    requires m <= n <= |r.steps| <= |r.states|
    decreases n - m
  {
    if m == n then {} else BannedIn(r, g, m, n - 1) + BannedAt(r, g, n - 1)
  }

  /**
   * Between teardowns a group's exclusions are what they were plus the nodes PostFilter
   * found incompatible, a busy node never among them, and every abandonment over such
   * a node takes at least one more.
   */
  lemma ExclusionGrows(cfg: Config, r: Run, g: Key, m: nat, n: nat)
    requires IsRun(cfg, r) && r.states[0] == START && m <= n < |r.states|
    requires forall i :: m <= i < n ==> !TearsDown(r.states[i], r.steps[i], g)
    ensures Excluded(r, g, n) == Excluded(r, g, m) + BannedIn(r, g, m, n)
    ensures |Excluded(r, g, m)| + Abandonments(r, g, m, n) <= |Excluded(r, g, n)|
  {
    forall i | m <= i < n ensures GrowsAt(r, g, i) {
      ExclusionAt(cfg, r, g, i);
    }
    GrowthAddsUp(r, g, m, n);
  }

  ghost predicate GrowsAt(r: Run, g: Key, i: nat)
    requires i < |r.steps| && |r.states| == |r.steps| + 1
  {
    Excluded(r, g, i + 1) == Excluded(r, g, i) + BannedAt(r, g, i) && BannedAt(r, g, i) !! Excluded(r, g, i)
  }

  lemma GrowthOnce(start: set<string>, added: set<string>, now: set<string>, more: set<string>, next: set<string>)
    requires now == start + added && next == now + more && more !! now
    ensures next == start + (added + more)
    ensures |now| + (if more != {} then 1 else 0) <= |next|
  {
    UnionSize(now, more);
  }

  lemma {:induction false} GrowthAddsUp(r: Run, g: Key, m: nat, n: nat)
    requires |r.states| == |r.steps| + 1 && m <= n < |r.states|
    requires forall i :: m <= i < n ==> GrowsAt(r, g, i)
    ensures Excluded(r, g, n) == Excluded(r, g, m) + BannedIn(r, g, m, n)
    ensures |Excluded(r, g, m)| + Abandonments(r, g, m, n) <= |Excluded(r, g, n)|
    decreases n - m
  {
    if m < n {
      GrowthAddsUp(r, g, m, n - 1);
      assert GrowsAt(r, g, n - 1);
      GrowthOnce(Excluded(r, g, m), BannedIn(r, g, m, n - 1), Excluded(r, g, n - 1), BannedAt(r, g, n - 1), Excluded(r, g, n));
    }
  }

  /** So a group is abandoned over incompatible nodes at most once for each node it was not yet kept off. */
  lemma ExclusionIsFinite(cfg: Config, r: Run, g: Key, m: nat, n: nat)
    requires IsRun(cfg, r) && r.states[0] == START && m <= n < |r.states|
    requires forall i :: m <= i < n ==> !TearsDown(r.states[i], r.steps[i], g)
    ensures Abandonments(r, g, m, n) <= |cfg.universe - Excluded(r, g, m)|
  {
    ExclusionGrows(cfg, r, g, m, n);
    RunSteered(cfg, r, n);
    RunSteered(cfg, r, m);
    assert SteeredAt(cfg, r.states[m], g) && SteeredAt(cfg, r.states[n], g);
    Sums.SubsetSize(Excluded(r, g, n), cfg.universe);
    UnionSize(Excluded(r, g, m), cfg.universe - Excluded(r, g, m));
    assert cfg.universe == Excluded(r, g, m) + (cfg.universe - Excluded(r, g, m));
  }

  lemma UnionSize(a: set<string>, b: set<string>)
    requires a !! b
    ensures |a + b| == |a| + |b| && (b != {} ==> |b| >= 1)
  {
  }
}
