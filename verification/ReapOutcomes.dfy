/** When a gang is over: exactly which groups a reconcile deletes, and that their ids are then freed. */
module ReapOutcomes {
  import opened JobIds
  import opened SchedulerModel
  import opened SchedulerRuns

  /** A pod of the group, by its scheduling group or, not linked yet, by its label. */
  predicate BelongsTo(pods: map<Key, PodObj>, k: Key, g: Key) {
    k in pods && k.ns == g.ns && (pods[k].group == g.name || pods[k].groupLabel == g.name)
  }

  /** Fluence made the group, none of its pods goes on, and it had its turn: it has pods, or had ids, or is old. */
  ghost predicate Over(w: World, g: Key, old_: bool) {
    && g.name != "" && g in w.groups && w.groups[g].fluenceCreated
    && (forall k :: BelongsTo(w.pods, k, g) ==> w.pods[k].terminal)
    && ((exists k :: BelongsTo(w.pods, k, g)) || Parse(w.groups[g].jobAnn).Some? || old_)
  }

  /** The group of the gang's scout, unless the group is a scout's itself. */
  ghost predicate ScoutGroupOf(s: Key, g: Key) {
    s == Key(g.ns, g.name + "-scout") && forall gang :: g.name != gang + "-scout"
  }

  ghost predicate Goes(w: World, k: Key, g: Key) {
    k in w.groups && (k == g || ScoutGroupOf(k, g))
  }

  lemma SuffixMeans(name: string)
    ensures HasScoutSuffix(name) <==> exists gang :: name == gang + "-scout"
  {
    if HasScoutSuffix(name) {
      assert name == name[..|name| - |"-scout"|] + "-scout";
    }
    forall gang | name == gang + "-scout" ensures HasScoutSuffix(name) {
      assert name[|name| - |"-scout"|..] == "-scout";
    }
  }

  lemma OverIsReapable(w: World, g: Key, old_: bool)
    ensures g.name != "" && Reapable(w, g, old_) <==> Over(w, g, old_)
  {
    assert forall k :: BelongsTo(w.pods, k, g) <==> k in w.pods && Member(k, w.pods[k], g);
  }

  /**
   * What a reconcile does, whole: when the gang is over it deletes the group, and the
   * scout's group if there is one, and their deletions are reported; otherwise nothing.
   */
  lemma ReconcileDoes(w: World, g: Key, old_: bool)
    ensures var w' := ReconcileGroup(w, g, old_);
            && (!Over(w, g, old_) ==> w' == w)
            && (Over(w, g, old_) ==>
                  && w' == w.(groups := w'.groups, events := w'.events)
                  && (forall k :: k in w'.groups <==> k in w.groups && !Goes(w, k, g))
                  && (forall k :: k in w'.groups ==> w'.groups[k] == w.groups[k])
                  && forall e :: w'.events[e] == w.events[e] + if e.GroupGone? && Goes(w, e.key, g) && e.jobAnn == w.groups[e.key].jobAnn then 1 else 0)
  {
    OverIsReapable(w, g, old_);
    SuffixMeans(g.name);
    if Over(w, g, old_) {
      assert g != Key(g.ns, g.name + "-scout") by {
        assert |g.name + "-scout"| > |g.name|;
      }
      ReapDoes(w, g);
    }
  }

  lemma ReapDoes(w: World, g: Key)
    requires g in w.groups && g != Key(g.ns, g.name + "-scout")
    requires HasScoutSuffix(g.name) <==> exists gang :: g.name == gang + "-scout"
    ensures var w' := Reap(w, g);
            && w' == w.(groups := w'.groups, events := w'.events)
            && (forall k :: k in w'.groups <==> k in w.groups && !Goes(w, k, g))
            && (forall k :: k in w'.groups ==> w'.groups[k] == w.groups[k])
            && forall e :: w'.events[e] == w.events[e] + if e.GroupGone? && Goes(w, e.key, g) && e.jobAnn == w.groups[e.key].jobAnn then 1 else 0
  {
    var s := Key(g.ns, g.name + "-scout");
    assert forall k :: ScoutGroupOf(k, g) <==> k == s && !HasScoutSuffix(g.name);
    assert forall k :: Goes(w, k, g) <==> k in w.groups && (k == g || (k == s && !HasScoutSuffix(g.name)));
  }

  // ---- the end of a gang ----

  /** Everything of the group is over but pod k. */
  ghost predicate LastLive(w: World, g: Key, k: Key) {
    && k in w.pods && !w.pods[k].terminal && k.ns == g.ns && w.pods[k].group == g.name != ""
    && g in w.groups && w.groups[g].fluenceCreated
    && forall j :: BelongsTo(w.pods, j, g) && j != k ==> w.pods[j].terminal
  }

  /** The last live member ends, its event is handled, then the group's own. */
  function EndOf(w: World, pods': map<Key, PodObj>, e: Event, g: Key, old_: bool): World
    requires g in w.groups
  {
    var ended := w.(pods := pods', events := w.events + multiset{e});
    var reaped := HandleEvent(ended.(events := ended.events - multiset{e}), e, old_);
    var gone := GroupGone(g, w.groups[g].jobAnn);
    HandleEvent(reaped.(events := reaped.events - multiset{gone}), gone, old_)
  }

  lemma EndFrees(w: World, g: Key, k: Key, pods': map<Key, PodObj>, e: Event, old_: bool)
    requires Inv(w) && LastLive(w, g, k) && Leaves(w, k, pods', e)
    requires pods' == w.pods[k := w.pods[k].(terminal := true)] || Parse(w.groups[g].jobAnn).Some?
    ensures var ended := w.(pods := pods', events := w.events + multiset{e});
            var reaped := HandleEvent(ended.(events := ended.events - multiset{e}), e, old_);
            && g !in reaped.groups && GroupGone(g, w.groups[g].jobAnn) in reaped.events
            && var w' := EndOf(w, pods', e, g, old_); g !in w'.memo && w'.held == w.held - IdsAt(w.memo, g)
  {
    var ended := w.(pods := pods', events := w.events + multiset{e});
    var calm := ended.(events := ended.events - multiset{e});
    var gone := GroupGone(g, w.groups[g].jobAnn);
    LeaveKeeps(w, k, pods', e);
    FewerEvents(ended, e);
    assert e.group == g.name && EventOwner(e).None? && Key(e.key.ns, e.group) == g;
    EndIsOver(w, g, k, pods', calm, old_);
    ReconcileDoes(calm, g, old_);
    ReconcileKeeps(calm, g, old_);
    var reaped := ReconcileGroup(calm, g, old_);
    assert Goes(calm, g, g) && reaped.events[gone] > 0;
    TeardownFreesTheGroup(reaped, gone, g, old_);
  }

  lemma EndIsOver(w: World, g: Key, k: Key, pods': map<Key, PodObj>, calm: World, old_: bool)
    requires LastLive(w, g, k) && calm.groups == w.groups && calm.pods == pods'
    requires pods' == w.pods[k := w.pods[k].(terminal := true)] || (pods' == w.pods - {k} && Parse(w.groups[g].jobAnn).Some?)
    ensures Over(calm, g, old_)
  {
    forall j | BelongsTo(calm.pods, j, g) ensures calm.pods[j].terminal {
      if j != k {
        assert BelongsTo(w.pods, j, g);
      }
    }
    if k in pods' {
      assert BelongsTo(calm.pods, k, g);
    }
  }

  /**
   * A gang that finishes gives everything back: when the last live member of a group that
   * Fluence made completes, handling that event deletes the group, and handling the
   * group's deletion takes exactly its ids out of what Fluxion holds.
   */
  lemma FinishedGangFrees(cfg: Config, w: World, g: Key, k: Key, old_: bool)
    requires Inv(w) && LastLive(w, g, k)
    ensures var done := PodCompleted(k, g.name, w.pods[k].jobAnn);
            var gone := GroupGone(g, w.groups[g].jobAnn);
            && Possible(cfg, w, Complete(k))
            && var w1 := Next(cfg, w, Complete(k));
            && Possible(cfg, w1, Deliver(done, old_))
            && var w2 := Next(cfg, w1, Deliver(done, old_));
            && g !in w2.groups && Possible(cfg, w2, Deliver(gone, old_))
            && var w3 := Next(cfg, w2, Deliver(gone, old_));
            && g !in w3.memo && w3.held == w.held - IdsAt(w.memo, g)
  {
    var pods' := w.pods[k := w.pods[k].(terminal := true)];
    EndFrees(w, g, k, pods', PodCompleted(k, g.name, w.pods[k].jobAnn), old_);
  }

  /** So does a recorded gang whose last live member is deleted instead. */
  lemma DeletedGangFrees(cfg: Config, w: World, g: Key, k: Key, old_: bool)
    requires Inv(w) && LastLive(w, g, k) && Parse(w.groups[g].jobAnn).Some?
    ensures var left := PodGone(k, g.name, w.pods[k].jobAnn);
            var gone := GroupGone(g, w.groups[g].jobAnn);
            && Possible(cfg, w, DeletePod(k))
            && var w1 := Next(cfg, w, DeletePod(k));
            && Possible(cfg, w1, Deliver(left, old_))
            && var w2 := Next(cfg, w1, Deliver(left, old_));
            && g !in w2.groups && Possible(cfg, w2, Deliver(gone, old_))
            && var w3 := Next(cfg, w2, Deliver(gone, old_));
            && g !in w3.memo && w3.held == w.held - IdsAt(w.memo, g)
  {
    EndFrees(w, g, k, w.pods - {k}, PodGone(k, g.name, w.pods[k].jobAnn), old_);
  }
}
