/**
 * The volume a scout and its sidecar share, and the sidecar's work on the gang's pods:
 * python/fluence/handoff.py and python/fluence/ungate.py.
 */
module Handoff {
  import opened Vocabulary
  import opened Options
  import opened Text

  /** What the interceptor writes about a task. */
  datatype TaskRecord = TaskRecord(job: string, session: Option<string>)

  /** The three files: task.json, scout-exited and workers-done. */
  datatype Files = Files(record: Option<TaskRecord>, exited: bool, done: bool)

  /** A record without a job id counts as none. */
  function Readable(f: Files): Option<TaskRecord> {
    if f.record.Some? && f.record.value.job != "" then f.record else None
  }

  /** Each write lands whole or, failing softly, not at all. */
  function Published(f: Files, r: TaskRecord, ok: bool): Files {
    if ok then f.(record := Some(r)) else f
  }

  function ExitMarked(f: Files, ok: bool): Files {
    if Readable(f).None? && ok then f.(exited := true) else f
  }

  function DoneMarked(f: Files, ok: bool): Files {
    if ok then f.(done := true) else f
  }

  class Volume {
    var files: Files

    constructor ()
      ensures files == Files(None, false, false)
    {
      files := Files(None, false, false);
    }

    method Publish(r: TaskRecord, writable: bool) returns (ok: bool)
      modifies this
      ensures ok == writable && files == Published(old(files), r, writable)
      ensures files == old(files).(record := if writable then Some(r) else old(files).record)
    {
      if !writable {
        return false;
      }
      files := files.(record := Some(r));
      return true;
    }

    method Read() returns (r: Option<TaskRecord>)
      ensures r == Readable(files)
      ensures r == if files.record.Some? && files.record.value.job != "" then files.record else None
    {
      match files.record {
        case Some(rec) =>
          if rec.job != "" {
            return Some(rec);
          }
        case None =>
      }
      return None;
    }

    /** Writes the marker unless a task was published. */
    method MarkScoutExited(writable: bool) returns (ok: bool)
      modifies this
      ensures files == ExitMarked(old(files), writable) && files == old(files).(exited := files.exited)
      ensures files.exited <==> old(files).exited || (writable && (old(files).record.None? || old(files).record.value.job == ""))
      ensures ok <==> Readable(old(files)).None? && writable
    {
      var r := Read();
      if r.Some? || !writable {
        return false;
      }
      files := files.(exited := true);
      return true;
    }

    method MarkWorkersDone(writable: bool) returns (ok: bool)
      modifies this
      ensures ok == writable && files == DoneMarked(old(files), writable)
      ensures files == old(files).(done := old(files).done || writable)
    {
      if !writable {
        return false;
      }
      files := files.(done := true);
      return true;
    }
  }

  /** A look at the volume that ends the wait. */
  predicate EndsWait(f: Files) {
    Readable(f).Some? || f.exited
  }

  /**
   * Waits for the record, from what each look before the deadline finds. The first look
   * that finds a record or the marker decides, and the record comes first.
   */
  method WaitForRecord(looks: seq<Files>) returns (r: Option<TaskRecord>, last: nat)
    ensures last <= |looks| && forall k :: 0 <= k < last ==> !EndsWait(looks[k])
    ensures last < |looks| ==> EndsWait(looks[last]) && r == Readable(looks[last])
    ensures forall k :: 0 <= k < last ==> !looks[k].exited && !(looks[k].record.Some? && looks[k].record.value.job != "")
    ensures last < |looks| ==> if r.Some? then r == looks[last].record && r.value.job != "" else looks[last].exited
    ensures last == |looks| ==> r == None
  {
    last := 0;
    while last < |looks|
      invariant last <= |looks| && forall k :: 0 <= k < last ==> !EndsWait(looks[k])
    {
      r := Readable(looks[last]);
      if r.Some? || looks[last].exited {
        return;
      }
      last := last + 1;
    }
    r := None;
  }

  // ---- the gang's pods ----

  const JOB_ID := "fluence.flux-framework.org/quantum-job-id"
  const SESSION_ID := "fluence.flux-framework.org/quantum-session-id"

  /** A pod of the gang's group as the API server has it. */
  datatype Worker = Worker(gates: seq<string>, notes: map<string, string>, terminal: bool)

  type Workers = map<string, Worker>

  const BACKEND_NOTE := "fluence.flux-framework.org/backend"
  const ATTRIBUTE_NOTE := "fluence.flux-framework.org/attr-"

  /** The placement as annotations: the backend when there is one, and its attributes. */
  function Placed(backend: string, attributes: map<string, string>): map<string, string> {
    BackendNotes(backend) + AttributeNotes(attributes, attributes.Keys)
  }

  function BackendNotes(backend: string): map<string, string> {
    if backend != "" then map[BACKEND_NOTE := backend] else map[]
  }

  /** The annotations of some of the attributes. */
  function AttributeNotes(attributes: map<string, string>, some: set<string>): map<string, string>
    requires some <= attributes.Keys
  {
    map n | n in (set k | k in some :: ATTRIBUTE_NOTE + k) && n[|ATTRIBUTE_NOTE|..] in attributes :: attributes[n[|ATTRIBUTE_NOTE|..]]
  }

  /** What is stamped: the placement, the job id and the session, each when there is one. */
  function Notes(placed: map<string, string>, job: string, session: Option<string>): map<string, string> {
    placed + (if job != "" then map[JOB_ID := job] else map[])
           + (if session.Some? && session.value != "" then map[SESSION_ID := session.value] else map[])
  }

  function Annotated(ws: Workers, name: string, notes: map<string, string>, ok: bool): Workers {
    if ok && name in ws then ws[name := ws[name].(notes := ws[name].notes + notes)] else ws
  }

  /** The patch removes the first gate, whichever it is; there must be one. */
  predicate Patchable(ws: Workers, name: string) {
    name in ws && ws[name].gates != []
  }

  function Patched(ws: Workers, name: string, ok: bool): Workers {
    if ok && Patchable(ws, name) then ws[name := ws[name].(gates := ws[name].gates[1..])] else ws
  }

  /** Whether the API server takes the annotate, and the patch, of one pod. */
  datatype Luck = Luck(annotate: bool, patch: bool)

  function LuckAt(lucks: seq<Luck>, i: nat): Luck {
    if i < |lucks| then lucks[i] else Luck(false, false)
  }

  function UngateOne(ws: Workers, name: string, notes: map<string, string>, luck: Luck): Workers {
    Patched(Annotated(ws, name, notes, luck.annotate), name, luck.patch)
  }

  function UngateAll(ws: Workers, names: seq<string>, notes: map<string, string>, lucks: seq<Luck>): Workers {
    if names == [] then ws
    else
      var n := |names| - 1;
      var before := UngateAll(ws, names[..n], notes, lucks);
      if TrimSpace(names[n]) == "" then before else UngateOne(before, TrimSpace(names[n]), notes, LuckAt(lucks, n))
  }

  /** How many of the first pods had their patch taken. */
  function UngatedCount(ws: Workers, names: seq<string>, notes: map<string, string>, lucks: seq<Luck>): nat {
    if names == [] then 0
    else
      var n := |names| - 1;
      var before := UngateAll(ws, names[..n], notes, lucks);
      UngatedCount(ws, names[..n], notes, lucks)
      + if TrimSpace(names[n]) != "" && LuckAt(lucks, n).patch && Patchable(before, TrimSpace(names[n])) then 1 else 0
  }

  class GangPods {
    var workers: Workers

    constructor (ws: Workers)
      ensures workers == ws
    {
      workers := ws;
    }

    method Annotate(name: string, notes: map<string, string>, ok: bool) returns (done: bool)
      modifies this
      ensures workers == Annotated(old(workers), name, notes, ok) && (done <==> ok && name in old(workers))
    {
      if !ok || name !in workers {
        return false;
      }
      workers := workers[name := workers[name].(notes := workers[name].notes + notes)];
      return true;
    }

    method RemoveFirstGate(name: string, ok: bool) returns (done: bool)
      modifies this
      ensures workers == Patched(old(workers), name, ok) && (done <==> ok && Patchable(old(workers), name))
    {
      if !ok || name !in workers || |workers[name].gates| == 0 {
        return false;
      }
      workers := workers[name := workers[name].(gates := workers[name].gates[1..])];
      return true;
    }

    /** One pod's annotate, when there is something to stamp, and patch. */
    method UngatePod(name: string, notes: map<string, string>, luck: Luck) returns (removed: bool)
      modifies this
      ensures workers == UngateOne(old(workers), name, notes, luck)
      ensures removed <==> luck.patch && Patchable(old(workers), name)
    {
      if notes != map[] {
        var stamped := Annotate(name, notes, luck.annotate);
      } else {
        NothingToStamp(workers, name, luck.annotate);
      }
      removed := RemoveFirstGate(name, luck.patch);
    }

    method UngatePods(names: seq<string>, backend: string, attributes: map<string, string>, job: string, session: Option<string>, lucks: seq<Luck>)
      returns (ok: nat)
      modifies this
      ensures workers == UngateAll(old(workers), names, Notes(Placed(backend, attributes), job, session), lucks)
      ensures ok == UngatedCount(old(workers), names, Notes(Placed(backend, attributes), job, session), lucks)
    {
      var notes := GatherNotes(backend, attributes, job, session);
      ghost var start := workers;
      ok := 0;
      for i := 0 to |names|
        invariant workers == UngateAll(start, names[..i], notes, lucks)
        invariant ok == UngatedCount(start, names[..i], notes, lucks)
      {
        assert names[..i + 1][..i] == names[..i];
        var name := TrimSpace(names[i]);
        if name == "" {
          continue;
        }
        var removed := UngatePod(name, notes, LuckAt(lucks, i));
        if removed {
          ok := ok + 1;
        }
      }
      assert names[..|names|] == names;
    }
  }

  method AddAttributes(start: map<string, string>, attributes: map<string, string>) returns (notes: map<string, string>)
    ensures notes == start + AttributeNotes(attributes, attributes.Keys)
  {
    notes := start;
    var keys := attributes.Keys;
    assert start + AttributeNotes(attributes, {}) == start;
    while keys != {}
      invariant keys <= attributes.Keys && notes == start + AttributeNotes(attributes, attributes.Keys - keys)
    {
      var key :| key in keys;
      MoreAttributes(start, attributes, attributes.Keys - keys, key);
      assert attributes.Keys - keys + {key} == attributes.Keys - (keys - {key});
      keys := keys - {key};
      notes := notes[ATTRIBUTE_NOTE + key := attributes[key]];
    }
    assert attributes.Keys - {} == attributes.Keys;
  }

  method AddIds(placed: map<string, string>, job: string, session: Option<string>) returns (notes: map<string, string>)
    ensures notes == Notes(placed, job, session)
  {
    notes := placed;
    if job != "" {
      notes := notes + map[JOB_ID := job];
    }
    if session.Some? && session.value != "" {
      notes := notes + map[SESSION_ID := session.value];
    }
  }

  method GatherNotes(backend: string, attributes: map<string, string>, job: string, session: Option<string>)
    returns (notes: map<string, string>)
    ensures notes == Notes(Placed(backend, attributes), job, session)
  {
    notes := AddAttributes(if backend != "" then map[BACKEND_NOTE := backend] else map[], attributes);
    assert notes == Placed(backend, attributes);
    notes := AddIds(notes, job, session);
  }

  lemma MoreAttributes(start: map<string, string>, attributes: map<string, string>, done: set<string>, key: string)
    requires key in attributes && done <= attributes.Keys
    ensures start + AttributeNotes(attributes, done + {key}) ==
            (start + AttributeNotes(attributes, done))[ATTRIBUTE_NOTE + key := attributes[key]]
  {
    assert (ATTRIBUTE_NOTE + key)[|ATTRIBUTE_NOTE|..] == key;
  }

  /**
   * What a pod is stamped with, key by key: the backend and each of its attributes, the
   * task's job and its session, each when there is one, and nothing else.
   */
  lemma NotesAre(backend: string, attributes: map<string, string>, job: string, session: Option<string>)
    ensures var notes := Notes(Placed(backend, attributes), job, session);
            && (backend != "" <==> BACKEND_NOTE in notes) && (backend != "" ==> notes[BACKEND_NOTE] == backend)
            && (forall k :: k in attributes ==> ATTRIBUTE_NOTE + k in notes && notes[ATTRIBUTE_NOTE + k] == attributes[k])
            && (job != "" <==> JOB_ID in notes) && (job != "" ==> notes[JOB_ID] == job)
            && (session.Some? && session.value != "" <==> SESSION_ID in notes)
            && (session.Some? && session.value != "" ==> notes[SESSION_ID] == session.value)
            && (forall n :: n in notes ==> n in {BACKEND_NOTE, JOB_ID, SESSION_ID} || exists k :: k in attributes && n == ATTRIBUTE_NOTE + k)
  {
    NoteKeysDiffer();
    var parts := AttributeNotes(attributes, attributes.Keys);
    AttributesNoted(attributes);
    StampedAre(backend, parts, job, session);
  }

  lemma AttributesNoted(attributes: map<string, string>)
    ensures var parts := AttributeNotes(attributes, attributes.Keys);
            && (forall k :: k in attributes ==> ATTRIBUTE_NOTE + k in parts && parts[ATTRIBUTE_NOTE + k] == attributes[k])
            && (forall n :: n in parts ==> exists k :: k in attributes && n == ATTRIBUTE_NOTE + k)
  {
    forall k | k in attributes
      ensures var parts := AttributeNotes(attributes, attributes.Keys); ATTRIBUTE_NOTE + k in parts && parts[ATTRIBUTE_NOTE + k] == attributes[k]
    {
      assert (ATTRIBUTE_NOTE + k)[|ATTRIBUTE_NOTE|..] == k;
    }
  }

  /** The parts do not get in one another's way. */
  lemma StampedAre(backend: string, parts: map<string, string>, job: string, session: Option<string>)
    requires BACKEND_NOTE !in parts && JOB_ID !in parts && SESSION_ID !in parts
    ensures var notes := Notes(BackendNotes(backend) + parts, job, session);
            && (backend != "" <==> BACKEND_NOTE in notes) && (backend != "" ==> notes[BACKEND_NOTE] == backend)
            && (forall n :: n in parts ==> n in notes && notes[n] == parts[n])
            && (job != "" <==> JOB_ID in notes) && (job != "" ==> notes[JOB_ID] == job)
            && (session.Some? && session.value != "" <==> SESSION_ID in notes)
            && (session.Some? && session.value != "" ==> notes[SESSION_ID] == session.value)
            && (forall n :: n in notes ==> n in {BACKEND_NOTE, JOB_ID, SESSION_ID} || n in parts)
  {
    NoteKeysDiffer();
  }

  lemma NoteKeysDiffer()
    ensures BACKEND_NOTE != JOB_ID && BACKEND_NOTE != SESSION_ID && JOB_ID != SESSION_ID
    ensures forall k :: ATTRIBUTE_NOTE + k != BACKEND_NOTE && ATTRIBUTE_NOTE + k != JOB_ID && ATTRIBUTE_NOTE + k != SESSION_ID
  {
    var at := |"fluence.flux-framework.org/"|;
    assert BACKEND_NOTE[at] == 'b' && JOB_ID[at] == 'q' && SESSION_ID[at] == 'q' && |JOB_ID| != |SESSION_ID|;
    forall k ensures (ATTRIBUTE_NOTE + k)[at] == 'a' {
      assert ATTRIBUTE_NOTE[at] == 'a';
    }
  }

  lemma NothingToStamp(ws: Workers, name: string, ok: bool)
    ensures Annotated(ws, name, map[], ok) == ws
  {
    if name in ws {
      assert ws[name].notes + map[] == ws[name].notes;
    }
  }

  // ---- what ungating does ----

  predicate Unique(gates: seq<string>) {
    forall i, j :: 0 <= i < j < |gates| ==> gates[i] != gates[j]
  }

  /**
   * The patch takes the quantum gate off exactly when that gate is the pod's first; one
   * held behind another gate keeps it and loses the other.
   */
  lemma PatchRemovesGateIff(ws: Workers, name: string)
    requires Patchable(ws, name) && QUANTUM_GATE in ws[name].gates && Unique(ws[name].gates)
    ensures QUANTUM_GATE !in Patched(ws, name, true)[name].gates <==> ws[name].gates[0] == QUANTUM_GATE
  {
    var gates := ws[name].gates;
    var i :| 0 <= i < |gates| && gates[i] == QUANTUM_GATE;
    if i > 0 {
      assert gates[1..][i - 1] == QUANTUM_GATE;
    }
  }

  /** What one annotate and one patch leave of a pod: its notes added when the annotate was taken, its first gate gone when the patch was. */
  lemma UngateOneIs(ws: Workers, name: string, notes: map<string, string>, luck: Luck)
    requires name in ws
    ensures UngateOne(ws, name, notes, luck) ==
            ws[name := Worker(if luck.patch && ws[name].gates != [] then ws[name].gates[1..] else ws[name].gates,
                              if luck.annotate then ws[name].notes + notes else ws[name].notes, ws[name].terminal)]
  {
  }

  ghost predicate Distinct(names: seq<string>) {
    forall i, j :: 0 <= i < j < |names| ==> names[i] != names[j]
  }

  predicate Names(names: seq<string>) {
    forall i :: 0 <= i < |names| ==> TrimSpace(names[i]) == names[i] != ""
  }

  lemma UngateOneFrame(ws: Workers, name: string, notes: map<string, string>, luck: Luck, k: string)
    requires k in ws
    ensures var after := UngateOne(ws, name, notes, luck); after.Keys == ws.Keys && (k != name ==> after[k] == ws[k])
  {
  }

  /** An ungating depends on its own pod alone. */
  lemma UngateOneLocal(ws: Workers, vs: Workers, k: string, notes: map<string, string>, luck: Luck)
    requires k in ws && k in vs && ws[k] == vs[k]
    ensures k in UngateOne(ws, k, notes, luck) && k in UngateOne(vs, k, notes, luck)
    ensures UngateOne(ws, k, notes, luck)[k] == UngateOne(vs, k, notes, luck)[k]
  {
  }

  /** What becomes of pod k, named at place i or not at all. */
  ghost predicate UngatedAs(ws: Workers, after: Workers, names: seq<string>, notes: map<string, string>, lucks: seq<Luck>, k: string) {
    && k in ws && k in after
    && (k !in names ==> after[k] == ws[k])
    && forall i :: 0 <= i < |names| && names[i] == k ==>
         k in UngateOne(ws, k, notes, LuckAt(lucks, i)) && after[k] == UngateOne(ws, k, notes, LuckAt(lucks, i))[k]
  }

  /** Pods that are not named are left alone; a named one ends as one annotate and one patch leave it. */
  lemma {:induction false} UngateAllEach(ws: Workers, names: seq<string>, notes: map<string, string>, lucks: seq<Luck>, k: string)
    requires Distinct(names) && k in ws && Names(names)
    ensures UngatedAs(ws, UngateAll(ws, names, notes, lucks), names, notes, lucks, k)
  {
    if names != [] {
      var n := |names| - 1;
      var init, last := names[..n], names[n];
      assert Distinct(init) && Names(init);
      UngateAllEach(ws, init, notes, lucks, k);
      var before := UngateAll(ws, init, notes, lucks);
      UngateOneFrame(before, last, notes, LuckAt(lucks, n), k);
      if last == k {
        assert k !in init;
        UngateOneLocal(before, ws, k, notes, LuckAt(lucks, n));
      }
    }
  }

  /** The pods that count: those whose patch was taken and that had a gate to lose. */
  function Counted(ws: Workers, names: seq<string>, lucks: seq<Luck>): set<nat> {
    set i: nat | i < |names| && LuckAt(lucks, i).patch && names[i] in ws && ws[names[i]].gates != []
  }

  lemma CountedMore(ws: Workers, names: seq<string>, lucks: seq<Luck>, n: nat)
    requires |names| == n + 1
    ensures |Counted(ws, names, lucks)| ==
            |Counted(ws, names[..n], lucks)| + if LuckAt(lucks, n).patch && names[n] in ws && ws[names[n]].gates != [] then 1 else 0
  {
    assert n !in Counted(ws, names[..n], lucks);
    assert Counted(ws, names, lucks) ==
           Counted(ws, names[..n], lucks) + if LuckAt(lucks, n).patch && names[n] in ws && ws[names[n]].gates != [] then {n} else {};
  }

  /** The count ungating returns is that of the pods named that lost a gate, whatever else was refused. */
  lemma {:induction false} CountIs(ws: Workers, names: seq<string>, notes: map<string, string>, lucks: seq<Luck>)
    requires Distinct(names) && Names(names)
    ensures UngatedCount(ws, names, notes, lucks) == |Counted(ws, names, lucks)|
  {
    if names != [] {
      var n := |names| - 1;
      var init := names[..n];
      assert Distinct(init) && Names(init);
      CountIs(ws, init, notes, lucks);
      CountedMore(ws, names, lucks, n);
      assert names[n] !in init && TrimSpace(names[n]) == names[n];
      if names[n] in ws {
        UngateAllEach(ws, init, notes, lucks, names[n]);
      } else {
        AbsentStays(ws, init, notes, lucks, names[n]);
      }
    }
  }

  lemma {:induction false} AbsentStays(ws: Workers, names: seq<string>, notes: map<string, string>, lucks: seq<Luck>, k: string)
    requires k !in ws
    ensures k !in UngateAll(ws, names, notes, lucks)
  {
    if names != [] {
      AbsentStays(ws, names[..|names| - 1], notes, lucks, k);
    }
  }

  /** A pod whose first gate went and whose notes came. */
  predicate Freed(ws: Workers, after: Workers, k: string, notes: map<string, string>) {
    Patchable(ws, k) && k in after && after[k] == ws[k].(gates := ws[k].gates[1..], notes := ws[k].notes + notes)
  }

  /** When every call succeeds, every pod counts, and each is freed of its first gate with its notes on. */
  lemma {:induction false} UngateAllSucceeds(ws: Workers, names: seq<string>, notes: map<string, string>, lucks: seq<Luck>)
    requires Distinct(names) && Names(names) && forall i :: 0 <= i < |names| ==> Patchable(ws, names[i])
    requires forall i :: 0 <= i < |names| ==> LuckAt(lucks, i) == Luck(true, true)
    ensures UngatedCount(ws, names, notes, lucks) == |names|
    ensures forall i :: 0 <= i < |names| ==> Freed(ws, UngateAll(ws, names, notes, lucks), names[i], notes)
  {
    if names != [] {
      var n := |names| - 1;
      var init := names[..n];
      assert Distinct(init) && Names(init);
      UngateAllSucceeds(ws, init, notes, lucks);
      assert Patchable(ws, names[n]);
      UngateAllEach(ws, init, notes, lucks, names[n]);
      assert names[n] !in init;
    }
    forall i | 0 <= i < |names| ensures Freed(ws, UngateAll(ws, names, notes, lucks), names[i], notes) {
      assert Patchable(ws, names[i]) && LuckAt(lucks, i) == Luck(true, true);
      UngateAllEach(ws, names, notes, lucks, names[i]);
    }
  }
}
