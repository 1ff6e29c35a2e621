/** Runs of a state machine, and runs that break one environment condition once. */
module Runs {
  datatype Trace<W, S> = Trace(states: seq<W>, steps: seq<S>)

  /** How a system starts and goes on, and which of its steps meet the environment conditions. */
  datatype System<!W, !S> = System(starts: W -> bool, goes: (W, S, W) -> bool, meets: (W, S) -> bool)

  /** The steps are possible ones, and each but the given one meets the environment conditions. */
  ghost predicate RunsBut<W, S>(sys: System<W, S>, r: Trace<W, S>, but: nat) {
    && |r.states| == |r.steps| + 1 && sys.starts(r.states[0])
    && forall i :: 0 <= i < |r.steps| ==>
         sys.goes(r.states[i], r.steps[i], r.states[i + 1]) && (i != but ==> sys.meets(r.states[i], r.steps[i]))
  }

  function Last<W, S>(r: Trace<W, S>): W
    requires r.states != []
  {
    r.states[|r.states| - 1]
  }

  /** One more step of a run; the number says where in it, and so whether it is the exempt one. */
  lemma Onward<W, S>(sys: System<W, S>, r: Trace<W, S>, but: nat, n: nat, s: S, w: W) returns (q: Trace<W, S>)
    requires RunsBut(sys, r, but) && |r.steps| == n && sys.goes(Last(r), s, w) && (n != but ==> sys.meets(Last(r), s))
    ensures RunsBut(sys, q, but) && |q.steps| == n + 1 && Last(q) == w
    ensures but < n ==> q.steps[but] == r.steps[but]
    ensures but == n ==> q.steps[but] == s
  {
    q := Trace(r.states + [w], r.steps + [s]);
    forall i | 0 <= i < n + 1
      ensures sys.goes(q.states[i], q.steps[i], q.states[i + 1]) && (i != but ==> sys.meets(q.states[i], q.steps[i]))
    {
      if i < n {
        assert sys.goes(r.states[i], r.steps[i], r.states[i + 1]);
      }
    }
  }
}
