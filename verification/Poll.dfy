/**
 * The sidecar's poll loop: what any stream of vendor answers makes it return, and when.
 */
module Poll {
  import opened Options

  /** A vendor call's outcome: an answer, an error no retry can fix, or one that may pass. */
  datatype Answer<T> = Is(value: T) | Unfixable | Passing

  /** What one round would be told, should it get to ask. Positions may be unknown. */
  datatype Round = Round(failed: Answer<bool>, ready: Answer<bool>, readyPosition: Answer<Option<int>>, position: Answer<Option<int>>)

  /** What a round amounts to. */
  datatype Event = Clean | Failed | Ready | Broken | Erred

  function Raised<T>(a: Answer<T>): Event {
    if a.Unfixable? then Broken else Erred
  }

  /**
   * The round's calls in their order. The position is asked for the log line as well, so
   * a task that is ready but whose position cannot be had is not reported ready.
   */
  function EventOf(r: Round): Event {
    if !r.failed.Is? then Raised(r.failed)
    else if r.failed.value then Failed
    else if !r.ready.Is? then Raised(r.ready)
    else if r.ready.value then (if r.readyPosition.Is? then Ready else Raised(r.readyPosition))
    else if !r.position.Is? then Raised(r.position)
    else Clean
  }

  /** The round's calls were made up to one that raised an error of the given kind, and those before said the task goes on. */
  predicate StoppedBy(r: Round, unfixable: bool) {
    || (if unfixable then r.failed.Unfixable? else r.failed.Passing?)
    || (r.failed == Is(false) && if unfixable then r.ready.Unfixable? else r.ready.Passing?)
    || (r.failed == Is(false) && r.ready == Is(true) && if unfixable then r.readyPosition.Unfixable? else r.readyPosition.Passing?)
    || (r.failed == Is(false) && r.ready == Is(false) && if unfixable then r.position.Unfixable? else r.position.Passing?)
  }

  /** What makes a round each of the five things it can be. */
  lemma EventMeans(r: Round)
    ensures EventOf(r) == Failed <==> r.failed == Is(true)
    ensures EventOf(r) == Ready <==> r.failed == Is(false) && r.ready == Is(true) && r.readyPosition.Is?
    ensures EventOf(r) == Clean <==> r.failed == Is(false) && r.ready == Is(false) && r.position.Is?
    ensures EventOf(r) == Broken <==> StoppedBy(r, true)
    ensures EventOf(r) == Erred <==> StoppedBy(r, false)
  {
  }

  /** How many rounds in a row, up to and including round k, ended in a passing error. */
  function Streak(rounds: seq<Round>, k: nat): nat
    requires k < |rounds|
  {
    if EventOf(rounds[k]) != Erred then 0 else 1 + if k == 0 then 0 else Streak(rounds, k - 1)
  }

  /** Round k settles the matter: the task's fate, a hopeless error, or one error too many. */
  predicate Decisive(rounds: seq<Round>, maxErrors: int, k: nat)
    requires k < |rounds|
  {
    match EventOf(rounds[k])
    case Clean => false
    case Erred => Streak(rounds, k) >= maxErrors
    case _ => true
  }

  /** One round of the loop: each call is made only when the ones before let it. */
  method AskRound(r: Round) returns (event: Event)
    ensures event == EventOf(r)
  {
    if !r.failed.Is? {
      return Raised(r.failed);
    }
    if r.failed.value {
      return Failed;
    }
    if !r.ready.Is? {
      return Raised(r.ready);
    }
    if r.ready.value {
      if !r.readyPosition.Is? {
        return Raised(r.readyPosition);
      }
      return Ready;
    }
    if !r.position.Is? {
      return Raised(r.position);
    }
    return Clean;
  }

  /** A streak as long as the limit is that many errors in a row. */
  lemma LastErrors(rounds: seq<Round>, maxErrors: int, k: nat)
    requires k < |rounds| && EventOf(rounds[k]) == Erred && Streak(rounds, k) >= maxErrors
    ensures Limit(maxErrors) <= k + 1
    ensures forall j :: k + 1 - Limit(maxErrors) <= j <= k ==> StoppedBy(rounds[j], false)
  {
    StreakIsRun(rounds, k);
    forall j | k + 1 - Limit(maxErrors) <= j <= k ensures StoppedBy(rounds[j], false) {
      EventMeans(rounds[j]);
    }
  }

  /**
   * Polls until a round is decisive; None when the rounds given run out first. The answer
   * is true exactly when the first decisive round found the task ready.
   */
  method PollTask(rounds: seq<Round>, maxErrors: int) returns (ready: Option<bool>, used: nat)
    ensures ready.None? ==> used == |rounds| && forall k :: 0 <= k < |rounds| ==> !Decisive(rounds, maxErrors, k)
    ensures ready.Some? ==>
              && 0 < used <= |rounds| && Decisive(rounds, maxErrors, used - 1)
              && (forall k :: 0 <= k < used - 1 ==> !Decisive(rounds, maxErrors, k))
              && (ready.value <==> EventOf(rounds[used - 1]) == Ready)
    ensures forall k :: 0 <= k < |rounds| && (rounds[k].failed == Is(true) || StoppedBy(rounds[k], true)) ==>
              ready.Some? && used <= k + 1 && (used == k + 1 ==> ready == Some(false))
    ensures forall k :: 0 <= k < |rounds| && rounds[k].failed == Is(false) && rounds[k].ready == Is(true) && rounds[k].readyPosition.Is? ==>
              ready.Some? && used <= k + 1 && (used == k + 1 ==> ready == Some(true))
    ensures ready == Some(true) ==> var r := rounds[used - 1]; r.failed == Is(false) && r.ready == Is(true) && r.readyPosition.Is?
    ensures ready == Some(false) ==>
              || rounds[used - 1].failed == Is(true) || StoppedBy(rounds[used - 1], true)
              || (Limit(maxErrors) <= used && forall k :: used - Limit(maxErrors) <= k < used ==> StoppedBy(rounds[k], false))
  {
    var errors := 0;
    used := 0;
    while used < |rounds|
      invariant used <= |rounds| && forall k :: 0 <= k < used ==> !Decisive(rounds, maxErrors, k)
      invariant errors == if used == 0 then 0 else Streak(rounds, used - 1)
      invariant forall k :: 0 <= k < used ==> EventOf(rounds[k]) == Clean || EventOf(rounds[k]) == Erred
      invariant forall k :: 0 <= k < used ==> rounds[k].failed != Is(true) && !StoppedBy(rounds[k], true)
      invariant forall k :: 0 <= k < used ==> !(rounds[k].failed == Is(false) && rounds[k].ready == Is(true) && rounds[k].readyPosition.Is?)
    {
      var event := AskRound(rounds[used]);
      ghost var k := used;
      used := used + 1;
      EventMeans(rounds[k]);
      if event.Failed? || event.Ready? || event.Broken? {
        return Some(event.Ready?), used;
      }
      if event.Erred? {
        errors := errors + 1;
        if errors >= maxErrors {
          LastErrors(rounds, maxErrors, k);
          return Some(false), used;
        }
      } else {
        errors := 0;
      }
    }
    ready := None;
  }

  /** The number of errors in a row that ends the poll; even a limit of zero allows one. */
  function Limit(maxErrors: int): nat {
    if maxErrors < 1 then 1 else maxErrors
  }

  lemma {:induction false} StreakCounts(rounds: seq<Round>, start: nat, k: nat)
    requires start <= k < |rounds| && forall j :: start <= j <= k ==> EventOf(rounds[j]) == Erred
    ensures Streak(rounds, k) >= k - start + 1
  {
    if start < k {
      StreakCounts(rounds, start, k - 1);
    }
  }

  lemma {:induction false} StreakIsRun(rounds: seq<Round>, k: nat)
    requires k < |rounds|
    ensures Streak(rounds, k) <= k + 1
    ensures forall j :: k + 1 - Streak(rounds, k) <= j <= k ==> EventOf(rounds[j]) == Erred
    ensures Streak(rounds, k) < k + 1 ==> EventOf(rounds[k - Streak(rounds, k)]) != Erred
  {
    if k > 0 && EventOf(rounds[k]) == Erred {
      StreakIsRun(rounds, k - 1);
    }
  }

  /** An unbroken run of errors as long as the limit ends the poll, wherever it starts. */
  lemma ErrorsEndThePoll(rounds: seq<Round>, maxErrors: int, start: nat)
    requires start + Limit(maxErrors) <= |rounds|
    requires forall j :: start <= j < start + Limit(maxErrors) ==> EventOf(rounds[j]) == Erred
    ensures exists k :: 0 <= k < start + Limit(maxErrors) && Decisive(rounds, maxErrors, k)
  {
    var k := start + Limit(maxErrors) - 1;
    StreakCounts(rounds, start, k);
    assert Decisive(rounds, maxErrors, k);
  }

  /** Fewer errors in a row than the limit never end it: a clean round forgives what came before. */
  lemma ShortStreaksPass(rounds: seq<Round>, maxErrors: int, k: nat)
    requires k < |rounds| && EventOf(rounds[k]) == Erred
    ensures Decisive(rounds, maxErrors, k) <==>
            Limit(maxErrors) <= k + 1 && forall j :: k + 1 - Limit(maxErrors) <= j <= k ==> EventOf(rounds[j]) == Erred
  {
    StreakIsRun(rounds, k);
    if Limit(maxErrors) <= k + 1 && forall j :: k + 1 - Limit(maxErrors) <= j <= k ==> EventOf(rounds[j]) == Erred {
      StreakCounts(rounds, k + 1 - Limit(maxErrors), k);
    }
  }

  // ---- the QRMI provider ----

  datatype Status = Queued | Running | Completed | FailedTask | Cancelled

  predicate ReadyStatus(s: Status) {
    s == Running || s == Completed
  }

  predicate FailedStatus(s: Status) {
    s == FailedTask || s == Cancelled
  }

  function Asked(status: Answer<Status>, states: Status -> bool): Answer<bool> {
    match status
    case Is(s) => Is(states(s))
    case Unfixable => Unfixable
    case Passing => Passing
  }

  /** A position is 1 once the task runs, unknown before, and never an error. */
  function QueuePosition(status: Answer<Status>): Answer<Option<int>> {
    if status.Is? && ReadyStatus(status.value) then Is(Some(1)) else Is(None)
  }

  /** A round against QRMI, from the status each call sees. */
  function QrmiRound(first: Answer<Status>, second: Answer<Status>, third: Answer<Status>): Round {
    Round(Asked(first, s => FailedStatus(s)), Asked(second, s => ReadyStatus(s)), QueuePosition(third), QueuePosition(third))
  }

  /**
   * With QRMI, from the status each call sees: the task failed or was cancelled at the
   * first; was neither, and ran or was done at the second; was neither, and was not ready at the second;
   * or a call of those made raised an error, one that cannot pass or one that may. The
   * position never does.
   */
  lemma QrmiReady(first: Answer<Status>, second: Answer<Status>, third: Answer<Status>)
    ensures var e, on := EventOf(QrmiRound(first, second, third)), first.Is? && first.value in {Queued, Running, Completed};
            && (e == Failed <==> first.Is? && first.value in {FailedTask, Cancelled})
            && (e == Ready <==> on && second.Is? && second.value in {Running, Completed})
            && (e == Clean <==> on && second.Is? && second.value in {Queued, FailedTask, Cancelled})
            && (e == Broken <==> first.Unfixable? || (on && second.Unfixable?))
            && (e == Erred <==> first.Passing? || (on && second.Passing?))
  {
  }
}
