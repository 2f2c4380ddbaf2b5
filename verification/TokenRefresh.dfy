/** Renewing the access token: one run of requests, with retries inside a time budget. */
module TokenRefresh {

  datatype Option<+T> = None | Some(value: T)

  const REFRESH_RETRY_BUDGET_MS: int := 20000

  /** An HTTP answer with the token its body held, or no readable answer in time. */
  datatype Response = Http(status: int, token: Option<string>) | NoAnswer

  /** Threw: the lock request failed after the task had run under it. */
  datatype Attempt = Refreshed(accessToken: string) | SignedOut | Unavailable | Rejected | Threw

  datatype Sent = Sent(at: int, response: Response)

  datatype Run = Run(firstSentAt: Option<int>, sends: seq<Sent>)

  /** Whether the browser has locks, gave this one, and kept its request from failing afterwards. */
  datatype Locks = Unsupported | Granted | Refused | GrantedThenRejects

  /** What the run meets: any clock readings, locks, answers and random numbers, by attempt or by delay. */
  datatype Environment = Environment(
    locks: nat -> Locks, taskAt: nat -> int, response: nat -> Response, random: nat -> real, checkedAt: nat -> int)

  function Classify(r: Response): Attempt {
    if r.NoAnswer? then Unavailable
    else if r.status == 204 then SignedOut
    else if r.status == 401 then Rejected
    else if !(200 <= r.status < 300) then Unavailable
    else if r.token.Some? && r.token.value != "" then Refreshed(r.token.value)
    else Unavailable
  }

  /** Math.round of a delay spread over 80 to 120 percent by a random number. */
  function WithJitter(delayMs: nat, random: real): int {
    (delayMs as real * (0.8 + random * 0.4) + 0.5).Floor
  }

  lemma JitterIsBounded(delayMs: nat, random: real)
    requires 0.0 <= random < 1.0
    ensures 0.8 * delayMs as real - 0.5 <= WithJitter(delayMs, random) as real <= 1.2 * delayMs as real + 0.5
  {
    Share(delayMs as real, random * 0.4);
    FloorIsNear(delayMs as real * (0.8 + random * 0.4) + 0.5);
  }

  lemma FloorIsNear(x: real)
    ensures x - 1.0 < x.Floor as real <= x
  {
  }

  lemma Share(d: real, spread: real)
    requires d >= 0.0 && 0.0 <= spread <= 0.4
    ensures 0.8 * d <= d * (0.8 + spread) <= 1.2 * d
  {
    Product(d, spread);
    assert d * (0.8 + spread) == d * 0.8 + d * spread;
  }

  lemma Product(d: real, spread: real)
    requires d >= 0.0 && 0.0 <= spread <= 0.4
    ensures 0.0 <= d * spread <= d * 0.4
  {
  }

  function BudgetLeft(firstSentAt: Option<int>, now: int): int {
    if firstSentAt.None? then REFRESH_RETRY_BUDGET_MS else REFRESH_RETRY_BUDGET_MS - (now - firstSentAt.value)
  }

  /** One attempt: nothing is sent once the budget is spent. */
  function Task(r: Run, now: int, response: Response): (Run, Attempt) {
    if BudgetLeft(r.firstSentAt, now) < 0 then (r, Unavailable)
    else
      var first := if r.firstSentAt.None? then now else r.firstSentAt.value;
      (Run(Some(first), r.sends + [Sent(now, response)]), Classify(response))
  }

  predicate InBudget(sends: seq<Sent>) {
    forall i | 0 <= i < |sends| :: sends[i].at - sends[0].at <= REFRESH_RETRY_BUDGET_MS
  }

  function Last(sends: seq<Sent>): Response
    requires sends != []
  {
    sends[|sends| - 1].response
  }

  predicate HasStatus(r: Response, status: int) {
    r.Http? && r.status == status
  }

  /** The answer carries a new access token. */
  predicate Grants(r: Response, token: string) {
    r.Http? && 200 <= r.status < 300 && r.status != 204 && r.token == Some(token) && token != ""
  }

  /** The answer says nothing about the session: no answer, an error of the server or the edge, or no token. */
  predicate SaysNothing(r: Response) {
    r.Http? ==>
      r.status != 204 && r.status != 401 && (200 <= r.status < 300 ==> r.token.None? || r.token.value == "")
  }

  /** Only an answer that says nothing, or a first 401, is followed by another request. */
  predicate RetriedForCause(sends: seq<Sent>) {
    forall i | 0 <= i < |sends| - 1 :: SaysNothing(sends[i].response) || (i == 0 && HasStatus(sends[i].response, 401))
  }

  predicate Anchored(r: Run) {
    r.sends != [] && r.firstSentAt == Some(r.sends[0].at) && InBudget(r.sends) && RetriedForCause(r.sends)
  }

  class RefreshRun {
    var firstSentAt: Option<int>
    var sends: seq<Sent>

    function View(): Run
      reads this
    {
      Run(firstSentAt, sends)
    }

    constructor ()
      ensures View() == Run(None, [])
    {
      firstSentAt, sends := None, [];
    }

    method RunTask(now: int, response: Response) returns (a: Attempt)
      modifies this
      ensures (View(), a) == Task(old(View()), now, response)
    {
      if BudgetLeft(firstSentAt, now) < 0 { return Unavailable; }
      if firstSentAt.None? { firstSentAt := Some(now); }
      sends := sends + [Sent(now, response)];
      return Classify(response);
    }

    /** The refresh runs exactly once, with the lock or without it; a lock request that fails after it ran is an error. */
    method WithCrossTabRefreshLock(locks: Locks, now: int, response: Response) returns (a: Attempt)
      modifies this
      ensures View() == Task(old(View()), now, response).0
      ensures a == if locks.GrantedThenRejects? then Threw else Task(old(View()), now, response).1
    {
      if locks.Unsupported? {
        a := RunTask(now, response);
        return;
      }
      var acquired := false;
      if !locks.Refused? {
        acquired := true;
        a := RunTask(now, response);
        if locks.Granted? { return; }
      }
      if acquired { a := Threw; } else { a := RunTask(now, response); }
    }

    /** Sends one more request, or nothing once the budget is spent. */
    method AttemptRefresh(k: nat, env: Environment) returns (a: Attempt)
      requires View() == Run(None, []) || (Anchored(View()) && (SaysNothing(Last(sends)) || (|sends| == 1 && HasStatus(Last(sends), 401))))
      modifies this
      ensures Anchored(View())
      ensures a.Threw? <==> env.locks(k).GrantedThenRejects?
      ensures sends == old(sends) || (|sends| == |old(sends)| + 1 && sends[..|old(sends)|] == old(sends))
      ensures sends != old(sends) && !a.Threw? ==> a == Classify(Last(sends))
      ensures sends == old(sends) ==>
                && sends != [] && (a.Threw? || a.Unavailable?)
                && BudgetLeft(Some(sends[0].at), env.taskAt(k)) < 0
    {
      a := WithCrossTabRefreshLock(env.locks(k), env.taskAt(k), env.response(k));
      assert forall i | 0 <= i < |old(sends)| :: sends[i] == old(sends)[i];
    }

    /**
     Every request of the run leaves within the budget of the first, at most two
     more than there are delays are sent, and the answer is the last one received:
     signed_out needs a 204, or a 401 to a second or later request. It gives up only
     when the delays are used up or the budget does not allow another request, and
     fails without an answer only where a lock request fails after its task ran.
     */
    method RefreshWithRetries(retryDelaysMs: seq<nat>, env: Environment) returns (outcome: Attempt)
      requires View() == Run(None, [])
      modifies this
      ensures 1 <= |sends| <= 2 + |retryDelaysMs|
      ensures InBudget(sends) && RetriedForCause(sends)
      ensures !outcome.Threw? ==>
                (outcome.SignedOut? <==> HasStatus(Last(sends), 204) || (HasStatus(Last(sends), 401) && |sends| >= 2))
      ensures outcome.Threw? ==> exists k | 0 <= k < 2 + |retryDelaysMs| :: env.locks(k).GrantedThenRejects?
      ensures outcome.Refreshed? ==> Grants(Last(sends), outcome.accessToken)
      ensures outcome.Unavailable? ==> SaysNothing(Last(sends)) || (HasStatus(Last(sends), 401) && |sends| == 1)
      ensures outcome.Unavailable? ==>
                || |sends| >= 1 + |retryDelaysMs|
                || (exists i | 0 <= i < |retryDelaysMs| ::
                      WithJitter(retryDelaysMs[i], env.random(i)) > BudgetLeft(Some(sends[0].at), env.checkedAt(i)))
                || (exists k | 0 <= k < 2 + |retryDelaysMs| :: BudgetLeft(Some(sends[0].at), env.taskAt(k)) < 0)
      ensures !outcome.Rejected?
    {
      var attempt := AttemptRefresh(0, env);
      if attempt.Threw? { return Threw; }
      if attempt.Rejected? {
        attempt := AttemptRefresh(1, env);
        if attempt.Threw? { return Threw; }
        if attempt.Rejected? { return SignedOut; }
      }
      var i := 0;
      while i < |retryDelaysMs|
        invariant i <= |retryDelaysMs| && 1 <= |sends| <= 2 + i
        invariant Anchored(View())
        invariant attempt == Classify(Last(sends))
                  || (attempt.Unavailable? && |sends| == 1 && HasStatus(Last(sends), 401))
                  || (attempt.Unavailable? && SaysNothing(Last(sends)))
        invariant (attempt.Rejected? ==> |sends| >= 2) && !attempt.Threw?
        invariant |sends| >= 1 + i || exists k | 0 <= k < 2 + i :: BudgetLeft(Some(sends[0].at), env.taskAt(k)) < 0
      {
        if !attempt.Unavailable? { break; }
        var waitMs := WithJitter(retryDelaysMs[i], env.random(i));
        if waitMs > BudgetLeft(firstSentAt, env.checkedAt(i)) { break; }
        attempt := AttemptRefresh(2 + i, env);
        if attempt.Threw? { return Threw; }
        i := i + 1;
      }
      outcome := if attempt.Rejected? then SignedOut else attempt;
    }
  }
}
