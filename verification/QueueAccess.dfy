/**
 The booking queue as a page follows it: what each answer makes of the surface
 shown, and when the page may say that the server ended the last admission.
 Times are left to the events: an event says whether a seat window had closed.
 */
module QueueAccess {

  datatype Option<+T> = None | Some(value: T)

  datatype SessionState = Waiting | Admitted | PaymentRecovery | Expired

  /** The parts of a queue session answer that decide something. */
  datatype Snapshot = Snapshot(
    state: SessionState, autoEnter: bool, position: nat, waitingCount: nat, recoveryOrder: bool)

  datatype Code = BookingNotOpen | BookingEnded | NoBookableShowtime | PerformanceNotFound | OtherCode

  datatype Text = NotOpenText | ClosedText | NotFoundText | ChallengeText | BlockedText | RateLimitedText | ExpiredText | OtherText

  /** An answer of the API, or none at all. */
  datatype Failure = Api(status: int, code: Code, message: Text) | Network

  datatype Surface =
    | Loading | NotOpen | InLine | Entered | Ended | Closed(notFound: bool) | AuthRequired | Retry | Challenge | Blocked

  datatype Queue = Queue(
    surface: Surface, accessEnded: bool, reentryUsed: bool, ready: bool,
    autoEnterTimer: bool, retryTimer: bool, transientRetries: nat)

  const MAX_TRANSIENT_RETRIES: nat := 3

  function Start(): Queue {
    Queue(Loading, false, false, false, false, false, 0)
  }

  // ----- reading an error -----

  predicate IsNotOpen(f: Failure) {
    f.Api? && f.status == 403 && (f.code.BookingNotOpen? || f.message.NotOpenText?)
  }

  predicate IsClosed(f: Failure) {
    f.Api? && (f.status == 400 ||
    ((f.status == 403 || f.status == 404) &&
      (f.code.BookingEnded? || f.code.NoBookableShowtime? || f.code.PerformanceNotFound?
        || f.message.ClosedText? || f.message.NotFoundText?)))
  }

  predicate IsNotFound(f: Failure) {
    f.Api? && (f.status == 400 || f.code.PerformanceNotFound? || f.message.NotFoundText?)
  }

  function SecuritySurface(f: Failure): Option<Surface> {
    if f.Network? then None
    else if f.status == 401 then Some(AuthRequired)
    else if f.status == 403 && f.message.ChallengeText? then Some(Challenge)
    else if f.status == 403 && f.message.BlockedText? then Some(Blocked)
    else None
  }

  predicate IsTransient(f: Failure) {
    f.Network? || (SecuritySurface(f).None? && (f.status == 429 || f.status >= 500 || f.message.RateLimitedText?))
  }

  function EntrySurface(f: Failure): Surface {
    if f.Network? then Retry
    else if SecuritySurface(f).Some? then SecuritySurface(f).value
    else if f.status == 429 || f.message.RateLimitedText? then Retry
    else if IsClosed(f) then Closed(IsNotFound(f))
    else if f.status == 403 && f.message.ExpiredText? then Ended
    else Retry
  }

  function SessionSurface(f: Failure): Option<Surface> {
    if f.Network? then None
    else if SecuritySurface(f).Some? then SecuritySurface(f)
    else if f.status == 403 && IsClosed(f) then Some(Closed(IsNotFound(f)))
    else if f.status == 404 || f.status == 403 then Some(Ended)
    else None
  }

  // ----- the handlers -----

  predicate IsAdmitted(s: SessionState) {
    s.Admitted? || s.PaymentRecovery?
  }

  predicate IsImmediate(n: Snapshot) {
    IsAdmitted(n.state) && n.autoEnter && n.position == 0 && n.waitingCount == 0
  }

  predicate IsRecoveryOnly(n: Snapshot) {
    n.state.PaymentRecovery? && n.recoveryOrder
  }

  /** windowClosed: the snapshot's seat window has already ended on the server's clock. */
  function ApplySnapshot(q: Queue, n: Snapshot, windowClosed: bool): Queue {
    if n.state.Expired? then q.(autoEnterTimer := false, accessEnded := true, surface := Ended, ready := false)
    else if IsRecoveryOnly(n) then q.(autoEnterTimer := false, accessEnded := false, surface := Entered, ready := false)
    else if IsAdmitted(n.state) && windowClosed then
      q.(autoEnterTimer := false, accessEnded := n.state.Admitted?, surface := Ended, ready := false,
         reentryUsed := true, retryTimer := q.retryTimer || !q.reentryUsed)
    else if IsAdmitted(n.state) then
      if q.ready then q.(accessEnded := false, surface := Entered)
      else
        q.(accessEnded := false, surface := Entered,
           ready := IsImmediate(n) && n.autoEnter, autoEnterTimer := !(IsImmediate(n) && n.autoEnter))
    else q.(autoEnterTimer := false, accessEnded := true, surface := InLine, ready := false)
  }

  function SessionFails(q: Queue, f: Failure): Queue {
    var surface := SessionSurface(f);
    if surface.None? then q
    else
      q.(autoEnterTimer := false, accessEnded := surface.value.Closed? || surface.value.Ended?,
         surface := surface.value, ready := false)
  }

  function EnterQueue(q: Queue, background: bool): Queue {
    var t := q.(autoEnterTimer := false, retryTimer := false);
    if background then t
    else t.(transientRetries := 0, reentryUsed := false, accessEnded := false, surface := Loading, ready := false)
  }

  function EntryAnswers(q: Queue, n: Snapshot, windowClosed: bool): Queue {
    ApplySnapshot(q.(transientRetries := 0), n, windowClosed)
  }

  function EntryHasNoSession(q: Queue): Queue {
    q.(transientRetries := 0, surface := Retry)
  }

  /** stale: the route was left while the entry was in flight. */
  function EntryFails(q: Queue, background: bool, f: Failure, stale: bool): Queue {
    var t := q.(ready := false);
    if IsNotOpen(f) then
      t.(transientRetries := 0)
    else if background && IsTransient(f) && t.transientRetries < MAX_TRANSIENT_RETRIES then
      if stale then t else t.(transientRetries := t.transientRetries + 1, retryTimer := true)
    else
      var surface := EntrySurface(f);
      t.(transientRetries := 0, surface := surface,
         accessEnded := q.accessEnded || surface.Closed? || surface.Ended?)
  }

  /** The open time is known now: show it and enter again by then. */
  function OpenTimeKnown(q: Queue, stale: bool): Queue {
    if stale then q else q.(surface := NotOpen, retryTimer := true)
  }

  /** The entry effect is torn down. */
  function StopTimers(q: Queue): Queue {
    q.(autoEnterTimer := false, retryTimer := false)
  }

  /** The route turned the queue off: back to loading; what the server said of the access stays. */
  function Disable(q: Queue): Queue {
    StopTimers(q).(surface := Loading, ready := false)
  }

  // ----- events -----

  datatype Event =
    | UserEnters
    | RetryFires
    | EntrySnapshot(snapshot: Snapshot, windowClosed: bool)
    | EntryNoSession
    | EntryError(background: bool, failure: Failure, stale: bool)
    | OpenTimeRead(stale: bool)
    | SessionSnapshot(snapshot: Snapshot, windowClosed: bool)
    | SessionError(failure: Failure)
    | AutoEnters
    | EntersNow
    | Disables
    | Leaves

  function Next(q: Queue, e: Event): Queue {
    match e
    case UserEnters => EnterQueue(q, false)
    case RetryFires => EnterQueue(q.(retryTimer := false), true)
    case EntrySnapshot(n, windowClosed) => EntryAnswers(q, n, windowClosed)
    case EntryNoSession => EntryHasNoSession(q)
    case EntryError(background, f, stale) => EntryFails(q, background, f, stale)
    case OpenTimeRead(stale) => OpenTimeKnown(q, stale)
    case SessionSnapshot(n, windowClosed) => ApplySnapshot(q, n, windowClosed)
    case SessionError(f) => SessionFails(q, f)
    case AutoEnters => q.(autoEnterTimer := false, ready := true)
    case EntersNow => q.(ready := true)
    case Disables => Disable(q)
    case Leaves => StopTimers(q)
  }

  function Run(events: seq<Event>): Queue {
    if events == [] then Start() else Next(Run(events[..|events| - 1]), events[|events| - 1])
  }

  // ----- what the server said -----

  /** The session holds no seats and no order: expired, waiting in line, or admitted with its seat window over. */
  predicate SaysEnded(n: Snapshot, windowClosed: bool) {
    n.state.Expired? || n.state.Waiting? || (n.state.Admitted? && windowClosed)
  }

  /** A demand to sign in or to pass a security check. */
  predicate IsSecurityDemand(f: Failure) {
    f.Api? && (f.status == 401 || (f.status == 403 && (f.message.ChallengeText? || f.message.BlockedText?)))
  }

  predicate NamesClosedSale(f: Failure) {
    f.Api? && (f.code in {BookingEnded, NoBookableShowtime, PerformanceNotFound} || f.message in {ClosedText, NotFoundText})
  }

  /** An entry is refused for good: a malformed id, a closed sale, or an expired access. */
  predicate EntryEnds(f: Failure) {
    && f.Api? && !IsSecurityDemand(f) && !IsNotOpen(f) && !f.message.RateLimitedText?
    && (|| f.status == 400
        || (f.status in {403, 404} && NamesClosedSale(f))
        || (f.status == 403 && f.message.ExpiredText?))
  }

  /** The session is missing or rejected. */
  predicate SessionEnds(f: Failure) {
    f.Api? && f.status in {403, 404} && !IsSecurityDemand(f)
  }

  /** The event carries the server's answer that the last admission ended. */
  predicate EndsAccess(e: Event) {
    match e
    case EntrySnapshot(n, windowClosed) => SaysEnded(n, windowClosed)
    case SessionSnapshot(n, windowClosed) => SaysEnded(n, windowClosed)
    case EntryError(_, f, _) => EntryEnds(f)
    case SessionError(f) => SessionEnds(f)
    case _ => false
  }

  /** An open admission, a payment to recover, a sign-in or security demand, or a new entry by the user. */
  predicate ReopensAccess(e: Event) {
    match e
    case UserEnters => true
    case EntrySnapshot(n, windowClosed) => !SaysEnded(n, windowClosed)
    case SessionSnapshot(n, windowClosed) => !SaysEnded(n, windowClosed)
    case SessionError(f) => IsSecurityDemand(f)
    case _ => false
  }

  lemma EntryEndsExactly(f: Failure)
    requires !IsNotOpen(f)
    ensures EntrySurface(f).Closed? || EntrySurface(f).Ended? <==> EntryEnds(f)
    ensures EntryEnds(f) ==> !IsTransient(f)
  {
  }

  lemma StepDecides(q: Queue, e: Event)
    ensures Next(q, e).accessEnded == if EndsAccess(e) then true else if ReopensAccess(e) then false else q.accessEnded
    ensures !(EndsAccess(e) && ReopensAccess(e))
  {
    if e.EntryError? && !IsNotOpen(e.failure) { EntryEndsExactly(e.failure); }
  }

  /** The answer at i ended the access and nothing since reopened it. */
  predicate EndedAt(events: seq<Event>, i: nat) {
    i < |events| && EndsAccess(events[i]) && forall j | i < j < |events| :: !ReopensAccess(events[j])
  }

  /** The page says so exactly when the server said so and nothing since says otherwise. */
  lemma {:induction false} AccessEndedExactly(events: seq<Event>)
    ensures Run(events).accessEnded <==> exists i: nat :: EndedAt(events, i)
    decreases |events|
  {
    if events != [] {
      var n := |events| - 1;
      AccessEndedExactly(events[..n]);
      StepDecides(Run(events[..n]), events[n]);
      if EndsAccess(events[n]) {
        assert EndedAt(events, n);
      } else if !ReopensAccess(events[n]) && Run(events[..n]).accessEnded {
        var i: nat :| EndedAt(events[..n], i);
        assert EndedAt(events, i);
      }
      if i: nat :| EndedAt(events, i) {
        LastEnds(events, i);
      }
    }
  }

  lemma LastEnds(events: seq<Event>, i: nat)
    requires EndedAt(events, i)
    ensures var n := |events| - 1; EndsAccess(events[n]) || (!ReopensAccess(events[n]) && EndedAt(events[..n], i))
  {
    var n := |events| - 1;
    if i < n {
      assert forall j | i < j < n :: events[..n][j] == events[j];
    }
  }

  // ----- what the page shows -----

  /** Admitted, with time left to choose seats or with a payment to finish. */
  predicate IsOpenAdmission(n: Snapshot, windowClosed: bool) {
    (n.state.PaymentRecovery? && n.recoveryOrder) || ((n.state.Admitted? || n.state.PaymentRecovery?) && !windowClosed)
  }

  /** What an answer shows, and when it lets the user in. */
  lemma AnswerShows(q: Queue, n: Snapshot, windowClosed: bool)
    ensures var t := ApplySnapshot(q, n, windowClosed);
      var open := IsOpenAdmission(n, windowClosed) && !(n.state.PaymentRecovery? && n.recoveryOrder);
      && (t.surface.InLine? <==> n.state.Waiting?)
      && (t.surface.Entered? <==> IsOpenAdmission(n, windowClosed))
      && (t.surface.Ended? <==> n.state.Expired? || (IsAdmitted(n.state) && !IsOpenAdmission(n, windowClosed)))
      && (t.ready <==> open && (q.ready || (n.autoEnter && n.position == 0 && n.waitingCount == 0)))
      && (open && !t.ready ==> t.autoEnterTimer) && (!open ==> !t.autoEnterTimer)
  {
  }

  function AnswerOf(e: Event): Option<Snapshot> {
    match e
    case EntrySnapshot(n, _) => Some(n)
    case SessionSnapshot(n, _) => Some(n)
    case _ => None
  }

  /** The timer for entering on its own fires only while it is armed. */
  ghost predicate TimersFire(events: seq<Event>) {
    forall i | 0 <= i < |events| && events[i].AutoEnters? :: Run(events[..i]).autoEnterTimer
  }

  predicate LetsIn(e: Event) {
    e.EntersNow? || (AnswerOf(e).Some? && IsAdmitted(AnswerOf(e).value.state))
  }

  lemma StaysOut(q: Queue, e: Event)
    requires !q.ready && !q.autoEnterTimer && !LetsIn(e) && !e.AutoEnters?
    ensures !Next(q, e).ready && !Next(q, e).autoEnterTimer
  {
  }

  /** A waiting answer shows the line, and nobody is let in until an admission arrives or the user enters. */
  lemma {:induction false} WaitsInLine(events: seq<Event>, i: nat, n: nat)
    requires i < n <= |events| && TimersFire(events)
    requires AnswerOf(events[i]).Some? && AnswerOf(events[i]).value.state.Waiting?
    requires forall k | i < k < n :: !LetsIn(events[k])
    ensures !Run(events[..n]).ready && !Run(events[..n]).autoEnterTimer
    ensures n == i + 1 ==> Run(events[..n]).surface.InLine?
  {
    assert events[..n][..n - 1] == events[..n - 1];
    if n > i + 1 {
      WaitsInLine(events, i, n - 1);
      assert !LetsIn(events[n - 1]) && Run(events[..n]) == Next(Run(events[..n - 1]), events[n - 1]);
      StaysOut(Run(events[..n - 1]), events[n - 1]);
    }
  }

  /** A demand of the guard in front of the API, and the surface that meets it. */
  predicate MeetsDemand(f: Failure, surface: Surface) {
    && f.Api?
    && (surface.AuthRequired? <==> f.status == 401)
    && (surface.Challenge? <==> f.status == 403 && f.message.ChallengeText?)
    && (surface.Blocked? <==> f.status == 403 && f.message.BlockedText?)
  }

  /** Trouble of the network or the server, or too many requests: it says nothing about the queue. */
  predicate IsTrouble(f: Failure) {
    f.Network? || (!IsSecurityDemand(f) && (f.status == 429 || f.status >= 500 || f.message.RateLimitedText?))
  }

  /** The performance id is malformed, or there is no such performance. */
  predicate NamesNoPerformance(f: Failure) {
    f.Api? && (f.status == 400 || f.code.PerformanceNotFound? || f.message.NotFoundText?)
  }

  /** What a failed entry shows: nothing new while it is retried quietly, and otherwise the surface of its cause. */
  lemma EntryFailureShows(q: Queue, background: bool, f: Failure, stale: bool)
    ensures var t := EntryFails(q, background, f, stale);
      var quiet := background && IsTrouble(f) && q.transientRetries < 3;
      && !t.ready && t.autoEnterTimer == q.autoEnterTimer && t.reentryUsed == q.reentryUsed
      && (IsNotOpen(f) ==>
            && f.Api? && f.status == 403 && (f.code.BookingNotOpen? || f.message.NotOpenText?)
            && t.surface == q.surface && t.retryTimer == q.retryTimer && t.transientRetries == 0)
      && (!IsNotOpen(f) && quiet ==>
            && t.surface == q.surface
            && (stale ==> t.retryTimer == q.retryTimer && t.transientRetries == q.transientRetries)
            && (!stale ==> t.retryTimer && t.transientRetries == q.transientRetries + 1))
      && (!IsNotOpen(f) && !quiet ==>
            && t.retryTimer == q.retryTimer && t.transientRetries == 0
            && (IsSecurityDemand(f) ==> MeetsDemand(f, t.surface))
            && (EntryEnds(f) ==>
                  t.surface == if f.status == 400 || NamesClosedSale(f) then Closed(NamesNoPerformance(f)) else Ended)
            && (!IsSecurityDemand(f) && !EntryEnds(f) ==> t.surface == Retry))
  {
  }

  /** What a failed check of the session shows: trouble changes nothing, anything else takes the user out. */
  lemma SessionFailureShows(q: Queue, f: Failure)
    ensures var t := SessionFails(q, f);
      && (!IsSecurityDemand(f) && !SessionEnds(f) ==> t == q)
      && (IsSecurityDemand(f) || SessionEnds(f) ==>
            && !t.ready && !t.autoEnterTimer
            && t.retryTimer == q.retryTimer && t.transientRetries == q.transientRetries && t.reentryUsed == q.reentryUsed)
      && (IsSecurityDemand(f) ==> MeetsDemand(f, t.surface))
      && (SessionEnds(f) ==>
            t.surface == if f.status == 403 && NamesClosedSale(f) then Closed(NamesNoPerformance(f)) else Ended)
  {
  }

  /** A user's entry starts afresh, an entry on its own only stops the timers. */
  lemma EntryStartsAfresh(q: Queue)
    ensures Next(q, UserEnters) == Start()
    ensures Next(q, RetryFires) == q.(autoEnterTimer := false, retryTimer := false)
  {
  }

  /** Before the opening the page shows the open time and enters again by itself. */
  lemma OpeningIsAwaited(q: Queue, background: bool, f: Failure, stale: bool)
    requires f.Api? && f.status == 403 && (f.code.BookingNotOpen? || f.message.NotOpenText?)
    ensures var t := Next(Next(q, EntryError(background, f, stale)), OpenTimeRead(false));
      t.surface == NotOpen && t.retryTimer && !t.ready && t.transientRetries == 0
    ensures Next(q, OpenTimeRead(true)) == q
  {
  }

  /** Turned off, the queue is back to loading; left, it stays as it is. Neither leaves a timer. */
  lemma NoTimerIsLeft(q: Queue)
    ensures var t := Next(q, Disables);
      !t.autoEnterTimer && !t.retryTimer && t.surface == Loading && !t.ready && t.accessEnded == q.accessEnded
    ensures var t := Next(q, Leaves);
      !t.autoEnterTimer && !t.retryTimer && t.surface == q.surface && t.ready == q.ready && t.accessEnded == q.accessEnded
  {
  }

  /** The user is let in by the timer and by entering now; an answer without a session asks to try again. */
  lemma LetIn(q: Queue)
    ensures Next(q, AutoEnters) == q.(autoEnterTimer := false, ready := true)
    ensures Next(q, EntersNow) == q.(ready := true)
    ensures Next(q, EntryNoSession) == q.(transientRetries := 0, surface := Retry)
    ensures forall n, windowClosed :: Next(q, EntrySnapshot(n, windowClosed)).transientRetries == 0
  {
  }

  /** Entries on its own that meet trouble again and again. */
  function Troubled(q: Queue, fs: seq<Failure>): Queue {
    if fs == [] then q
    else Next(Next(Troubled(q, fs[..|fs| - 1]), RetryFires), EntryError(true, fs[|fs| - 1], false))
  }

  /** Trouble is met by three quiet retries and then shown. */
  lemma {:induction false} TroubleIsRetriedThrice(q: Queue, fs: seq<Failure>)
    requires q.transientRetries == 0 && |fs| <= 4
    requires forall f <- fs :: IsTrouble(f) && !IsNotOpen(f)
    ensures var t := Troubled(q, fs);
      if |fs| < 4 then t.transientRetries == |fs| && t.surface == q.surface && (fs != [] ==> t.retryTimer)
      else t.surface == Retry && !t.retryTimer
  {
    if fs != [] {
      var f := fs[|fs| - 1];
      TroubleIsRetriedThrice(q, fs[..|fs| - 1]);
      EntryStartsAfresh(Troubled(q, fs[..|fs| - 1]));
      EntryFailureShows(Next(Troubled(q, fs[..|fs| - 1]), RetryFires), true, f, false);
    }
  }

  // ----- entering again on its own -----

  /** A closed admission makes the page schedule an entry at once. */
  predicate SchedulesReentry(q: Queue, e: Event) {
    match e
    case EntrySnapshot(n, windowClosed) => ClosedAdmission(n, windowClosed) && !q.reentryUsed
    case SessionSnapshot(n, windowClosed) => ClosedAdmission(n, windowClosed) && !q.reentryUsed
    case _ => false
  }

  predicate ClosedAdmission(n: Snapshot, windowClosed: bool) {
    IsAdmitted(n.state) && !IsRecoveryOnly(n) && windowClosed
  }

  lemma ReentryIsRemembered(q: Queue, e: Event)
    ensures SchedulesReentry(q, e) ==> Next(q, e).reentryUsed && Next(q, e).retryTimer
    ensures q.reentryUsed && !e.UserEnters? ==> Next(q, e).reentryUsed
  {
  }

  lemma {:induction false} StaysUsed(events: seq<Event>, i: nat, j: nat)
    requires i <= j <= |events| && Run(events[..i]).reentryUsed
    requires forall k | i <= k < j :: !events[k].UserEnters?
    ensures Run(events[..j]).reentryUsed
  {
    if i < j {
      StaysUsed(events, i, j - 1);
      assert events[..j][..j - 1] == events[..j - 1];
      ReentryIsRemembered(Run(events[..j - 1]), events[j - 1]);
    }
  }

  /** Between two entries the user starts the page re-enters on its own at most once. */
  lemma ReentersOnce(events: seq<Event>, i: nat, j: nat)
    requires i < j < |events|
    requires SchedulesReentry(Run(events[..i]), events[i]) && SchedulesReentry(Run(events[..j]), events[j])
    ensures exists k | i < k < j :: events[k].UserEnters?
  {
    if forall k | i < k < j :: !events[k].UserEnters? {
      assert events[..i + 1][..i] == events[..i];
      ReentryIsRemembered(Run(events[..i]), events[i]);
      StaysUsed(events, i + 1, j);
    }
  }
}

/** The hook's state and refs, updated by the handlers of its answers. */
module QueueHook {
  import opened QueueAccess

  class QueueHook {
    var surface: Surface
    var accessEndedByServer: bool
    var closedAdmissionReentryUsed: bool
    var isReady: bool
    var autoEnterTimer: bool
    var entryRetryTimer: bool
    var transientEntryRetryCount: nat

    function View(): Queue
      reads this
    {
      Queue(surface, accessEndedByServer, closedAdmissionReentryUsed, isReady, autoEnterTimer, entryRetryTimer, transientEntryRetryCount)
    }

    constructor ()
      ensures View() == Start()
    {
      surface, accessEndedByServer, closedAdmissionReentryUsed, isReady := Loading, false, false, false;
      autoEnterTimer, entryRetryTimer, transientEntryRetryCount := false, false, 0;
    }

    method OnSnapshot(n: Snapshot, windowClosed: bool)
      modifies this
      ensures View() == ApplySnapshot(old(View()), n, windowClosed)
    {
      if n.state.Expired? {
        autoEnterTimer, accessEndedByServer, surface, isReady := false, true, Ended, false;
        return;
      }
      if IsRecoveryOnly(n) {
        autoEnterTimer, accessEndedByServer, surface, isReady := false, false, Entered, false;
        return;
      }
      if IsAdmitted(n.state) {
        if windowClosed {
          autoEnterTimer, accessEndedByServer, surface, isReady := false, n.state.Admitted?, Ended, false;
          if !closedAdmissionReentryUsed {
            closedAdmissionReentryUsed := true;
            entryRetryTimer := true;
          }
          return;
        }
        accessEndedByServer, surface := false, Entered;
        if isReady { return; }
        autoEnterTimer := false;
        if IsImmediate(n) && n.autoEnter { isReady := true; } else { isReady, autoEnterTimer := false, true; }
        return;
      }
      autoEnterTimer, accessEndedByServer, surface, isReady := false, true, InLine, false;
    }

    method OnSessionError(f: Failure)
      modifies this
      ensures View() == SessionFails(old(View()), f)
    {
      var next := SessionSurface(f);
      if next.None? { return; }
      autoEnterTimer := false;
      accessEndedByServer := next.value.Closed? || next.value.Ended?;
      surface, isReady := next.value, false;
    }

    method Enter(background: bool)
      modifies this
      ensures View() == EnterQueue(old(View()), background)
    {
      autoEnterTimer, entryRetryTimer := false, false;
      if !background {
        transientEntryRetryCount, closedAdmissionReentryUsed := 0, false;
        accessEndedByServer, surface, isReady := false, Loading, false;
      }
    }

    method OnEntrySnapshot(n: Snapshot, windowClosed: bool)
      modifies this
      ensures View() == EntryAnswers(old(View()), n, windowClosed)
    {
      transientEntryRetryCount := 0;
      OnSnapshot(n, windowClosed);
    }

    method OnDisabled()
      modifies this
      ensures View() == Disable(old(View()))
    {
      autoEnterTimer, entryRetryTimer := false, false;
      surface, isReady := Loading, false;
    }

    method OnTornDown()
      modifies this
      ensures View() == StopTimers(old(View()))
    {
      autoEnterTimer, entryRetryTimer := false, false;
    }

    method OnOpenTime(stale: bool)
      modifies this
      ensures View() == OpenTimeKnown(old(View()), stale)
    {
      if stale { return; }
      surface, entryRetryTimer := NotOpen, true;
    }

    method OnEntryError(background: bool, f: Failure, stale: bool)
      modifies this
      ensures View() == EntryFails(old(View()), background, f, stale)
    {
      isReady := false;
      if IsNotOpen(f) {
        transientEntryRetryCount := 0;
        return;
      }
      if background && IsTransient(f) {
        var attempt := transientEntryRetryCount;
        if attempt < MAX_TRANSIENT_RETRIES {
          if stale { return; }
          transientEntryRetryCount := attempt + 1;
          entryRetryTimer := true;
          return;
        }
      }
      transientEntryRetryCount := 0;
      var next := EntrySurface(f);
      if next.Closed? || next.Ended? { accessEndedByServer := true; }
      surface := next;
    }
  }
}
