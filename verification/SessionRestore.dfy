/**
 Restoring a session after a page load, racing with login, logout and token
 renewal. Each function is one synchronous stretch of the code; an attempt is
 suspended between them in a phase.
 */
module SessionRestore {

  type Token = nat
  type User = nat

  datatype Option<+T> = None | Some(value: T)

  const RESTORE_RETRY_DELAYS_MS: seq<nat> := [500, 1500, 4000]
  const BACKGROUND_RESTORE_DELAYS_MS: seq<nat> := [10000, 30000, 60000]

  datatype Store = Store(accessToken: Option<Token>, user: Option<User>, isInitialized: bool, sessionRestorePending: bool)

  datatype Profile = Loaded(user: User) | Rejected | ProfileUnavailable
  datatype Refresh = Refreshed(accessToken: Token) | NoSession | RefreshUnavailable
  datatype Outcome = Restored | SignedOut | Unavailable | Superseded

  datatype Caller = Initial | Background(attempt: nat)

  /** Where a restore waits: for an answer, for a delay, or for its caller to resume. */
  datatype Phase =
    | ReadingUnconfirmed(token: Token)
    | Refreshing
    | ReadingProfile(token: Token, tries: nat)
    | Sleeping(token: Token, tries: nat)
    | Finished(outcome: Outcome)

  datatype Restore = Restore(caller: Caller, generation: nat, phase: Phase)

  datatype Timer = Timer(attempt: nat, delayMs: nat)

  datatype Page = Page(
    store: Store, generation: nat, unconfirmed: Option<Token>, timer: Option<Timer>,
    restores: map<nat, Restore>, nextRestore: nat, hasWindow: bool)

  function Init(hasWindow: bool): Page {
    Page(Store(None, None, false, false), 0, None, None, map[], 0, hasWindow)
  }

  // ----- the store and its subscriber -----

  predicate FlagsOnly(before: Store, after: Store) {
    && after.accessToken == before.accessToken && after.user == before.user
    && (after.isInitialized != before.isInitialized || after.sessionRestorePending != before.sessionRestorePending)
  }

  /** A store update that notifies the subscriber. */
  function Notify(s: Page, after: Store): Page {
    if FlagsOnly(s.store, after) then s.(store := after)
    else s.(store := after, generation := s.generation + 1, unconfirmed := None)
  }

  function SetAuth(s: Page, token: Token, user: Option<User>): Page {
    Notify(s, Store(Some(token), user, true, false))
  }

  function ClearAuth(s: Page): Page {
    Notify(s, s.store.(accessToken := None, user := None))
  }

  function SetInitialized(s: Page): Page {
    Notify(s, s.store.(isInitialized := true))
  }

  /** An unchanged value notifies nobody. */
  function SetPending(s: Page, pending: bool): Page {
    if s.store.sessionRestorePending == pending then s else Notify(s, s.store.(sessionRestorePending := pending))
  }

  // ----- one restore -----

  predicate IsSuperseded(s: Page, generation: nat) {
    generation != s.generation || s.store.accessToken.Some?
  }

  /** The update is the restore's own: the subscriber ignores it. */
  function ApplyRestored(s: Page, generation: nat, token: Token, user: User): (Page, bool) {
    if IsSuperseded(s, generation) then (s, false)
    else (s.(store := Store(Some(token), Some(user), true, false)), true)
  }

  function Park(s: Page, id: nat, r: Restore, phase: Phase): Page {
    s.(restores := s.restores[id := r.(phase := phase)])
  }

  function Apply(s: Page, id: nat, r: Restore, token: Token, user: User): Page {
    var (t, applied) := ApplyRestored(s, r.generation, token, user);
    Park(t, id, r, Finished(if applied then Restored else Superseded))
  }

  function Begin(s: Page, caller: Caller): Page {
    var phase := if s.unconfirmed.Some? then ReadingUnconfirmed(s.unconfirmed.value) else Refreshing;
    s.(restores := s.restores[s.nextRestore := Restore(caller, s.generation, phase)], nextRestore := s.nextRestore + 1)
  }

  function UnconfirmedRead(s: Page, id: nat, r: Restore, token: Token, profile: Profile): Page {
    if IsSuperseded(s, r.generation) then Park(s, id, r, Finished(Superseded))
    else if profile.ProfileUnavailable? then Park(s, id, r, Finished(Unavailable))
    else
      var t := s.(unconfirmed := None);
      if profile.Loaded? then Apply(t, id, r, token, profile.user) else Park(t, id, r, Refreshing)
  }

  function RefreshAnswered(s: Page, id: nat, r: Restore, refresh: Refresh): Page {
    if IsSuperseded(s, r.generation) then Park(s, id, r, Finished(Superseded))
    else
      match refresh
      case NoSession => Park(s, id, r, Finished(SignedOut))
      case RefreshUnavailable => Park(s, id, r, Finished(Unavailable))
      case Refreshed(token) => Park(s, id, r, ReadingProfile(token, 0))
  }

  function ProfileRead(s: Page, id: nat, r: Restore, token: Token, tries: nat, profile: Profile): Page {
    if profile.ProfileUnavailable? && !IsSuperseded(s, r.generation) && tries < |RESTORE_RETRY_DELAYS_MS| then
      Park(s, id, r, Sleeping(token, tries))
    else if IsSuperseded(s, r.generation) then Park(s, id, r, Finished(Superseded))
    else
      match profile
      case Loaded(user) => Apply(s, id, r, token, user)
      case ProfileUnavailable => Park(s.(unconfirmed := Some(token)), id, r, Finished(Unavailable))
      case Rejected => Park(s, id, r, Finished(SignedOut))
  }

  // ----- the callers of a restore -----

  function InitializeAuth(s: Page): Page {
    if s.store.isInitialized || exists id <- s.restores :: s.restores[id].caller.Initial? then s
    else Begin(s, Initial)
  }

  function Schedule(s: Page, attempt: nat): Page {
    if !s.hasWindow || s.timer.Some? then s
    else
      var last := |BACKGROUND_RESTORE_DELAYS_MS| - 1;
      var delay := BACKGROUND_RESTORE_DELAYS_MS[if attempt < last then attempt else last];
      SetPending(s, true).(timer := Some(Timer(attempt, delay)))
  }

  /** The caller of a finished restore resumes. */
  function Deliver(s: Page, id: nat, caller: Caller, outcome: Outcome): Page {
    var t := s.(restores := s.restores - {id});
    match caller
    case Initial =>
      var u := if outcome.Unavailable? then Schedule(t, 0) else t;
      if u.store.isInitialized then u else SetInitialized(u)
    case Background(attempt) =>
      if outcome.Unavailable? then Schedule(t, attempt + 1) else SetPending(t, false)
  }

  /** A restore throws, which no step of it is expected to do. */
  function Throw(s: Page, id: nat, caller: Caller): Page {
    var t := s.(restores := s.restores - {id});
    if caller.Initial? then t else SetPending(t, false)
  }

  function TimerFires(s: Page, attempt: nat): Page {
    var t := s.(timer := None);
    if t.store.accessToken.Some? then SetPending(t.(unconfirmed := None), false)
    else Begin(t, Background(attempt))
  }

  // ----- events -----

  datatype Event =
    | LogIn(token: Token, user: Option<User>)
    | LogOut
    | Mount
    | GotProfile(id: nat, profile: Profile)
    | GotRefresh(id: nat, refresh: Refresh)
    | Slept(id: nat)
    | Resumed(id: nat)
    | Threw(id: nat)
    | Fired

  predicate Enabled(s: Page, e: Event) {
    match e
    case LogIn(_, _) | LogOut | Mount => true
    case GotProfile(id, _) => id in s.restores && (s.restores[id].phase.ReadingUnconfirmed? || s.restores[id].phase.ReadingProfile?)
    case GotRefresh(id, _) => id in s.restores && s.restores[id].phase.Refreshing?
    case Slept(id) => id in s.restores && s.restores[id].phase.Sleeping?
    case Resumed(id) => id in s.restores && s.restores[id].phase.Finished?
    case Threw(id) => id in s.restores
    case Fired => s.timer.Some?
  }

  function Next(s: Page, e: Event): Page
    requires Enabled(s, e)
  {
    match e
    case LogIn(token, user) => SetAuth(s, token, user)
    case LogOut => ClearAuth(s)
    case Mount => InitializeAuth(s)
    case GotProfile(id, profile) =>
      var r := s.restores[id];
      if r.phase.ReadingUnconfirmed? then UnconfirmedRead(s, id, r, r.phase.token, profile)
      else ProfileRead(s, id, r, r.phase.token, r.phase.tries, profile)
    case GotRefresh(id, refresh) => RefreshAnswered(s, id, s.restores[id], refresh)
    case Slept(id) =>
      var r := s.restores[id];
      Park(s, id, r, ReadingProfile(r.phase.token, r.phase.tries + 1))
    case Resumed(id) => Deliver(s, id, s.restores[id].caller, s.restores[id].phase.outcome)
    case Threw(id) => Throw(s, id, s.restores[id].caller)
    case Fired => TimerFires(s, s.timer.value.attempt)
  }

  /** A login, logout, token renewal or profile update: everything but restoring. */
  predicate IsSessionChange(e: Event) {
    e.LogIn? || e.LogOut?
  }

  // ----- the invariant -----

  predicate HasBackground(s: Page) {
    exists id <- s.restores :: s.restores[id].caller.Background?
  }

  predicate OneRestore(s: Page) {
    && (forall a <- s.restores, b <- s.restores :: a == b)
    && (s.restores != map[] ==> s.timer.None?)
    && (forall a <- s.restores :: a < s.nextRestore && s.restores[a].generation <= s.generation)
  }

  /** Until the page is initialized only the first restore runs. */
  predicate StartsOnce(s: Page) {
    && (!s.store.isInitialized ==> s.timer.None? && !HasBackground(s) && !s.store.sessionRestorePending && s.store.accessToken.None?)
    && (s.timer.Some? || HasBackground(s) ==> s.hasWindow)
  }

  predicate PendingIsBacked(s: Page) {
    s.store.sessionRestorePending ==> s.timer.Some? || HasBackground(s)
  }

  predicate TokenIsUnconfirmed(s: Page) {
    && (s.store.accessToken.None? ==> s.store.user.None?)
    && (s.unconfirmed.Some? ==> s.store.accessToken.None?)
    && forall a <- s.restores :: TokenFits(s, s.restores[a])
  }

  /** What the phase of a restore says about the kept token. */
  predicate TokenFits(s: Page, r: Restore) {
    match r.phase
    case ReadingUnconfirmed(token) => s.unconfirmed.None? || (s.unconfirmed.value == token && r.generation == s.generation)
    case Refreshing | ReadingProfile(_, _) | Sleeping(_, _) => s.unconfirmed.None?
    case Finished(outcome) => !outcome.Unavailable? ==> s.unconfirmed.None?
  }

  predicate Inv(s: Page) {
    OneRestore(s) && StartsOnce(s) && PendingIsBacked(s) && TokenIsUnconfirmed(s)
  }

  lemma InitInv(hasWindow: bool)
    ensures Inv(Init(hasWindow))
  {
  }

  lemma StepKeepsOneRestore(s: Page, e: Event)
    requires Inv(s) && Enabled(s, e)
    ensures OneRestore(Next(s, e))
  {
  }

  lemma StepKeepsStart(s: Page, e: Event)
    requires Inv(s) && Enabled(s, e)
    ensures StartsOnce(Next(s, e))
  {
  }

  lemma StepKeepsPending(s: Page, e: Event)
    requires Inv(s) && Enabled(s, e)
    ensures PendingIsBacked(Next(s, e))
  {
    var t := Next(s, e);
    if t.store.sessionRestorePending && t.timer.None? {
      if e.Fired? {
        assert s.nextRestore in t.restores && t.restores[s.nextRestore].caller.Background?;
      } else {
        var id :| id in s.restores && s.restores[id].caller.Background?;
        assert id in t.restores && t.restores[id].caller == s.restores[id].caller;
      }
    }
  }

  lemma StepKeepsToken(s: Page, e: Event)
    requires Inv(s) && Enabled(s, e)
    ensures TokenIsUnconfirmed(Next(s, e))
  {
    var t := Next(s, e);
    forall a <- t.restores ensures TokenFits(t, t.restores[a]) {
      if a in s.restores { assert TokenFits(s, s.restores[a]); }
    }
  }

  lemma StepInv(s: Page, e: Event)
    requires Inv(s) && Enabled(s, e)
    ensures Inv(Next(s, e))
  {
    StepKeepsOneRestore(s, e);
    StepKeepsStart(s, e);
    StepKeepsPending(s, e);
    StepKeepsToken(s, e);
  }
}
