/**
 * The bridge between the external OIDC client and the log: the seven
 * lifecycle signals, the authentication-flip and error watchers, the
 * login/logout/refresh actions with their `refreshing` flag, and the
 * countdown value shown by the status card.
 */
module AuthDebugPanel {
  import opened Wrappers
  import opened Types
  import opened Helpers
  import opened LogRecorder
  import StatusCard

  // ---------------------------------------------------------------------
  // Lifecycle signals
  // ---------------------------------------------------------------------

  /** The seven client events the panel subscribes to. */
  datatype Signal = TokenExpiring | TokenExpired | SilentRenewError | UserLoaded | UserUnloaded | UserSignedIn | UserSignedOut

  /**
   * One delivery of a signal. `detail` is the error message for a silent
   * renew failure, and the formatted expiry time for a loaded user (None
   * when the user carries no expiry).
   */
  datatype Notification = Notification(signal: Signal, detail: Option<string>)

  /** The subscription order of the seven `add...` calls. */
  const AllSignals: seq<Signal> :=
    [TokenExpiring, TokenExpired, SilentRenewError, UserLoaded, UserUnloaded, UserSignedIn, UserSignedOut]

  /** Every signal is subscribed, once. */
  lemma AllSignalsListedOnce()
    ensures forall s: Signal :: s in AllSignals
    ensures |AllSignals| == 7
    ensures forall i, j :: 0 <= i < j < |AllSignals| ==> AllSignals[i] != AllSignals[j]
  {
    forall s: Signal
      ensures s in AllSignals
    {
      assert AllSignals[SignalIndex(s)] == s;
    }
  }

  /** The position of a signal in the subscription order. */
  function SignalIndex(s: Signal): nat {
    match s
    case TokenExpiring => 0
    case TokenExpired => 1
    case SilentRenewError => 2
    case UserLoaded => 3
    case UserUnloaded => 4
    case UserSignedIn => 5
    case UserSignedOut => 6
  }

  /** The fixed level of each signal's log entry. */
  function SignalLevel(s: Signal): (l: LogLevel)
    ensures l == Error <==> s == TokenExpired || s == SilentRenewError
    ensures l != Info
  {
    match s
    case TokenExpiring => Warning
    case TokenExpired => Error
    case SilentRenewError => Error
    case UserLoaded => Event
    case UserUnloaded => Event
    case UserSignedIn => Success
    case UserSignedOut => Event
  }

  /** The one entry a signal's handler records. */
  function NotificationLog(n: Notification): (r: LogRequest)
    ensures r.level == SignalLevel(n.signal)
  {
    match n.signal
    case TokenExpiring => LogRequest(Warning, "Token expiring soon", Some("Auto-refresh will trigger"))
    case TokenExpired => LogRequest(Error, "Token expired!", Some("Manual refresh required"))
    case SilentRenewError => LogRequest(Error, "Silent renew failed", n.detail)
    case UserLoaded => LogRequest(Event, "User loaded", Some("Expires: " + TimeOrNA(n.detail)))
    case UserUnloaded => LogRequest(Event, "User unloaded", None)
    case UserSignedIn => LogRequest(Success, "Signed in successfully", None)
    case UserSignedOut => LogRequest(Event, "Signed out from Keycloak", None)
  }

  /** A formatted expiry time, or "N/A" when the user has none. */
  function TimeOrNA(t: Option<string>): string {
    if t.Some? then t.value else "N/A"
  }

  // ---------------------------------------------------------------------
  // Watchers
  // ---------------------------------------------------------------------

  function AuthStateLog(isAuthenticated: bool): LogRequest {
    if isAuthenticated then LogRequest(Success, "Authentication state: AUTHENTICATED", None)
    else LogRequest(Info, "Authentication state: NOT AUTHENTICATED", None)
  }

  /** One run of the effect on `isAuthenticated`, given the previously seen value (None before the first). */
  function AuthFlipLog(prev: Option<bool>, isAuthenticated: bool): (r: seq<LogRequest>)
    ensures |r| <= 1
    ensures r != [] ==> r[0] == AuthStateLog(isAuthenticated)
    ensures prev.None? || prev == Some(isAuthenticated) ==> r == []
  {
    if prev.Some? && prev.value != isAuthenticated then [AuthStateLog(isAuthenticated)] else []
  }

  /** What the effect records over a run of observed values, starting from `prev`. */
  function Replay(prev: Option<bool>, obs: seq<bool>): (r: seq<LogRequest>)
    ensures |r| <= |obs|
    decreases |obs|
  {
    if obs == [] then [] else AuthFlipLog(prev, obs[0]) + Replay(Some(obs[0]), obs[1..])
  }

  /** Reference definition: one entry for every observation that differs from the one before it. */
  function Flips(obs: seq<bool>): (r: seq<LogRequest>)
    ensures obs != [] ==> |r| < |obs|
    decreases |obs|
  {
    if |obs| < 2 then []
    else
      var last := if obs[|obs| - 1] != obs[|obs| - 2] then [AuthStateLog(obs[|obs| - 1])] else [];
      Flips(obs[..|obs| - 1]) + last
  }

  lemma {:induction false} FlipsCons(p: bool, obs: seq<bool>)
    requires obs != []
    ensures Flips([p] + obs) == AuthFlipLog(Some(p), obs[0]) + Flips(obs)
    decreases |obs|
  {
    var whole := [p] + obs;
    if |obs| == 1 {
      assert whole[..|whole| - 1] == [p];
    } else {
      var init := obs[..|obs| - 1];
      assert whole[..|whole| - 1] == [p] + init;
      FlipsCons(p, init);
    }
  }

  lemma {:induction false} ReplayFrom(p: bool, obs: seq<bool>)
    ensures Replay(Some(p), obs) == Flips([p] + obs)
    decreases |obs|
  {
    if obs != [] {
      ReplayFrom(obs[0], obs[1..]);
      assert [obs[0]] + obs[1..] == obs;
      FlipsCons(p, obs);
    }
  }

  /** The watcher records exactly the flips: nothing for the first observation, one entry per change. */
  lemma ReplayIsFlips(obs: seq<bool>)
    ensures Replay(None, obs) == Flips(obs)
  {
    if obs != [] {
      ReplayFrom(obs[0], obs[1..]);
      assert [obs[0]] + obs[1..] == obs;
    }
  }

  /**
   * The recorded flip entries alternate between AUTHENTICATED and NOT
   * AUTHENTICATED, and the last one names the current state.
   */
  lemma {:induction false} FlipsAlternate(obs: seq<bool>)
    ensures var f := Flips(obs);
      && (f != [] ==> f[|f| - 1] == AuthStateLog(obs[|obs| - 1]))
      && (forall i :: 0 <= i < |f| - 1 ==> f[i] != f[i + 1])
    decreases |obs|
  {
    if |obs| >= 2 {
      var init := obs[..|obs| - 1];
      FlipsAlternate(init);
      assert init[|init| - 1] == obs[|obs| - 2];
    }
  }

  /** The effect on the client's error slot: a present error records one `error` entry with its message. */
  function ErrorLog(error: Option<string>): (r: seq<LogRequest>)
    ensures |r| == (if error.Some? then 1 else 0)
    ensures forall i :: 0 <= i < |r| ==> r[i].level == Error && r[i].data == error
  {
    if error.Some? then [LogRequest(Error, "Auth error", error)] else []
  }

  // ---------------------------------------------------------------------
  // Actions
  // ---------------------------------------------------------------------

  datatype LoginMethod = LoginRedirect | LoginPopup
  datatype LogoutMethod = LogoutRedirect | LogoutSilent | LogoutLocal

  /** How an awaited client call ended; a failure carries the error's message, if any. */
  datatype Outcome = Completed | Failed(message: Option<string>)

  /** How `signinSilent()` ended: a user (with its formatted expiry, if any), no user, or a failure. */
  datatype RenewOutcome = Renewed(expiry: Option<string>) | NoUser | RenewFailed(message: Option<string>)

  function LoginName(m: LoginMethod): string {
    match m
    case LoginRedirect => "redirect"
    case LoginPopup => "popup"
  }

  function LogoutName(m: LogoutMethod): string {
    match m
    case LogoutRedirect => "redirect"
    case LogoutSilent => "silent"
    case LogoutLocal => "local"
  }

  /** `handleLogin(method)`: the start entry, then the outcome's entry (none after a redirect). */
  function LoginLog(m: LoginMethod, o: Outcome): (r: seq<LogRequest>)
    ensures ReportsOutcome(r, o.Failed?)
  {
    [LogRequest(Info, "Starting login (" + LoginName(m) + ")...", None)]
    + match o
      case Failed(msg) => [LogRequest(Error, "Login failed", msg)]
      case Completed => if m == LoginPopup then [LogRequest(Success, "Popup login completed", None)] else []
  }

  /** `handleLogout(method)`. */
  function LogoutLog(m: LogoutMethod, o: Outcome): (r: seq<LogRequest>)
    ensures ReportsOutcome(r, o.Failed?)
  {
    [LogRequest(Info, "Starting logout (" + LogoutName(m) + ")...", None)]
    + match o
      case Failed(msg) => [LogRequest(Error, "Logout failed", msg)]
      case Completed =>
        match m
        case LogoutRedirect => []
        case LogoutSilent => [LogRequest(Success, "Silent logout completed", None)]
        case LogoutLocal => [LogRequest(Success, "Local user removed", None)]
  }

  const RefreshStart: LogRequest := LogRequest(Info, "Starting token refresh...", None)

  /** What `handleRefresh` records once `signinSilent()` has settled. */
  function RenewLog(o: RenewOutcome): (r: seq<LogRequest>)
    ensures |r| <= 1 && (r == [] <==> o.NoUser?)
    ensures r != [] ==> (r[0].level == Error <==> o.RenewFailed?)
  {
    match o
    case Renewed(expiry) => [LogRequest(Success, "Token refreshed!", Some("New expiry: " + TimeOrNA(expiry)))]
    case NoUser => []
    case RenewFailed(msg) => [LogRequest(Error, "Refresh failed", msg)]
  }

  /** `handleRefresh()`: the start entry, then the outcome's entry. */
  function RefreshLog(o: RenewOutcome): (r: seq<LogRequest>)
    ensures ReportsOutcome(r, o.RenewFailed?)
  {
    [RefreshStart] + RenewLog(o)
  }

  /**
   * The shape every action's log has: an `info` start entry, then at most one
   * more entry, which is an `error` one exactly when the action failed.
   */
  predicate ReportsOutcome(r: seq<LogRequest>, failed: bool) {
    && 1 <= |r| <= 2
    && r[0].level == Info
    && (failed ==> |r| == 2)
    && (|r| == 2 ==> (r[1].level == Error <==> failed))
  }

  /** Failures are reported, never raised: each action's log has the shape above for every outcome. */
  lemma ActionsReportOutcomes(lm: LoginMethod, om: LogoutMethod, o: Outcome, ro: RenewOutcome)
    ensures ReportsOutcome(LoginLog(lm, o), o.Failed?)
    ensures ReportsOutcome(LogoutLog(om, o), o.Failed?)
    ensures ReportsOutcome(RefreshLog(ro), ro.RenewFailed?)
    ensures |LoginLog(lm, o)| == (if o.Completed? && lm == LoginRedirect then 1 else 2)
    ensures |LogoutLog(om, o)| == (if o.Completed? && om == LogoutRedirect then 1 else 2)
    ensures |RefreshLog(ro)| == (if ro.NoUser? then 1 else 2)
  {
  }

  // ---------------------------------------------------------------------
  // Countdown and header
  // ---------------------------------------------------------------------

  /** The timer effect's value: empty without an expiry (`!expires_at`), otherwise the formatter's output. */
  function TimerValue(expiresAt: Option<int>, now: int): (t: TimeLeft)
    ensures expiresAt.None? || expiresAt.value == 0 ==> t == TimeLeft("", 0)
    ensures expiresAt.Some? && expiresAt.value != 0 ==> t == FormatTimeLeft(expiresAt.value, now)
    ensures t.text == "" <==> expiresAt.None? || expiresAt.value == 0
    ensures t.seconds >= 0
  {
    if expiresAt.None? || expiresAt.value == 0 then TimeLeft("", 0) else FormatTimeLeft(expiresAt.value, now)
  }

  /**
   * What the header and the card derive from the timer: expired exactly when
   * an expiry is set and has passed, expiring soon exactly when under two
   * minutes are left, never both.
   */
  lemma TimerClassification(expiresAt: Option<int>, now: int)
    ensures var t := TimerValue(expiresAt, now);
      && (StatusCard.IsExpired(t) <==> expiresAt.Some? && expiresAt.value != 0 && expiresAt.value <= now)
      && (StatusCard.IsExpiringSoon(t) <==> expiresAt.Some? && expiresAt.value != 0 && 0 < expiresAt.value - now < 120)
      && !(StatusCard.IsExpired(t) && StatusCard.IsExpiringSoon(t))
  {
    if expiresAt.Some? && expiresAt.value != 0 {
      StatusCard.ClassifyFormatted(expiresAt.value, now);
    }
  }

  /** A session without an expiry shows "N/A" in the success colour, and is neither expired nor expiring. */
  lemma NoExpiryShowsNA(isAuthenticated: bool, now: int)
    ensures var t := TimerValue(None, now);
      && !StatusCard.IsExpired(t) && !StatusCard.IsExpiringSoon(t)
      && StatusCard.ExpiryClasses(t) == ["text-success"]
      && (isAuthenticated ==> StatusCard.ExpiresRow(isAuthenticated, t) == Some("N/A"))
  {
  }

  /** The Expires In row reads "N/A" exactly when the session has no expiry. */
  lemma ExpiresRowShowsNAWithoutExpiry(expiresAt: Option<int>, now: int)
    ensures StatusCard.ExpiresRow(true, TimerValue(expiresAt, now)) == Some("N/A")
      <==> expiresAt.None? || expiresAt.value == 0
  {
    var na := "N/A";
    assert na[|na| - 1] == 'A';
  }

  /** The header refresh button's text. */
  function RefreshLabel(refreshing: bool, isExpired: bool): (caption: string)
    ensures caption != ""
    ensures caption == "Refreshing..." <==> refreshing
  {
    if refreshing then "Refreshing..." else if isExpired then "Refresh!" else "Refresh"
  }

  /** The button text tells the three states apart: in flight, expired, or neither. */
  lemma RefreshLabelIsInformative(r1: bool, e1: bool, r2: bool, e2: bool)
    ensures RefreshLabel(r1, e1) == RefreshLabel(r2, e2) <==> r1 == r2 && (r1 || e1 == e2)
  {
  }

  // ---------------------------------------------------------------------
  // The panel's state
  // ---------------------------------------------------------------------

  class Panel {
    const log: Recorder
    /** `prevAuthState.current`: None until the first observation. */
    var prevAuthState: Option<bool>
    var refreshing: bool
    /** The unsubscribe handles collected at subscribe time, one per signal. */
    var unsubscribes: seq<Signal>
    /** The signals whose handlers are currently registered with the client. */
    var live: set<Signal>

    ghost predicate Valid()
      reads this, log
    {
      log.Valid() && live == (set s | s in unsubscribes)
    }

    constructor (log: Recorder)
      requires log.Valid()
      ensures Valid() && this.log == log
      ensures prevAuthState == None && !refreshing && unsubscribes == [] && live == {}
    {
      this.log := log;
      prevAuthState := None;
      refreshing := false;
      unsubscribes := [];
      live := {};
    }

    /** The subscribe effect: when the client offers events, register all seven handlers. */
    method Subscribe(eventsAvailable: bool)
      requires Valid() && live == {}
      modifies this
      ensures Valid()
      ensures eventsAvailable ==> unsubscribes == AllSignals && (forall s: Signal :: s in live)
      ensures !eventsAvailable ==> unsubscribes == old(unsubscribes) && live == {}
      ensures prevAuthState == old(prevAuthState) && refreshing == old(refreshing)
    {
      if eventsAvailable {
        unsubscribes := AllSignals;
        live := set s | s in AllSignals;
        AllSignalsListedOnce();
      }
    }

    /** The subscribe effect's cleanup: every collected handle is invoked. */
    method Teardown()
      requires Valid()
      modifies this
      ensures Valid() && live == {} && unsubscribes == []
      ensures prevAuthState == old(prevAuthState) && refreshing == old(refreshing)
    {
      var i := 0;
      while i < |unsubscribes|
        invariant 0 <= i <= |unsubscribes|
        invariant unsubscribes == old(unsubscribes)
        invariant live == old(live) - (set j | 0 <= j < i :: unsubscribes[j])
        invariant prevAuthState == old(prevAuthState) && refreshing == old(refreshing)
      {
        live := live - {unsubscribes[i]};
        i := i + 1;
      }
      assert (set j | 0 <= j < |unsubscribes| :: unsubscribes[j]) == (set s | s in unsubscribes);
      unsubscribes := [];
    }

    /**
     * A remount under a new key: the old handlers are all released before the
     * new ones are registered, and the fresh instance has seen no auth state.
     */
    method Remount(eventsAvailable: bool)
      requires Valid()
      modifies this
      ensures Valid()
      ensures eventsAvailable ==> unsubscribes == AllSignals && (forall s: Signal :: s in live)
      ensures !eventsAvailable ==> live == {}
      ensures prevAuthState == None && !refreshing
    {
      Teardown();
      prevAuthState := None;
      refreshing := false;
      Subscribe(eventsAvailable);
    }

    /** The client fires a signal: a registered handler records its one entry. */
    method Notify(n: Notification)
      requires Valid()
      modifies log
      ensures Valid()
      ensures n.signal in live ==> log.State() == Record(old(log.State()), NotificationLog(n))
      ensures n.signal !in live ==> log.State() == old(log.State())
    {
      if n.signal in live {
        log.Add(NotificationLog(n));
      }
    }

    /** The effect on `isAuthenticated`. */
    method ObserveAuth(isAuthenticated: bool)
      requires Valid()
      modifies this, log
      ensures Valid()
      ensures prevAuthState == Some(isAuthenticated)
      ensures log.State() == RecordAll(old(log.State()), AuthFlipLog(old(prevAuthState), isAuthenticated))
      ensures refreshing == old(refreshing) && live == old(live) && unsubscribes == old(unsubscribes)
    {
      ghost var st0 := log.State();
      RecordAllShort(st0, AuthStateLog(isAuthenticated), AuthStateLog(isAuthenticated));
      if prevAuthState.Some? && prevAuthState.value != isAuthenticated {
        if isAuthenticated {
          log.AddLog(Success, "Authentication state: AUTHENTICATED", None);
        } else {
          log.AddLog(Info, "Authentication state: NOT AUTHENTICATED", None);
        }
      }
      prevAuthState := Some(isAuthenticated);
    }

    /** The effect on the client's error slot. */
    method ObserveError(error: Option<string>)
      requires Valid()
      modifies log
      ensures Valid()
      ensures log.State() == RecordAll(old(log.State()), ErrorLog(error))
    {
      ghost var st0 := log.State();
      RecordAllShort(st0, LogRequest(Error, "Auth error", error), LogRequest(Error, "Auth error", error));
      if error.Some? {
        log.AddLog(Error, "Auth error", error);
      }
    }

    /** Copying a token records one `success` entry (the clipboard write itself is not modelled). */
    method CopyToClipboard()
      requires Valid()
      modifies log
      ensures Valid()
      ensures log.State() == Record(old(log.State()), LogRequest(Success, "Copied to clipboard", None))
    {
      log.AddLog(Success, "Copied to clipboard", None);
    }

    /** `handleLogin(method)` with the awaited call's outcome. */
    method HandleLogin(m: LoginMethod, o: Outcome)
      requires Valid()
      modifies log
      ensures Valid()
      ensures log.State() == RecordAll(old(log.State()), LoginLog(m, o))
    {
      ghost var st0 := log.State();
      log.AddLog(Info, "Starting login (" + LoginName(m) + ")...", None);
      RecordAllShort(st0, LoginLog(m, o)[0], LoginLog(m, o)[|LoginLog(m, o)| - 1]);
      match o
      case Failed(msg) =>
        log.AddLog(Error, "Login failed", msg);
      case Completed =>
        if m == LoginPopup {
          log.AddLog(Success, "Popup login completed", None);
        }
    }

    /** `handleLogout(method)` with the awaited call's outcome. */
    method HandleLogout(m: LogoutMethod, o: Outcome)
      requires Valid()
      modifies log
      ensures Valid()
      ensures log.State() == RecordAll(old(log.State()), LogoutLog(m, o))
    {
      ghost var st0 := log.State();
      log.AddLog(Info, "Starting logout (" + LogoutName(m) + ")...", None);
      RecordAllShort(st0, LogoutLog(m, o)[0], LogoutLog(m, o)[|LogoutLog(m, o)| - 1]);
      match o
      case Failed(msg) =>
        log.AddLog(Error, "Logout failed", msg);
      case Completed =>
        match m
        case LogoutRedirect =>
        case LogoutSilent =>
          log.AddLog(Success, "Silent logout completed", None);
        case LogoutLocal =>
          log.AddLog(Success, "Local user removed", None);
    }

    /** `handleRefresh()` up to its `await`: the flag is raised before the start entry is recorded. */
    method BeginRefresh()
      requires Valid()
      modifies this, log
      ensures Valid()
      ensures refreshing && RefreshDisabled()
      ensures log.State() == Record(old(log.State()), RefreshStart)
      ensures prevAuthState == old(prevAuthState) && live == old(live) && unsubscribes == old(unsubscribes)
    {
      refreshing := true;
      log.Add(RefreshStart);
    }

    /** `handleRefresh()` after `signinSilent()` settles: the outcome is recorded and `finally` lowers the flag. */
    method CompleteRefresh(o: RenewOutcome)
      requires Valid()
      modifies this, log
      ensures Valid()
      ensures !refreshing && !RefreshDisabled()
      ensures log.State() == RecordAll(old(log.State()), RenewLog(o))
      ensures prevAuthState == old(prevAuthState) && live == old(live) && unsubscribes == old(unsubscribes)
    {
      ghost var st0 := log.State();
      match o {
        case Renewed(expiry) =>
          log.AddLog(Success, "Token refreshed!", Some("New expiry: " + TimeOrNA(expiry)));
        case NoUser =>
        case RenewFailed(msg) =>
          log.AddLog(Error, "Refresh failed", msg);
      }
      RecordAllShort(st0, RefreshStart, RefreshStart);
      if o.Renewed? || o.RenewFailed? {
        RecordAllShort(st0, RenewLog(o)[0], RenewLog(o)[0]);
      }
      refreshing := false;
    }

    /** The whole of `handleRefresh()` when nothing else runs during the `await`. */
    method HandleRefresh(o: RenewOutcome)
      requires Valid()
      modifies this, log
      ensures Valid()
      ensures !refreshing && !RefreshDisabled()
      ensures log.State() == RecordAll(old(log.State()), RefreshLog(o))
      ensures prevAuthState == old(prevAuthState) && live == old(live) && unsubscribes == old(unsubscribes)
    {
      ghost var st0 := log.State();
      BeginRefresh();
      CompleteRefresh(o);
      RecordAllShort(st0, RefreshStart, RefreshStart);
      if o.Renewed? || o.RenewFailed? {
        RecordAllShort(st0, RefreshStart, RenewLog(o)[0]);
        RecordAllShort(Record(st0, RefreshStart), RenewLog(o)[0], RenewLog(o)[0]);
      }
    }

    /** The refresh buttons are disabled while a refresh is in flight. */
    function RefreshDisabled(): (disabled: bool)
      reads this
      ensures disabled <==> refreshing
    {
      refreshing
    }
  }
}
