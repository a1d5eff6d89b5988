/**
 * The admin session guard: a two-key tab-local store holding the id of the
 * user who passed two-factor verification and the absolute expiry of that
 * verification (epoch milliseconds, written as a decimal string), plus the
 * in-memory guard state that decides whether the admin area is unlocked,
 * the countdown shown to the user and the current route.
 *
 * Time is the parameter `now` (what `Date.now()` returns); the identity
 * provider, the 2FA status view and the verification endpoint are inputs.
 */
module AdminSession {
  import opened Wrappers
  import opened Text

  /** Ten minutes of inactivity, in milliseconds. */
  const IdleTimeout: int := 10 * 60 * 1000

  const AdminPrefix: string := "/admin"
  const LockedPath: string := "/admin/locked"

  const SettingsMissingError: string := "2FA ayarlar\U{0131} bulunamad\U{0131}"
  const BlockedError: string := "Hesab\U{0131}n\U{0131}z bloklanm\U{0131}\U{015F}. Y\U{00F6}netici ile ileti\U{015F}ime ge\U{00E7}in."
  const NoSessionError: string := "Oturum bulunamad\U{0131}"
  const VerificationFailedError: string := "Do\U{011F}rulama ba\U{015F}ar\U{0131}s\U{0131}z"
  const VerificationCrashedError: string := "Do\U{011F}rulama s\U{0131}ras\U{0131}nda hata olu\U{015F}tu"

  /** The two session-storage keys: the verified user's id and the expiry string. */
  datatype TabStore = TabStore(user: Option<string>, expiry: Option<string>)

  const EmptyStore: TabStore := TabStore(None, None)

  /** The store after `saveSession(userId)` at time `now`. */
  function Saved(userId: string, now: int): TabStore {
    TabStore(Some(userId), Some(IntToDecimal(now + IdleTimeout)))
  }

  /** What one read of the store returns, and the store it leaves behind. */
  datatype StoreRead = StoreRead(expiry: Option<int>, store: TabStore)

  /** The record belongs to `userId` (both keys truthy and the user matches). */
  predicate BelongsTo(st: TabStore, userId: string) {
    Present(st.user) && Present(st.expiry) && st.user.value == userId
  }

  /**
   * `getStoredSessionExpiry(userId)`: a record of another user, or with a
   * missing key, reads as none and is left in place; an unparsable or
   * strictly past expiry reads as none and removes both keys; otherwise the
   * parsed expiry is returned, including when it equals `now`.
   */
  function ReadStored(st: TabStore, userId: string, now: int): (r: StoreRead)
    ensures !BelongsTo(st, userId) ==> r == StoreRead(None, st)
    ensures r.expiry.Some? ==>
              BelongsTo(st, userId) && ParseInt(st.expiry.value) == r.expiry && now <= r.expiry.value && r.store == st
    ensures r.store == st || r.store == EmptyStore
    ensures BelongsTo(st, userId) && r.expiry.None? ==> r.store == EmptyStore
    ensures BelongsTo(st, userId) && ParseInt(st.expiry.value).Some? ==>
              (r.expiry.Some? <==> now <= ParseInt(st.expiry.value).value)
  {
    if !BelongsTo(st, userId) then StoreRead(None, st)
    else match ParseInt(st.expiry.value)
      case None => StoreRead(None, EmptyStore)
      case Some(e) => if now > e then StoreRead(None, EmptyStore) else StoreRead(Some(e), st)
  }

  /** After saving for `u` at `t`, any read for `u` up to the expiry returns exactly that expiry. */
  lemma SaveThenRead(u: string, t: int, later: int)
    requires u != ""
    requires later <= t + IdleTimeout
    ensures ReadStored(Saved(u, t), u, later) == StoreRead(Some(t + IdleTimeout), Saved(u, t))
  {
    SavedRecordParses(u, t);
  }

  /** After saving at `t`, a read strictly after the expiry finds nothing and empties the store. */
  lemma SaveThenReadTooLate(u: string, t: int, later: int)
    requires u != ""
    requires later > t + IdleTimeout
    ensures ReadStored(Saved(u, t), u, later) == StoreRead(None, EmptyStore)
  {
    SavedRecordParses(u, t);
  }

  /** A saved record belongs to its user and its expiry string parses back to the expiry. */
  lemma SavedRecordParses(u: string, t: int)
    requires u != ""
    ensures BelongsTo(Saved(u, t), u)
    ensures ParseInt(Saved(u, t).expiry.value) == Some(t + IdleTimeout)
  {
    ParseIntOfDecimal(t + IdleTimeout);
  }

  /** A record saved for one user is never read back as valid for another. */
  lemma SavedForOtherUser(u: string, v: string, t: int, later: int)
    requires u != v
    ensures ReadStored(Saved(u, t), v, later) == StoreRead(None, Saved(u, t))
  {
  }

  /** `Math.max(0, Math.ceil((expiry - now) / 1000))`, computed exactly on integers. */
  function RemainingSeconds(expiry: int, now: int): (sec: int)
    ensures sec >= 0
    ensures sec == 0 <==> expiry <= now
    ensures sec > 0 ==> (sec - 1) * 1000 < expiry - now <= sec * 1000
  {
    var ceiling := -((now - expiry) / 1000);
    if ceiling < 0 then 0 else ceiling
  }

  /** A freshly written record shows the full ten minutes. */
  lemma FreshRecordShowsFullWindow(now: int)
    ensures RemainingSeconds(now + IdleTimeout, now) == 600
  {
  }

  /** `isInAdminArea`: under "/admin" but not the lock screen itself. */
  predicate IsInAdminArea(pathname: string) {
    StartsWith(pathname, AdminPrefix) && pathname != LockedPath
  }

  lemma LockScreenIsOutsideArea()
    ensures !IsInAdminArea(LockedPath)
    ensures IsInAdminArea("/admin")
  {
  }

  /** `!!expiry`: a read expiry that is present and not the falsy 0. */
  predicate HasValidSession(expiry: Option<int>) {
    expiry.Some? && expiry.value != 0
  }

  /** The tick locks: no record (or the falsy expiry 0), or no whole second left. */
  predicate TickLocks(expiry: Option<int>, now: int) {
    expiry.None? || expiry.value == 0 || RemainingSeconds(expiry.value, now) == 0
  }

  /** The read-only projection of a user's 2FA configuration. */
  datatype TwoFactorStatus = TwoFactorStatus(isEnabled: bool, isBlocked: bool, failedAttempts: int)

  /** The verification endpoint's answer: a parsed JSON reply, or a transport or parse failure. */
  datatype VerifyReply = Replied(success: bool, error: Option<string>) | TransportFailure

  datatype VerifyResult = VerifyResult(success: bool, error: Option<string>)

  /**
   * The checks `verify2FA` makes before contacting the endpoint; `None`
   * means the endpoint is called.
   */
  function PreCheckError(user: Option<string>, settings: Option<TwoFactorStatus>, accessToken: Option<string>): (err: Option<string>)
    ensures err.None? <==> user.Some? && settings.Some? && !settings.value.isBlocked && Present(accessToken)
    ensures user.None? || settings.None? ==> err == Some(SettingsMissingError)
    ensures user.Some? && settings.Some? && settings.value.isBlocked ==> err == Some(BlockedError)
    ensures user.Some? && settings.Some? && !settings.value.isBlocked && !Present(accessToken) ==>
              err == Some(NoSessionError)
  {
    if user.None? || settings.None? then Some(SettingsMissingError)
    else if settings.value.isBlocked then Some(BlockedError)
    else if !Present(accessToken) then Some(NoSessionError)
    else None
  }

  /** What `verify2FA` returns once the endpoint has been called. */
  function RemoteOutcome(reply: VerifyReply): (r: VerifyResult)
    ensures r.success <==> reply.Replied? && reply.success
    ensures r.success ==> r.error.None?
    ensures !r.success ==> Present(r.error)
    ensures reply.Replied? && !reply.success && Present(reply.error) ==> r.error == reply.error
    ensures reply.Replied? && !reply.success && !Present(reply.error) ==> r.error == Some(VerificationFailedError)
    ensures reply.TransportFailure? ==> r.error == Some(VerificationCrashedError)
  {
    match reply
    case Replied(ok, e) =>
      if ok then VerifyResult(true, None)
      else VerifyResult(false, Some(if Present(e) then e.value else VerificationFailedError))
    case TransportFailure => VerifyResult(false, Some(VerificationCrashedError))
  }

  /** The provider's state: the tab-local store and the React state it keeps. */
  class AdminSessionGuard {
    // sessionStorage
    var storedUser: Option<string>
    var storedExpiry: Option<string>
    // inputs from the identity provider and the 2FA status view
    var authLoading: bool
    var user: Option<string>
    var settings: Option<TwoFactorStatus>
    // guard state
    var isAdminAuthenticated: bool
    var remainingTime: Option<int>
    // router: the current path and the `from` recorded by the last lock
    var pathname: string
    var lockedFrom: Option<string>

    function Store(): TabStore
      reads this
    {
      TabStore(storedUser, storedExpiry)
    }

    /** The countdown effect and the idle timer are active. */
    predicate Tracking()
      reads this
    {
      isAdminAuthenticated && Present(user) && IsInAdminArea(pathname)
    }

    /** The state `lockSession` leaves when it acts on a page at `from`. */
    predicate LockedAfter(from: string)
      reads this
    {
      !isAdminAuthenticated && remainingTime.None? && Store() == EmptyStore
      && pathname == LockedPath && lockedFrom == Some(from)
    }

    /** A fresh provider mounted on `path`, over whatever the tab already stores. */
    constructor (initialStore: TabStore, path: string)
      ensures Store() == initialStore && pathname == path
      ensures authLoading && user.None? && settings.None? && lockedFrom.None?
      ensures !isAdminAuthenticated && remainingTime.None?
    {
      storedUser, storedExpiry := initialStore.user, initialStore.expiry;
      authLoading, user, settings := true, None, None;
      isAdminAuthenticated, remainingTime := false, None;
      pathname, lockedFrom := path, None;
    }

    method GetStoredSessionExpiry(userId: string, now: int) returns (expiry: Option<int>)
      modifies this`storedUser, this`storedExpiry
      ensures expiry == ReadStored(old(Store()), userId, now).expiry
      ensures Store() == ReadStored(old(Store()), userId, now).store
    {
      if !Present(storedUser) || !Present(storedExpiry) || storedUser.value != userId {
        return None;
      }
      var parsed := ParseInt(storedExpiry.value);
      if parsed.None? || now > parsed.value {
        ClearSession();
        return None;
      }
      return parsed;
    }

    method SaveSession(userId: string, now: int) returns (expiry: int)
      modifies this`storedUser, this`storedExpiry
      ensures expiry == now + IdleTimeout
      ensures Store() == Saved(userId, now)
    {
      expiry := now + IdleTimeout;
      storedUser := Some(userId);
      storedExpiry := Some(IntToDecimal(expiry));
    }

    method ClearSession()
      modifies this`storedUser, this`storedExpiry
      ensures Store() == EmptyStore
    {
      storedUser := None;
      storedExpiry := None;
    }

    /** `createOrExtendSession(uid)`: saves only for a truthy id. */
    method CreateOrExtendSession(uid: Option<string>, now: int) returns (expiry: Option<int>)
      modifies this`storedUser, this`storedExpiry
      ensures Present(uid) ==> expiry == Some(now + IdleTimeout) && Store() == Saved(uid.value, now)
      ensures !Present(uid) ==> expiry.None? && Store() == old(Store())
    {
      if !Present(uid) {
        return None;
      }
      var e := SaveSession(uid.value, now);
      expiry := Some(e);
    }

    /**
     * The identity provider reports a new state, and the auth-settle effect
     * runs: nothing is decided while loading; with no user the guard is locked
     * and the store cleared; with a user the guard is unlocked exactly when a
     * valid record exists for that user, and the store is cleared otherwise.
     */
    method AuthChanged(loading: bool, newUser: Option<string>, now: int)
      modifies this`authLoading, this`user, this`storedUser, this`storedExpiry, this`isAdminAuthenticated, this`remainingTime
      ensures authLoading == loading && user == newUser
      ensures settings == old(settings) && pathname == old(pathname) && lockedFrom == old(lockedFrom)
      ensures loading ==> Store() == old(Store()) && isAdminAuthenticated == old(isAdminAuthenticated)
                          && remainingTime == old(remainingTime)
      ensures !loading && newUser.None? ==> !isAdminAuthenticated && remainingTime.None? && Store() == EmptyStore
      ensures !loading && newUser.Some? ==>
                && remainingTime.None?
                && (isAdminAuthenticated <==> HasValidSession(ReadStored(old(Store()), newUser.value, now).expiry))
                && Store() == (if isAdminAuthenticated then old(Store()) else EmptyStore)
    {
      authLoading, user := loading, newUser;
      if loading {
        return;
      }
      if user.Some? {
        var expiry := GetStoredSessionExpiry(user.value, now);
        var hasValidSession := HasValidSession(expiry);
        isAdminAuthenticated := hasValidSession;
        remainingTime := None;
        if !hasValidSession {
          ClearSession();
        }
      } else {
        isAdminAuthenticated := false;
        remainingTime := None;
        ClearSession();
      }
    }

    /** `fetch2FASettings` with the view's row (or its absence) as the input `fetched`. */
    method Fetch2FASettings(fetched: Option<TwoFactorStatus>)
      modifies this`settings
      ensures settings == (if authLoading then old(settings) else if user.None? then None else fetched)
    {
      if authLoading {
        return;
      }
      if user.None? {
        settings := None;
        return;
      }
      settings := fetched;
    }

    /** The router moves to `path` (the countdown effect then re-runs: `SyncCountdown`). */
    method Navigate(path: string)
      modifies this`pathname
      ensures pathname == path
    {
      pathname := path;
    }

    /** `lockSession`: acts only inside the admin area, and then locks and leaves for the lock screen. */
    method LockSession()
      modifies this`storedUser, this`storedExpiry, this`isAdminAuthenticated, this`remainingTime, this`pathname, this`lockedFrom
      ensures old(IsInAdminArea(pathname)) ==> LockedAfter(old(pathname))
      ensures !old(IsInAdminArea(pathname)) ==>
                && Store() == old(Store()) && isAdminAuthenticated == old(isAdminAuthenticated)
                && remainingTime == old(remainingTime) && pathname == old(pathname) && lockedFrom == old(lockedFrom)
    {
      if pathname != LockedPath && StartsWith(pathname, AdminPrefix) {
        isAdminAuthenticated := false;
        remainingTime := None;
        ClearSession();
        lockedFrom := Some(pathname);
        pathname := LockedPath;
      }
    }

    /** Clearing twice leaves the same empty store as clearing once. */
    method ClearSessionTwice()
      modifies this`storedUser, this`storedExpiry
      ensures Store() == EmptyStore
    {
      ClearSession();
      ghost var once := Store();
      ClearSession();
      assert Store() == once;
    }

    /** A second `lockSession` finds the lock screen, which is outside the area, and changes nothing. */
    method LockSessionTwice()
      modifies this`storedUser, this`storedExpiry, this`isAdminAuthenticated, this`remainingTime, this`pathname, this`lockedFrom
      ensures old(IsInAdminArea(pathname)) ==> LockedAfter(old(pathname))
      ensures !old(IsInAdminArea(pathname)) ==>
                && Store() == old(Store()) && isAdminAuthenticated == old(isAdminAuthenticated)
                && remainingTime == old(remainingTime) && pathname == old(pathname) && lockedFrom == old(lockedFrom)
    {
      LockSession();
      LockScreenIsOutsideArea();
      LockSession();
    }

    /** The idle timer fires after ten minutes without activity. */
    method OnIdle()
      modifies this`storedUser, this`storedExpiry, this`isAdminAuthenticated, this`remainingTime, this`pathname, this`lockedFrom
      ensures old(isAdminAuthenticated && IsInAdminArea(pathname)) ==> LockedAfter(old(pathname))
      ensures !old(isAdminAuthenticated && IsInAdminArea(pathname)) ==>
                && Store() == old(Store()) && isAdminAuthenticated == old(isAdminAuthenticated)
                && remainingTime == old(remainingTime) && pathname == old(pathname) && lockedFrom == old(lockedFrom)
    {
      if isAdminAuthenticated && IsInAdminArea(pathname) {
        LockSession();
      }
    }

    /** A user action while tracking pushes the expiry to ten minutes from now. */
    method OnAction(now: int)
      modifies this`storedUser, this`storedExpiry
      ensures Tracking() ==> Store() == Saved(user.value, now)
      ensures !Tracking() ==> Store() == old(Store())
    {
      if !Present(user) || !isAdminAuthenticated || !IsInAdminArea(pathname) {
        return;
      }
      var _ := CreateOrExtendSession(user, now);
    }

    /** The user becomes active again after being idle: the same extension as `OnAction`. */
    method OnActive(now: int)
      modifies this`storedUser, this`storedExpiry
      ensures Tracking() ==> Store() == Saved(user.value, now)
      ensures !Tracking() ==> Store() == old(Store())
    {
      OnAction(now);
    }

    /** The part of a tick after the read: show the whole seconds left, or lock. */
    method ShowOrLock(expiry: Option<int>, now: int)
      requires IsInAdminArea(pathname)
      modifies this`storedUser, this`storedExpiry, this`isAdminAuthenticated, this`remainingTime, this`pathname, this`lockedFrom
      ensures TickLocks(expiry, now) ==> LockedAfter(old(pathname))
      ensures !TickLocks(expiry, now) ==>
                && remainingTime == Some(RemainingSeconds(expiry.value, now)) && remainingTime.value > 0
                && Store() == old(Store()) && isAdminAuthenticated == old(isAdminAuthenticated)
                && pathname == old(pathname) && lockedFrom == old(lockedFrom)
    {
      if expiry.None? || expiry.value == 0 {
        LockSession();
        return;
      }
      var remainingSec := RemainingSeconds(expiry.value, now);
      remainingTime := Some(remainingSec);
      if remainingSec <= 0 {
        LockSession();
      }
    }

    /**
     * One countdown tick: reads the record, shows the seconds left, and locks
     * when the record is gone or no whole second is left. It runs only while
     * the countdown effect is installed, that is while `Tracking()`.
     */
    method Tick(now: int)
      requires Tracking()
      modifies this`storedUser, this`storedExpiry, this`isAdminAuthenticated, this`remainingTime, this`pathname, this`lockedFrom
      ensures TickLocks(ReadStored(old(Store()), old(user).value, now).expiry, now) ==> LockedAfter(old(pathname))
      ensures !TickLocks(ReadStored(old(Store()), old(user).value, now).expiry, now) ==>
                && remainingTime == Some(RemainingSeconds(ReadStored(old(Store()), old(user).value, now).expiry.value, now))
                && remainingTime.value > 0
                && Store() == old(Store()) && isAdminAuthenticated
                && pathname == old(pathname) && lockedFrom == old(lockedFrom)
    {
      var expiry := GetStoredSessionExpiry(user.value, now);
      ShowOrLock(expiry, now);
    }

    /**
     * The countdown effect, run when the guard state, the user or the path
     * changes: outside tracking it hides the countdown; inside, entering counts
     * as activity, so a fresh ten-minute record is written and the first tick
     * shows 600 seconds.
     */
    method SyncCountdown(now: int)
      requires now >= 0  // a clock reading after 1970, so the fresh expiry is never the falsy 0
      modifies this`storedUser, this`storedExpiry, this`isAdminAuthenticated, this`remainingTime, this`pathname, this`lockedFrom
      ensures !old(Tracking()) ==>
                && remainingTime.None? && Store() == old(Store()) && isAdminAuthenticated == old(isAdminAuthenticated)
                && pathname == old(pathname) && lockedFrom == old(lockedFrom)
      ensures old(Tracking()) ==>
                && remainingTime == Some(600) && Store() == Saved(user.value, now)
                && Tracking() && pathname == old(pathname) && lockedFrom == old(lockedFrom)
    {
      if !isAdminAuthenticated || !Present(user) || !IsInAdminArea(pathname) {
        remainingTime := None;
        return;
      }
      StartCountdown(now);
    }

    /** The tracking branch of the countdown effect: a fresh record, then the first tick. */
    method StartCountdown(now: int)
      requires Tracking() && now >= 0
      modifies this`storedUser, this`storedExpiry, this`isAdminAuthenticated, this`remainingTime, this`pathname, this`lockedFrom
      ensures remainingTime == Some(600) && Store() == Saved(user.value, now)
      ensures Tracking() && pathname == old(pathname) && lockedFrom == old(lockedFrom)
    {
      var _ := CreateOrExtendSession(user, now);
      ghost var written := Store();
      assert written == Saved(user.value, now);
      SaveThenRead(user.value, now, now);
      FreshRecordShowsFullWindow(now);
      assert ReadStored(written, user.value, now).expiry == Some(now + IdleTimeout);
      assert !TickLocks(Some(now + IdleTimeout), now);
      Tick(now);
    }

    /**
     * `verify2FA`: the fixed errors for a missing user or settings, a blocked
     * account or a missing access token come back before the endpoint is
     * called and change nothing; only a successful reply unlocks the guard and
     * writes a fresh record; a rejected reply refreshes the 2FA status
     * (`refetched` is what that fetch returns) and keeps the guard as it was.
     */
    method Verify2FA(accessToken: Option<string>, reply: VerifyReply, refetched: Option<TwoFactorStatus>, now: int)
      returns (result: VerifyResult)
      modifies this
      ensures var pre := PreCheckError(old(user), old(settings), accessToken);
              result == (if pre.Some? then VerifyResult(false, pre) else RemoteOutcome(reply))
      ensures result.success ==>
                && isAdminAuthenticated && remainingTime.None? && settings == old(settings)
                && Store() == (if Present(user) then Saved(user.value, now) else old(Store()))
      ensures !result.success ==>
                && isAdminAuthenticated == old(isAdminAuthenticated) && remainingTime == old(remainingTime)
                && Store() == old(Store())
      ensures PreCheckError(old(user), old(settings), accessToken).Some? || reply.TransportFailure? ==>
                settings == old(settings)
      ensures PreCheckError(old(user), old(settings), accessToken).None? && reply.Replied? && !reply.success ==>
                settings == (if authLoading then old(settings) else refetched)
      ensures user == old(user) && authLoading == old(authLoading)
      ensures pathname == old(pathname) && lockedFrom == old(lockedFrom)
    {
      var pre := PreCheckError(user, settings, accessToken);
      if pre.Some? {
        return VerifyResult(false, pre);
      }
      match reply {
        case TransportFailure =>
          result := VerifyResult(false, Some(VerificationCrashedError));
        case Replied(ok, e) =>
          if ok {
            isAdminAuthenticated := true;
            remainingTime := None;
            var _ := CreateOrExtendSession(user, now);
            result := VerifyResult(true, None);
          } else {
            Fetch2FASettings(refetched);
            result := VerifyResult(false, Some(if Present(e) then e.value else VerificationFailedError));
          }
      }
    }
  }
}
