/**
 * The shared-password gate (`AuthContext`): one valid password at a time, chosen by
 * comparing the clock with a fixed expiry, an authenticated flag, and one
 * session-storage entry that survives a reload of the page.
 */
module Auth {
  import opened Wrappers

  /** `PASSWORD_CONFIG.current`, valid up to and including the expiry instant. */
  const Current: string := "euro_med@"

  /** `PASSWORD_CONFIG.next`, valid strictly after the expiry instant. */
  const Next: string := "euromed_26"

  /** `new Date("2026-01-27T23:59:59")` as milliseconds on the clock `now` is read from. */
  const ExpirationDate: int := 1769558399000

  /** The session-storage key that records a successful login. */
  const AuthKey: string := "euromed_auth"

  /** `getCurrentPassword`, with the clock passed in as milliseconds. */
  function CurrentPassword(now: int): (r: string)
    ensures r == Current || r == Next
    ensures r == Next <==> now > ExpirationDate
    ensures r == Current <==> now <= ExpirationDate
  {
    if now > ExpirationDate then Next else Current
  }

  /** The password `login` accepts at `now`. */
  predicate Accepts(now: int, password: string) {
    password == CurrentPassword(now)
  }

  /** The stored value restores a session exactly when it is the string "true". */
  predicate StoredSession(storage: map<string, string>) {
    AuthKey in storage && storage[AuthKey] == "true"
  }

  /** The state behind `AuthProvider`: two React state cells and the session storage. */
  class AuthProvider {
    var isAuthenticated: bool
    var isLoading: bool
    var storage: map<string, string>

    /** First render: not authenticated, still loading, storage as the browser has it. */
    constructor (session: map<string, string>)
      ensures !isAuthenticated && isLoading && storage == session
    {
      isAuthenticated := false;
      isLoading := true;
      storage := session;
    }

    /** The mount effect: restore the session from storage, then stop loading. */
    method Mount()
      modifies this
      ensures isAuthenticated == (old(isAuthenticated) || StoredSession(storage))
      ensures !isLoading && storage == old(storage)
    {
      if AuthKey in storage && storage[AuthKey] == "true" {
        isAuthenticated := true;
      }
      isLoading := false;
    }

    /** `login`: accept exactly the password valid at `now`; a rejection changes nothing. */
    method Login(password: string, now: int) returns (ok: bool)
      modifies this
      ensures ok <==> Accepts(now, password)
      ensures ok ==> isAuthenticated && storage == old(storage)[AuthKey := "true"]
      ensures !ok ==> isAuthenticated == old(isAuthenticated) && storage == old(storage)
      ensures isLoading == old(isLoading)
    {
      var validPassword := CurrentPassword(now);
      if password == validPassword {
        isAuthenticated := true;
        storage := storage[AuthKey := "true"];
        return true;
      }
      return false;
    }

    /** `logout`: clear the flag and remove the storage entry, leaving other entries alone. */
    method Logout()
      modifies this
      ensures !isAuthenticated && storage == old(storage) - {AuthKey}
      ensures isLoading == old(isLoading)
    {
      isAuthenticated := false;
      storage := storage - {AuthKey};
    }

    /** While loading the provider renders `null`; afterwards it renders its children. */
    predicate RendersChildren()
      reads this
    {
      !isLoading
    }
  }

  const OutsideAuth: string := "useAuth must be used within an AuthProvider"

  /** `useAuth`: the provider in scope, or the error thrown outside one. */
  function UseAuth(context: Option<AuthProvider>): (r: Result<AuthProvider, string>)
    ensures context.None? <==> r == Failure(OutsideAuth)
    ensures context.Some? ==> r == Success(context.value)
  {
    UseContext(context, OutsideAuth)
  }

  /**
   * At any instant exactly one of the two configured passwords is accepted, no
   * other text is, and two accepted passwords are the same.
   */
  lemma OnePasswordAtATime(now: int, p: string, q: string)
    ensures Accepts(now, Current) != Accepts(now, Next)
    ensures Accepts(now, p) ==> p == Current || p == Next
    ensures Accepts(now, p) && Accepts(now, q) ==> p == q
  {
    assert Current[4] != Next[4];
  }

  /** After the expiry the old password is rejected; at or before it the next one is. */
  lemma RotationAtExpiry(now: int)
    ensures now > ExpirationDate ==> CurrentPassword(now) != Current
    ensures now <= ExpirationDate ==> CurrentPassword(now) != Next
  {
  }

  /** A client: a login survives a reload of the page, a logout does not. */
  method ReloadKeepsSession(now: int, session: map<string, string>)
  {
    var a := new AuthProvider(session);
    a.Mount();
    assert a.RendersChildren();
    var ok := a.Login(CurrentPassword(now), now);
    assert ok && a.isAuthenticated;
    var b := new AuthProvider(a.storage);
    assert !b.RendersChildren();
    b.Mount();
    assert b.isAuthenticated && b.RendersChildren();
    b.Logout();
    var c := new AuthProvider(b.storage);
    c.Mount();
    assert !c.isAuthenticated;
  }

  /** A client: after the expiry the old password fails and leaves the state as it was. */
  method ExpiredPasswordRejected(session: map<string, string>)
  {
    var a := new AuthProvider(session);
    a.Mount();
    ghost var was := a.isAuthenticated;
    var ok := a.Login(Current, ExpirationDate + 1);
    assert !ok && a.isAuthenticated == was && a.storage == session;
    ok := a.Login(Current, ExpirationDate);
    assert ok && StoredSession(a.storage);
  }
}
