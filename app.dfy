/** The route guard in front of the signed-in pages: it lets the pages
  * render while a token is stored, except that a token whose stored expiry
  * has passed is purged (with its expiry) and sends the visitor to login. */
module App {
  import opened JsNumbers
  import opened JsValues
  import opened WebStorage
  import opened AuthSlice

  /** What the guard renders: the protected pages, or a redirect to `/login`. */
  datatype Route = RenderChildren | RedirectToLogin

  /** The guard's decision and the storage it leaves behind. */
  datatype Guarded = Guarded(route: Route, storage: Storage)

  /** `token && expiry && Date.now() > parseInt(expiry)`. An expiry that
    * `parseInt` reads as NaN never compares as passed. */
  function Expired(st: Storage, now: int): (b: bool)
    ensures b <==>
      && "token" in st && st["token"] != ""
      && "tokenExpiry" in st && st["tokenExpiry"] != ""
      && ParseInt(st["tokenExpiry"]).Finite? && now > ParseInt(st["tokenExpiry"]).value
  {
    && Truthy(GetItem(st, "token"))
    && Truthy(GetItem(st, "tokenExpiry"))
    && ParseInt(st["tokenExpiry"]).Finite?
    && now > ParseInt(st["tokenExpiry"]).value
  }

  /** `PrivateRoute` at time `now`. */
  function PrivateRoute(st: Storage, now: int): (r: Guarded)
    ensures r.route == RenderChildren <==> "token" in st && st["token"] != "" && !Expired(st, now)
    ensures Expired(st, now) ==> r.storage == st - {"token", "tokenExpiry"}
    ensures !Expired(st, now) ==> r.storage == st
  {
    if Expired(st, now) then
      Guarded(RedirectToLogin, st - {"token", "tokenExpiry"})
    else if Truthy(GetItem(st, "token")) then Guarded(RenderChildren, st)
    else Guarded(RedirectToLogin, st)
  }

  /** Purging an expired token keeps the stored username. */
  lemma ExpiryKeepsUsername(st: Storage, now: int)
    requires Expired(st, now) && "username" in st
    ensures "username" in PrivateRoute(st, now).storage
    ensures PrivateRoute(st, now).storage["username"] == st["username"]
  {
  }

  /** The expiry instant itself is still valid: only a later `now` expires. */
  lemma ExpiryIsInclusive(st: Storage, e: int)
    requires "token" in st && st["token"] != ""
    requires "tokenExpiry" in st && ParseInt(st["tokenExpiry"]) == Finite(e)
    ensures PrivateRoute(st, e) == Guarded(RenderChildren, st)
    ensures PrivateRoute(st, e + 1) == Guarded(RedirectToLogin, st - {"token", "tokenExpiry"})
  {
    assert st["tokenExpiry"] != "";
  }

  /** A stored token with no stored expiry is always let through. */
  lemma NoExpiryNeverExpires(st: Storage, now: int)
    requires "token" in st && st["token"] != "" && "tokenExpiry" !in st
    ensures PrivateRoute(st, now) == Guarded(RenderChildren, st)
  {
  }

  /** Without a token the guard redirects and leaves storage alone. */
  lemma NoTokenRedirects(st: Storage, now: int)
    requires "token" !in st || st["token"] == ""
    ensures PrivateRoute(st, now) == Guarded(RedirectToLogin, st)
  {
  }

  /** Whatever the guard lets through at some time, it also lets through at
    * any earlier time. */
  lemma EarlierStaysAllowed(st: Storage, now: int, earlier: int)
    requires earlier <= now
    requires PrivateRoute(st, now).route == RenderChildren
    ensures PrivateRoute(st, earlier) == Guarded(RenderChildren, st)
  {
  }

  /** Running the guard again at the same time decides the same and purges
    * nothing more. */
  lemma GuardIdempotent(st: Storage, now: int)
    ensures var g := PrivateRoute(st, now);
      PrivateRoute(g.storage, now) == g
  {
    var g := PrivateRoute(st, now);
    if Expired(st, now) {
      assert "token" !in g.storage;
      assert !Expired(g.storage, now);
    }
  }

  /** After a login at time `t` whose token stores as a non-empty string, the
    * guard lets the pages render exactly while `now <= t + TokenLifetime`,
    * and purges the token once that has passed. */
  lemma GuardAfterLogin(st: Storage, p: LoginPayload, t: int, now: int)
    requires ToJsString(p.token) != ""
    ensures var stored := LoginStorage(st, p, t);
      && (PrivateRoute(stored, now).route == RenderChildren <==> now <= t + TokenLifetime)
      && (now > t + TokenLifetime ==> PrivateRoute(stored, now).storage == stored - {"token", "tokenExpiry"})
      && (now <= t + TokenLifetime ==> PrivateRoute(stored, now).storage == stored)
  {
    var stored := LoginStorage(st, p, t);
    ParseIntRoundTrip(t + TokenLifetime);
    assert ParseInt(stored["tokenExpiry"]) == Finite(t + TokenLifetime);
    assert Truthy(GetItem(stored, "tokenExpiry"));
  }

  /** A login whose token stores as the empty string, such as the truthy
    * token `[]`, leaves a session the guard turns away at once. */
  lemma EmptyStoredTokenRedirects(st: Storage, p: LoginPayload, t: int, now: int)
    requires ToJsString(p.token) == ""
    ensures PrivateRoute(LoginStorage(st, p, t), now) == Guarded(RedirectToLogin, LoginStorage(st, p, t))
  {
  }

  /** The truthy token `[]` is stored as the empty string. */
  lemma EmptyArrayTokenStoresEmpty()
    ensures Truthy(Arr([])) && ToJsString(Arr([])) == ""
  {
  }

  /** After a logout the guard redirects and has nothing to purge. */
  lemma GuardAfterLogout(st: Storage, now: int)
    ensures PrivateRoute(LogoutStorage(st), now) == Guarded(RedirectToLogin, LogoutStorage(st))
  {
  }
}
