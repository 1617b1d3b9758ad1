/**
 * The authentication manager: owns the token, writes it through to the preferences
 * store, and offers login, logout and token removal.
 */
module UserAuthentication {
  import opened Wrappers
  import opened UserDefaultsKeys

  /** The store after `logout`: `removeJwt` writes "", then `setUserLoggedInWith("")` writes "" again. */
  function LoggedOut(m: Store): (r: Store)
    ensures ReadJwt(r) == Some("")
    ensures forall k :: k != JwtKey ==> (k in r <==> k in m)
    ensures forall k :: k != JwtKey && k in m ==> r[k] == m[k]
  {
    WriteJwt(WriteJwt(m, Some("")), Some(""))
  }

  /** Logging out twice leaves the same store as logging out once. */
  lemma LogoutIdempotent(m: Store)
    ensures LoggedOut(LoggedOut(m)) == LoggedOut(m)
  {
    var once := WriteJwt(m, Some(""));
    WriteJwtOverwrites(m, Some(""), Some(""));
    WriteJwtOverwrites(once, Some(""), Some(""));
  }

  /** The store after construction: an empty stored token triggers `logout`; anything else writes nothing. */
  function AfterInit(m: Store): Store {
    match ReadJwt(m)
    case None => m
    case Some(jwt) => if jwt != "" then m else LoggedOut(m)
  }

  /** Construction never changes the store. */
  lemma InitLeavesStoreUnchanged(m: Store)
    ensures AfterInit(m) == m
  {
    if ReadJwt(m) == Some("") {
      WriteReadJwt(m);
      WriteJwtOverwrites(m, Some(""), Some(""));
    }
  }

  /**
   * `UserAuthenticationManagerImpl`, the implementation of the
   * `UserAuthenticationManager` interface. Its token lives in the standard store.
   */
  class UserAuthenticationManagerImpl {
    const defaults: UserDefaults

    /** `jwt` get: reads the store's token entry. */
    function Jwt(): (r: Option<string>)
      reads defaults
      ensures r == ReadJwt(defaults.values)
    {
      defaults.Jwt()
    }

    /** `init(with:)`: refreshes for a stored non-empty token, logs out for an empty one. */
    constructor (defaults: UserDefaults)
      modifies defaults
      ensures this.defaults == defaults
      ensures defaults.values == AfterInit(old(defaults.values))
      ensures defaults.values == old(defaults.values)
    {
      this.defaults := defaults;
      new;
      InitLeavesStoreUnchanged(defaults.values);
      var jwt := Jwt();
      if jwt.Some? {
        if jwt.value != "" {
          RefreshUserDetails();
        } else {
          Logout();
        }
      }
    }

    /** `jwt` set: writes the store's token entry (nil removes it). */
    method SetJwt(v: Option<string>)
      modifies defaults
      ensures defaults.values == WriteJwt(old(defaults.values), v)
      ensures Jwt() == v
    {
      defaults.SetJwt(v);
    }

    method SetUserLoggedInWith(jwt: string)
      modifies defaults
      ensures defaults.values == WriteJwt(old(defaults.values), Some(jwt))
      ensures Jwt() == Some(jwt)
    {
      SetJwt(Some(jwt));
      RefreshUserDetails();
    }

    /** A placeholder: fetching the user profile is not implemented. */
    method RefreshUserDetails()
      ensures unchanged(defaults)
    {
    }

    method Logout()
      modifies defaults
      ensures defaults.values == LoggedOut(old(defaults.values))
      ensures Jwt() == Some("")
    {
      RemoveJwt();
      SetUserLoggedInWith("");
    }

    /** Stores the empty string: the entry stays, it is not removed. */
    method RemoveJwt()
      modifies defaults
      ensures defaults.values == WriteJwt(old(defaults.values), Some(""))
      ensures Jwt() == Some("") && JwtKey in defaults.values
    {
      SetJwt(Some(""));
    }
  }
}
