/**
 * The preferences store (`UserDefaults.standard`) and the one entry the app keeps in
 * it: the authentication token, stored under the key `fcm-token`.
 */
module UserDefaultsKeys {
  import opened Wrappers

  /** The key the token is stored under (the name is the source's, not a typo here). */
  const JwtKey: string := "fcm-token"

  /** A stored property-list value: a String, or a value of some other type. */
  datatype PrefValue = Str(text: string) | NonString(description: string)

  type Store = map<string, PrefValue>

  /** The getter: the stored value when it is a String, nil when absent or of another type. */
  function ReadJwt(m: Store): (r: Option<string>)
    ensures r.Some? <==> JwtKey in m && m[JwtKey].Str?
    ensures r.Some? ==> m[JwtKey] == Str(r.value)
  {
    if JwtKey in m && m[JwtKey].Str? then Some(m[JwtKey].text) else None
  }

  /** The setter: storing nil removes the entry. */
  function WriteJwt(m: Store, v: Option<string>): (r: Store)
    ensures ReadJwt(r) == v
    ensures v.None? ==> JwtKey !in r
    ensures forall k :: k != JwtKey ==> (k in r <==> k in m)
    ensures forall k :: k != JwtKey && k in m ==> r[k] == m[k]
  {
    match v
    case Some(s) => m[JwtKey := Str(s)]
    case None => m - {JwtKey}
  }

  /** `clearUserDefaults`: removes the token entry. */
  function ClearJwt(m: Store): (r: Store)
    ensures ReadJwt(r) == None && JwtKey !in r
    ensures forall k :: k != JwtKey ==> (k in r <==> k in m)
    ensures forall k :: k != JwtKey && k in m ==> r[k] == m[k]
  {
    m - {JwtKey}
  }

  /** Clearing is the same as setting the token to nil. */
  lemma ClearIsWriteNil(m: Store)
    ensures ClearJwt(m) == WriteJwt(m, None)
  {
  }

  /** Writing the same value twice is writing it once; the last write wins. */
  lemma WriteJwtOverwrites(m: Store, v: Option<string>, w: Option<string>)
    ensures WriteJwt(WriteJwt(m, v), w) == WriteJwt(m, w)
  {
    var a := WriteJwt(WriteJwt(m, v), w);
    var b := WriteJwt(m, w);
    assert a.Keys == b.Keys;
  }

  /** Writing back the value just read leaves a String entry untouched. */
  lemma WriteReadJwt(m: Store)
    requires ReadJwt(m).Some?
    ensures WriteJwt(m, ReadJwt(m)) == m
  {
    var r := WriteJwt(m, ReadJwt(m));
    assert r.Keys == m.Keys;
  }

  /** The preferences store, updated in place. */
  class UserDefaults {
    var values: Store

    constructor (initial: Store)
      ensures values == initial
    {
      values := initial;
    }

    /** `UserDefaults.jwt` get. */
    function Jwt(): (r: Option<string>)
      reads this
      ensures r == ReadJwt(values)
    {
      ReadJwt(values)
    }

    /** `UserDefaults.jwt` set. */
    method SetJwt(v: Option<string>)
      modifies this
      ensures values == WriteJwt(old(values), v)
      ensures Jwt() == v
    {
      match v {
        case Some(s) => values := values[JwtKey := Str(s)];
        case None => values := values - {JwtKey};
      }
    }
  }

  /** `UserDefaultsKeys.clearUserDefaults`, acting on the standard store. */
  method ClearUserDefaults(standard: UserDefaults)
    modifies standard
    ensures standard.values == ClearJwt(old(standard.values))
    ensures standard.Jwt() == None
  {
    standard.values := standard.values - {JwtKey};
  }
}
