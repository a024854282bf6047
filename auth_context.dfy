/** The authentication provider: a session kept in browser storage under the
    keys "token", "user" and "deviceId", the current user and a loading flag.
    Each operation is a pure step on `SessionState`; the class `Session` performs
    the same steps in place and is proved to match them. */
module AuthContext {
  import opened Js

  const TokenKey: string := "token"
  const UserKey: string := "user"
  const DeviceKey: string := "deviceId"

  /** A value held in browser storage: plain text, or `JSON.stringify` of a record. */
  datatype Stored = Text(text: string) | Json(record: Record)

  type Storage = map<string, Stored>

  /** What `jwtDecode` yields for a token: its `exp` claim (seconds) and its claims. */
  datatype Claims = Claims(exp: Option<int>, payload: Record)

  datatype SessionState = SessionState(storage: Storage, user: Option<Record>, loading: bool)

  /** A stored value read back by `getItem` is truthy unless it is the empty text. */
  predicate StoredTruthy(v: Stored)
  {
    v.Json? || v.text != ""
  }

  /** `decoded.exp * 1000 < Date.now()`; an absent `exp` compares as NaN, which is never less. */
  predicate Expired(exp: Option<int>, now: int)
  {
    exp.Some? && exp.value * 1000 < now
  }

  /** `JSON.parse(text)` yields a falsy value: the texts of null, false, 0 and "". */
  predicate ParsesFalsy(text: string)
  {
    text == "null" || text == "false" || text == "0" || text == "\"\""
  }

  /** The user record `login` keeps: the response without its token. */
  function LoginUser(data: Record): (u: Record)
    ensures TokenKey !in u
    ensures forall k :: k in data && k != TokenKey ==> k in u && u[k] == data[k]
    ensures u.Keys == data.Keys - {TokenKey}
  {
    data - {TokenKey}
  }

  /** The user record `verifyOtp` and `verifyTotp` keep: the response without token and deviceId. */
  function MfaUser(data: Record): (u: Record)
    ensures TokenKey !in u && DeviceKey !in u
    ensures forall k :: k in data && k != TokenKey && k != DeviceKey ==> k in u && u[k] == data[k]
    ensures u.Keys == data.Keys - {TokenKey, DeviceKey}
  {
    data - {TokenKey, DeviceKey}
  }

  /** The provider's state when it mounts, before its start-up effect runs. */
  function Mounted(storage: Storage): SessionState
  {
    SessionState(storage, None, true)
  }

  /** `logout`: drop token and user from storage and clear the current user. */
  function AfterLogout(s: SessionState): (r: SessionState)
    ensures TokenKey !in r.storage && UserKey !in r.storage && r.user.None?
    ensures forall k :: k != TokenKey && k != UserKey ==>
              (k in r.storage <==> k in s.storage) && (k in r.storage ==> r.storage[k] == s.storage[k])
    ensures r.loading == s.loading
  {
    s.(storage := s.storage - {TokenKey, UserKey}, user := None)
  }

  /** `login` after the server answered with `data`. */
  function AfterLogin(s: SessionState, data: Record): SessionState
  {
    if Truthy(Field(data, TokenKey)) then
      s.(storage := s.storage[TokenKey := Text(data[TokenKey])][UserKey := Json(LoginUser(data))],
         user := Some(LoginUser(data)))
    else s
  }

  /** `verifyOtp` / `verifyTotp` after the server answered with `data`. A missing
      token is still written, as the text "undefined"; deviceId only when truthy. */
  function AfterMfa(s: SessionState, data: Record): SessionState
  {
    var stored := s.storage[TokenKey := Text(ToText(Field(data, TokenKey)))][UserKey := Json(MfaUser(data))];
    s.(storage := if Truthy(Field(data, DeviceKey)) then stored[DeviceKey := Text(data[DeviceKey])] else stored,
       user := Some(MfaUser(data)))
  }

  /** The start-up effect: validate the stored token at time `now` (milliseconds). */
  function AfterStartup(s: SessionState, now: int, decode: string -> Option<Claims>): (r: SessionState)
    ensures !r.loading
    ensures r.storage == s.storage || r.storage == s.storage - {TokenKey, UserKey}
  {
    var settled :=
      if TokenKey in s.storage && StoredTruthy(s.storage[TokenKey]) then
        var token := s.storage[TokenKey];
        var decoded := if token.Text? then decode(token.text) else None;
        if decoded.None? || Expired(decoded.value.exp, now) then AfterLogout(s)
        else if UserKey !in s.storage then s.(user := Some(decoded.value.payload))
        else match s.storage[UserKey]
          case Json(stored) => s.(user := Some(stored))
          case Text(t) => if ParsesFalsy(t) then s.(user := Some(decoded.value.payload)) else AfterLogout(s)
      else s;
    settled.(loading := false)
  }

  /** Whenever there is a current user, a token is in storage. */
  predicate Consistent(s: SessionState)
  {
    s.user.Some? ==> TokenKey in s.storage
  }

  lemma MountedConsistent(storage: Storage)
    ensures Consistent(Mounted(storage))
  {
  }

  /** Every operation of the provider keeps `Consistent`. */
  lemma StepsPreserveConsistent(s: SessionState, data: Record, now: int, decode: string -> Option<Claims>)
    requires Consistent(s)
    ensures Consistent(AfterLogin(s, data))
    ensures Consistent(AfterMfa(s, data))
    ensures Consistent(AfterLogout(s))
    ensures Consistent(AfterStartup(s, now, decode))
  {
  }

  /** A login answered with a token stores it, stores the rest of the response as
      the user and makes that the current user. */
  lemma LoginWithToken(s: SessionState, data: Record)
    requires Truthy(Field(data, TokenKey))
    ensures var r := AfterLogin(s, data);
      && r.storage[TokenKey] == Text(data[TokenKey])
      && r.storage[UserKey] == Json(data - {TokenKey})
      && r.user == Some(data - {TokenKey})
      && r.loading == s.loading
      && forall k :: k != TokenKey && k != UserKey ==>
           (k in r.storage <==> k in s.storage) && (k in r.storage ==> r.storage[k] == s.storage[k])
  {
  }

  /** A login answered without a token (an OTP or TOTP challenge) changes nothing. */
  lemma LoginWithoutToken(s: SessionState, data: Record)
    requires !Truthy(Field(data, TokenKey))
    ensures AfterLogin(s, data) == s
  {
  }

  /** `verifyOtp`/`verifyTotp` always write token and user; they write deviceId only
      when the server returned one, and otherwise the old deviceId survives. */
  lemma MfaStorageRule(s: SessionState, data: Record)
    ensures var r := AfterMfa(s, data);
      && r.storage[TokenKey] == Text(if TokenKey in data then data[TokenKey] else "undefined")
      && r.storage[UserKey] == Json(data - {TokenKey, DeviceKey})
      && r.user == Some(data - {TokenKey, DeviceKey})
      && (Truthy(Field(data, DeviceKey)) ==> r.storage[DeviceKey] == Text(data[DeviceKey]))
      && (!Truthy(Field(data, DeviceKey)) ==>
            (DeviceKey in r.storage <==> DeviceKey in s.storage)
            && (DeviceKey in s.storage ==> r.storage[DeviceKey] == s.storage[DeviceKey]))
  {
  }

  /** No operation ever removes or overwrites a remembered device, except an MFA
      answer that carries a new one. */
  lemma DeviceIdSurvives(s: SessionState, data: Record, now: int, decode: string -> Option<Claims>)
    requires DeviceKey in s.storage
    ensures AfterLogin(s, data).storage[DeviceKey] == s.storage[DeviceKey]
    ensures AfterLogout(s).storage[DeviceKey] == s.storage[DeviceKey]
    ensures AfterStartup(s, now, decode).storage[DeviceKey] == s.storage[DeviceKey]
    ensures DeviceKey in AfterMfa(s, data).storage
  {
  }

  /** At start-up a token that fails to decode or has expired logs the user out. */
  lemma StartupRejectsBadToken(s: SessionState, now: int, decode: string -> Option<Claims>)
    requires TokenKey in s.storage && s.storage[TokenKey].Text? && s.storage[TokenKey].text != ""
    requires var d := decode(s.storage[TokenKey].text); d.None? || Expired(d.value.exp, now)
    ensures AfterStartup(s, now, decode) == AfterLogout(s).(loading := false)
  {
  }

  /** For a valid token the stored user record, if any, wins over the decoded claims;
      a stored user that parses to a falsy value leaves the claims in place, and one
      that does not parse makes `JSON.parse` throw, which logs out. */
  lemma StartupPrefersStoredUser(s: SessionState, now: int, decode: string -> Option<Claims>)
    requires TokenKey in s.storage && s.storage[TokenKey].Text? && s.storage[TokenKey].text != ""
    requires var d := decode(s.storage[TokenKey].text); d.Some? && !Expired(d.value.exp, now)
    ensures var r := AfterStartup(s, now, decode);
      && (UserKey !in s.storage ==> r == s.(user := Some(decode(s.storage[TokenKey].text).value.payload), loading := false))
      && (UserKey in s.storage && s.storage[UserKey].Json? ==> r == s.(user := Some(s.storage[UserKey].record), loading := false))
      && (UserKey in s.storage && s.storage[UserKey].Text? && ParsesFalsy(s.storage[UserKey].text) ==>
            r == s.(user := Some(decode(s.storage[TokenKey].text).value.payload), loading := false))
      && (UserKey in s.storage && s.storage[UserKey].Text? && !ParsesFalsy(s.storage[UserKey].text) ==>
            r == AfterLogout(s).(loading := false))
  {
  }

  /** Without a stored token start-up only clears the loading flag. */
  lemma StartupWithoutToken(s: SessionState, now: int, decode: string -> Option<Claims>)
    requires TokenKey !in s.storage || !StoredTruthy(s.storage[TokenKey])
    ensures AfterStartup(s, now, decode) == s.(loading := false)
  {
  }

  /** A user who logged out is not brought back by the next start-up. */
  lemma LogoutThenStartup(s: SessionState, now: int, decode: string -> Option<Claims>)
    ensures AfterStartup(AfterLogout(s), now, decode).user.None?
  {
  }

  /** The provider as the components see it, changed in place. */
  class Session {
    var storage: Storage
    var user: Option<Record>
    var loading: bool

    function State(): SessionState
      reads this
    {
      SessionState(storage, user, loading)
    }

    constructor (stored: Storage)
      ensures State() == Mounted(stored)
    {
      storage := stored;
      user := None;
      loading := true;
    }

    /** The start-up effect of the provider. */
    method Startup(now: int, decode: string -> Option<Claims>)
      modifies this
      ensures State() == AfterStartup(old(State()), now, decode)
    {
      if TokenKey in storage && StoredTruthy(storage[TokenKey]) {
        var token := storage[TokenKey];
        var decoded := if token.Text? then decode(token.text) else None;
        if decoded.None? {
          Logout();
        } else if Expired(decoded.value.exp, now) {
          Logout();
        } else {
          user := Some(decoded.value.payload);
          if UserKey in storage {
            match storage[UserKey]
            case Json(stored) => user := Some(stored);
            case Text(t) =>
              if !ParsesFalsy(t) {
                Logout();
              }
          }
        }
      }
      loading := false;
    }

    /** `login`: the response data are returned unchanged; an error propagates. */
    method Login(response: Outcome<Record>) returns (r: Outcome<Record>)
      modifies this
      ensures r == response
      ensures State() == if response.Ok? then AfterLogin(old(State()), response.data) else old(State())
    {
      r := response;
      if response.Ok? {
        var data := response.data;
        if Truthy(Field(data, TokenKey)) {
          var userData := data - {TokenKey};
          storage := storage[TokenKey := Text(data[TokenKey])];
          storage := storage[UserKey := Json(userData)];
          user := Some(userData);
        }
      }
    }

    /** `verifyOtp`: returns the user record it stored. */
    method VerifyOtp(response: Outcome<Record>) returns (r: Outcome<Record>)
      modifies this
      ensures r == if response.Ok? then Ok(MfaUser(response.data)) else response
      ensures State() == if response.Ok? then AfterMfa(old(State()), response.data) else old(State())
    {
      r := response;
      if response.Ok? {
        var data := response.data;
        var userData := data - {TokenKey, DeviceKey};
        storage := storage[TokenKey := Text(ToText(Field(data, TokenKey)))];
        storage := storage[UserKey := Json(userData)];
        if Truthy(Field(data, DeviceKey)) {
          storage := storage[DeviceKey := Text(data[DeviceKey])];
        }
        user := Some(userData);
        r := Ok(userData);
      }
    }

    /** `verifyTotp`: the same storage rule as `verifyOtp`, reading the JWT from `token`. */
    method VerifyTotp(response: Outcome<Record>) returns (r: Outcome<Record>)
      modifies this
      ensures r == if response.Ok? then Ok(MfaUser(response.data)) else response
      ensures State() == if response.Ok? then AfterMfa(old(State()), response.data) else old(State())
    {
      r := response;
      if response.Ok? {
        var data := response.data;
        var jwtToken := Field(data, TokenKey);
        var userData := data - {TokenKey, DeviceKey};
        storage := storage[TokenKey := Text(ToText(jwtToken))];
        storage := storage[UserKey := Json(userData)];
        if Truthy(Field(data, DeviceKey)) {
          storage := storage[DeviceKey := Text(data[DeviceKey])];
        }
        user := Some(userData);
        r := Ok(userData);
      }
    }

    /** `logout` */
    method Logout()
      modifies this
      ensures State() == AfterLogout(old(State()))
    {
      storage := storage - {TokenKey};
      storage := storage - {UserKey};
      user := None;
    }
  }
}
