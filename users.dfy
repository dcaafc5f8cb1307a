/** The user store (stores/user.ts): the signed-in citizen, their session
    id and expiry, the display getters, and the session transitions mirrored
    in browser storage. */
module Users {
  import opened Wrappers
  import Text
  import Json

  /** User: a CPR number, a name, optionally an e-mail address and the session expiry. */
  datatype User = User(cpr: Option<string>, name: string, email: Option<string>, sessionExpiry: Option<string>)

  /** `new Date(s).getTime()`: the instant in milliseconds, or None for an Invalid Date. */
  type DateParser = string -> Option<int>

  predicate Truthy(s: Option<string>) {
    s.Some? && s.value != ""
  }

  /** `new Date(expiry) < new Date()` for a present expiry: an Invalid Date compares false. */
  function Before(expiry: string, now: int, parse: DateParser): (r: bool)
    ensures parse(expiry).None? ==> !r
    ensures parse(expiry).Some? ==> (r <==> parse(expiry).value < now)
  {
    var t := parse(expiry);
    t.Some? && t.value < now
  }

  /** maskedCpr: with spaces and dashes removed, the first six characters and
      "-****"; no check of the CPR's length. */
  function MaskedCpr(user: Option<User>): (r: Option<string>)
    ensures r.None? <==> user.None? || !Truthy(user.value.cpr)
    ensures r.Some? ==> var digits := Text.StripSpacesAndDashes(user.value.cpr.value);
      && r.value == Text.Prefix(digits, 6) + "-****"
      && |r.value| == (if |digits| < 6 then |digits| else 6) + 5
  {
    if user.None? || !Truthy(user.value.cpr) then None
    else Some(Text.Prefix(Text.StripSpacesAndDashes(user.value.cpr.value), 6) + "-****")
  }

  /** A short CPR is not caught: "1234" masks to "1234-****". */
  lemma MaskedShortCpr()
    ensures MaskedCpr(Some(User(Some("1234"), "A", None, None))) == Some("1234-****")
  {
    var cpr := "1234";
    assert forall i :: 0 <= i < |cpr| ==> '0' <= cpr[i] <= '9';
    assert Text.StripSpacesAndDashes(cpr) == cpr;
    assert Text.Prefix(cpr, 6) == cpr;
    assert cpr + "-****" == "1234-****";
  }

  /** isSessionExpired: not expired without an expiry; otherwise expired when the expiry lies before now. */
  function IsSessionExpired(sessionExpiry: Option<string>, now: int, parse: DateParser): (r: bool)
    ensures !Truthy(sessionExpiry) ==> !r
    ensures Truthy(sessionExpiry) ==> (r <==> Before(sessionExpiry.value, now, parse))
  {
    Truthy(sessionExpiry) && Before(sessionExpiry.value, now, parse)
  }

  /** displayName: the user's name, or 'Unknown User'. */
  function DisplayName(user: Option<User>): (r: string)
    ensures r != ""
    ensures user.Some? && user.value.name != "" ==> r == user.value.name
    ensures user.None? || user.value.name == "" ==> r == "Unknown User"
  {
    if user.Some? then Json.OrDefault(Some(user.value.name), "Unknown User") else "Unknown User"
  }

  const SessionIdKey := "auth_session_id"
  const SessionExpiryKey := "auth_session_expiry"

  /** The data a session lookup answers with. */
  datatype SessionData = SessionData(user: User, expiry: Option<string>)

  /** What restoreSession decided: nothing stored, an expired session
      cleared, or a session whose user data is to be loaded. */
  datatype Restore = NothingStored | ExpiredCleared | LoadUser(sessionId: string)

  class UserStore {
    var user: Option<User>
    var sessionId: Option<string>
    var sessionExpiry: Option<string>
    var isAuthenticated: bool
    var loading: bool
    /** localStorage. */
    var storage: map<string, string>

    constructor (storage0: map<string, string>)
      ensures user == None && sessionId == None && sessionExpiry == None
      ensures !isAuthenticated && !loading && storage == storage0
    {
      user := None;
      sessionId := None;
      sessionExpiry := None;
      isAuthenticated := false;
      loading := false;
      storage := storage0;
    }

    /** The state clearSession leaves, storage included. */
    predicate Cleared(storage0: map<string, string>)
      reads this
    {
      && user == None && sessionId == None && sessionExpiry == None && !isAuthenticated
      && storage == storage0 - {SessionIdKey, SessionExpiryKey}
    }

    /** setUser: the user and session recorded and marked authenticated; the
        expiry is stored only when one is given, so an older stored expiry
        otherwise survives. */
    method SetUser(u: User, sid: string, expiry: Option<string>)
      modifies this`user, this`sessionId, this`sessionExpiry, this`isAuthenticated, this`storage
      ensures user == Some(u) && sessionId == Some(sid) && isAuthenticated
      ensures sessionExpiry == if Truthy(expiry) then expiry else None
      ensures storage == if Truthy(expiry)
                         then old(storage)[SessionIdKey := sid][SessionExpiryKey := expiry.value]
                         else old(storage)[SessionIdKey := sid]
    {
      user := Some(u);
      sessionId := Some(sid);
      sessionExpiry := if Truthy(expiry) then expiry else None;
      isAuthenticated := true;
      storage := storage[SessionIdKey := sid];
      if Truthy(expiry) {
        storage := storage[SessionExpiryKey := expiry.value];
      }
    }

    /** clearSession: nobody signed in and both storage keys removed. */
    method ClearSession()
      modifies this`user, this`sessionId, this`sessionExpiry, this`isAuthenticated, this`storage
      ensures Cleared(old(storage))
    {
      user := None;
      sessionId := None;
      sessionExpiry := None;
      isAuthenticated := false;
      storage := storage - {SessionIdKey, SessionExpiryKey};
    }

    /** loadSession(sid), with the lookup's answer as `reply`: a user in the
        answer is set, an answer without one changes nothing, a failure clears the session. */
    method LoadSession(sid: string, reply: Result<Option<SessionData>, string>)
      modifies this
      ensures !loading
      ensures reply.Ok? && reply.value.Some? ==>
        && user == Some(reply.value.value.user) && sessionId == Some(sid) && isAuthenticated
        && sessionExpiry == (if Truthy(reply.value.value.expiry) then reply.value.value.expiry else None)
        && storage == if Truthy(reply.value.value.expiry)
                      then old(storage)[SessionIdKey := sid][SessionExpiryKey := reply.value.value.expiry.value]
                      else old(storage)[SessionIdKey := sid]
      ensures reply.Ok? && reply.value.None? ==>
        && user == old(user) && sessionId == old(sessionId) && sessionExpiry == old(sessionExpiry)
        && isAuthenticated == old(isAuthenticated) && storage == old(storage)
      ensures reply.Err? ==> Cleared(old(storage))
    {
      loading := true;
      match reply {
        case Ok(Some(data)) => SetUser(data.user, sid, data.expiry);
        case Ok(None) =>
        case Err(_) => ClearSession();
      }
      loading := false;
    }

    /** restoreSession's decision, read from storage at time `now`: nothing
        happens without a stored id; an expired stored session is cleared;
        otherwise the id and expiry are taken over and the session is to be loaded. */
    method RestoreSession(now: int, parse: DateParser) returns (d: Restore)
      modifies this
      ensures var sid := if SessionIdKey in old(storage) then Some(old(storage)[SessionIdKey]) else None;
        var exp := if SessionExpiryKey in old(storage) then Some(old(storage)[SessionExpiryKey]) else None;
        if !Truthy(sid) then
          && d == NothingStored
          && user == old(user) && sessionId == old(sessionId) && sessionExpiry == old(sessionExpiry)
          && isAuthenticated == old(isAuthenticated) && storage == old(storage)
        else if IsSessionExpired(exp, now, parse) then
          d == ExpiredCleared && Cleared(old(storage))
        else
          && d == LoadUser(sid.value)
          && sessionId == sid && sessionExpiry == exp
          && user == old(user) && isAuthenticated == old(isAuthenticated) && storage == old(storage)
      ensures loading == old(loading)
    {
      var sid := if SessionIdKey in storage then Some(storage[SessionIdKey]) else None;
      var exp := if SessionExpiryKey in storage then Some(storage[SessionExpiryKey]) else None;
      if !Truthy(sid) {
        return NothingStored;
      }
      sessionId := sid;
      sessionExpiry := exp;
      if IsSessionExpired(sessionExpiry, now, parse) {
        ClearSession();
        return ExpiredCleared;
      }
      return LoadUser(sid.value);
    }

    /** logout: the backend is called only with a session id, and the session
        is cleared whether or not that call fails. */
    method Logout() returns (calledBackend: bool)
      modifies this`user, this`sessionId, this`sessionExpiry, this`isAuthenticated, this`storage
      ensures calledBackend <==> Truthy(old(sessionId))
      ensures Cleared(old(storage))
    {
      calledBackend := Truthy(sessionId);
      ClearSession();
    }
  }
}
