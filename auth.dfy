/** The MitID authentication state (composables/useAuth.ts): the shared
    user, session id, loading flag and error, the derived authentication and
    masking views, and the callback, restore and logout flows over local and
    session storage. */
module Auth {
  import opened Wrappers
  import Text
  import Json
  import Users

  type User = Users.User

  /** isAuthenticated: a user and a non-empty session id. */
  function IsAuthenticated(user: Option<User>, sessionId: Option<string>): (r: bool)
    ensures r <==> user.Some? && sessionId.Some? && sessionId.value != ""
  {
    user.Some? && Users.Truthy(sessionId)
  }

  const FullMask := "******-****"

  /** maskedCpr: null without a CPR; with spaces and dashes removed, a CPR of
      ten characters shows its first six, any other length shows only stars. */
  function MaskedCpr(user: Option<User>): (r: Option<string>)
    ensures r.None? <==> user.None? || !Users.Truthy(user.value.cpr)
    ensures r.Some? ==> |r.value| == 11 && r.value[6..] == "-****"
    ensures r.Some? ==> var digits := Text.StripSpacesAndDashes(user.value.cpr.value);
      r.value == if |digits| == 10 then digits[..6] + "-****" else FullMask
  {
    if user.None? || !Users.Truthy(user.value.cpr) then None
    else
      var digits := Text.StripSpacesAndDashes(user.value.cpr.value);
      if |digits| != 10 then Some(FullMask) else Some(Text.Prefix(digits, 6) + "-****")
  }

  /** isSessionExpired: expired when there is no expiry; otherwise when the expiry lies before now. */
  function IsSessionExpired(user: Option<User>, now: int, parse: Users.DateParser): (r: bool)
    ensures user.None? || !Users.Truthy(user.value.sessionExpiry) ==> r
    ensures user.Some? && Users.Truthy(user.value.sessionExpiry) ==>
              (r <==> Users.Before(user.value.sessionExpiry.value, now, parse))
  {
    if user.None? || !Users.Truthy(user.value.sessionExpiry) then true
    else Users.Before(user.value.sessionExpiry.value, now, parse)
  }

  /** For a CPR written in digits, the two masks agree on ten digits and
      differ on every other length, where the user store still shows the
      first digits. */
  lemma MaskedCprComparison(u: User)
    requires Users.Truthy(u.cpr) && Text.AllDigits(Text.StripSpacesAndDashes(u.cpr.value))
    ensures var digits := Text.StripSpacesAndDashes(u.cpr.value);
      (MaskedCpr(Some(u)) == Users.MaskedCpr(Some(u))) <==> |digits| == 10
  {
    var digits := Text.StripSpacesAndDashes(u.cpr.value);
    if |digits| != 10 {
      var mine := Users.MaskedCpr(Some(u)).value;
      if |digits| < 6 {
        assert |mine| < 11;
      } else {
        assert mine[..6] == digits[..6];
        assert FullMask[..6] == "******";
        assert Text.IsDigit(digits[0]);
        assert mine[0] != FullMask[0];
      }
    }
  }

  /** The two expiry checks agree when an expiry is present and disagree when it is missing. */
  lemma ExpiryComparison(u: User, now: int, parse: Users.DateParser)
    ensures Users.Truthy(u.sessionExpiry) ==>
      IsSessionExpired(Some(u), now, parse) == Users.IsSessionExpired(u.sessionExpiry, now, parse)
    ensures !Users.Truthy(u.sessionExpiry) ==>
      IsSessionExpired(Some(u), now, parse) && !Users.IsSessionExpired(u.sessionExpiry, now, parse)
  {
  }

  /** The attributes of a MitID session record. */
  datatype SessionAttributes = SessionAttributes(cpr: Option<string>, name: Option<string>, email: Option<string>, expiry: Option<string>)

  /** The session lookup's `response.data`: absent, or present with or without attributes. */
  datatype SessionReply = NoData | Data(attributes: Option<SessionAttributes>)

  const InvalidSession := "Invalid session"
  /** The message of the TypeError a missing attributes object raises (V8's wording). */
  const MissingAttributes := "Cannot read properties of undefined (reading 'cpr')"

  const SessionKey := "mitid_session"
  const UserKey := "mitid_user"
  const ReturnUrlKey := "mitid_return_url"

  /** The lookup answered with session attributes. */
  predicate Loaded(reply: Result<SessionReply, string>) {
    reply.Ok? && reply.value.Data? && reply.value.attributes.Some?
  }

  /** The message of the error loadUserFromSession passes on when the lookup
      did not answer with attributes: the lookup's own, 'Invalid session'
      without data, the TypeError's without attributes. */
  function FailureMessage(reply: Result<SessionReply, string>): (r: string)
    ensures reply.Err? ==> r == reply.error
    ensures reply.Ok? ==> r != "" && (r == InvalidSession <==> reply.value.NoData?)
  {
    match reply
    case Err(m) => m
    case Ok(NoData) => InvalidSession
    case Ok(Data(_)) => MissingAttributes
  }

  /** The user loadUserFromSession builds: name and e-mail default to the empty string. */
  function UserOf(a: SessionAttributes): (u: User)
    ensures u.cpr == a.cpr && u.sessionExpiry == a.expiry
    ensures u.name == Json.OrDefault(a.name, "") && u.email == Some(Json.OrDefault(a.email, ""))
  {
    Users.User(a.cpr, Json.OrDefault(a.name, ""), Some(Json.OrDefault(a.email, "")), a.expiry)
  }

  /** The object `JSON.stringify(user)` writes; undefined fields are omitted. */
  function UserValue(u: User): Json.Value {
    Json.Obj(
      (if u.cpr.Some? then [("cpr", Json.Str(u.cpr.value))] else [])
      + [("name", Json.Str(u.name))]
      + (if u.email.Some? then [("email", Json.Str(u.email.value))] else [])
      + (if u.sessionExpiry.Some? then [("sessionExpiry", Json.Str(u.sessionExpiry.value))] else []))
  }

  class AuthState {
    var user: Option<User>
    var sessionId: Option<string>
    var loading: bool
    var error: Option<string>
    var localStorage: map<string, string>
    var sessionStorage: map<string, string>

    constructor (local0: map<string, string>, session0: map<string, string>)
      ensures user == None && sessionId == None && !loading && error == None
      ensures localStorage == local0 && sessionStorage == session0
    {
      user := None;
      sessionId := None;
      loading := false;
      error := None;
      localStorage := local0;
      sessionStorage := session0;
    }

    /** The state clearSession leaves. */
    predicate Cleared(local0: map<string, string>)
      reads this
    {
      user == None && sessionId == None && error == None && localStorage == local0 - {SessionKey, UserKey}
    }

    /** clearSession: no user, no session id, no error, and both stored items removed. */
    method ClearSession()
      modifies this`user, this`sessionId, this`error, this`localStorage
      ensures Cleared(old(localStorage))
    {
      user := None;
      sessionId := None;
      error := None;
      localStorage := localStorage - {SessionKey, UserKey};
    }

    /** loadUserFromSession(sid), with the lookup's outcome as `reply`: on
        success the session and user are set and stored; on any failure both
        are null, storage is untouched and the error is passed on. */
    method LoadUserFromSession(sid: string, reply: Result<SessionReply, string>) returns (r: Result<User, string>)
      modifies this`user, this`sessionId, this`localStorage
      ensures Loaded(reply) ==>
        var u := UserOf(reply.value.attributes.value);
        && r == Ok(u) && user == Some(u) && sessionId == Some(sid)
        && localStorage == old(localStorage)[SessionKey := sid][UserKey := Json.Serialize(UserValue(u))]
      ensures !Loaded(reply) ==>
        && user == None && sessionId == None && localStorage == old(localStorage)
        && r == Err(FailureMessage(reply))
    {
      match reply {
        case Err(m) =>
          sessionId, user := None, None;
          r := Err(m);
        case Ok(NoData) =>
          sessionId, user := None, None;
          r := Err(InvalidSession);
        case Ok(Data(None)) =>
          sessionId, user := None, None;
          r := Err(MissingAttributes);
        case Ok(Data(Some(a))) =>
          sessionId := Some(sid);
          var u := UserOf(a);
          user := Some(u);
          localStorage := localStorage[SessionKey := sid][UserKey := Json.Serialize(UserValue(u))];
          r := Ok(u);
      }
    }

    /** handleCallback, with the `session` query parameter and the lookup's
        outcome as parameters. Without a session id it records an error and
        does not fetch; otherwise it loads the user, on success consumes a
        stored return URL to navigate to, and on failure records the error's
        message or 'Authentication failed'. */
    method HandleCallback(param: Option<string>, reply: Result<SessionReply, string>)
      returns (ok: bool, navigate: Option<string>)
      modifies this
      ensures !Users.Truthy(param) ==>
        && !ok && navigate == None && error == Some("No session ID in callback")
        && user == old(user) && sessionId == old(sessionId) && loading == old(loading)
        && localStorage == old(localStorage) && sessionStorage == old(sessionStorage)
      ensures Users.Truthy(param) ==> !loading
      ensures Users.Truthy(param) && Loaded(reply) ==>
        && ok && user == Some(UserOf(reply.value.attributes.value)) && sessionId == param
        && error == old(error)
        && localStorage == old(localStorage)[SessionKey := param.value]
                             [UserKey := Json.Serialize(UserValue(UserOf(reply.value.attributes.value)))]
        && var back := if ReturnUrlKey in old(sessionStorage) then Some(old(sessionStorage)[ReturnUrlKey]) else None;
           if Users.Truthy(back)
           then navigate == back && sessionStorage == old(sessionStorage) - {ReturnUrlKey}
           else navigate == None && sessionStorage == old(sessionStorage)
      ensures Users.Truthy(param) && !Loaded(reply) ==>
        && !ok && navigate == None && user == None && sessionId == None
        && sessionStorage == old(sessionStorage) && localStorage == old(localStorage)
        && error == Some(Json.OrDefault(Some(FailureMessage(reply)), "Authentication failed"))
    {
      if !Users.Truthy(param) {
        error := Some("No session ID in callback");
        return false, None;
      }
      loading := true;
      var r := LoadUserFromSession(param.value, reply);
      if r.Err? {
        error := Some(Json.OrDefault(Some(r.error), "Authentication failed"));
        ok, navigate := false, None;
      } else {
        var back := if ReturnUrlKey in sessionStorage then Some(sessionStorage[ReturnUrlKey]) else None;
        navigate := None;
        if Users.Truthy(back) {
          sessionStorage := sessionStorage - {ReturnUrlKey};
          navigate := back;
        }
        ok := true;
      }
      loading := false;
    }

    /** restoreSession, with the lookup's outcome as `reply`: without both a
        stored session id and a stored user it answers false and asks nothing
        of `fetchResource`; otherwise it reloads the user through a session
        request, and clears the session when that fails. `requested` says
        that `fetchResource` was asked, which may answer from its cache. */
    method RestoreSession(reply: Result<SessionReply, string>) returns (ok: bool, requested: bool)
      modifies this
      ensures var sid := if SessionKey in old(localStorage) then Some(old(localStorage)[SessionKey]) else None;
        var stored := if UserKey in old(localStorage) then Some(old(localStorage)[UserKey]) else None;
        if !Users.Truthy(sid) || !Users.Truthy(stored) then
          && !ok && !requested
          && user == old(user) && sessionId == old(sessionId) && error == old(error)
          && loading == old(loading) && localStorage == old(localStorage)
        else
          && requested && !loading
          && if Loaded(reply) then
               && ok && user == Some(UserOf(reply.value.attributes.value)) && sessionId == sid
               && error == old(error)
               && localStorage == old(localStorage)[SessionKey := sid.value]
                                    [UserKey := Json.Serialize(UserValue(UserOf(reply.value.attributes.value)))]
             else
               !ok && Cleared(old(localStorage))
      ensures sessionStorage == old(sessionStorage)
    {
      var sid := if SessionKey in localStorage then Some(localStorage[SessionKey]) else None;
      var stored := if UserKey in localStorage then Some(localStorage[UserKey]) else None;
      if !Users.Truthy(sid) || !Users.Truthy(stored) {
        return false, false;
      }
      loading := true;
      requested := true;
      var r := LoadUserFromSession(sid.value, reply);
      if r.Err? {
        ClearSession();
        ok := false;
      } else {
        ok := true;
      }
      loading := false;
    }

    /** logout: a logout request goes to `fetchResource` only when there is a
        session id, and the session is cleared whatever it answers. */
    method Logout() returns (requested: bool)
      modifies this
      ensures requested <==> Users.Truthy(old(sessionId))
      ensures Cleared(old(localStorage)) && !loading
      ensures sessionStorage == old(sessionStorage)
    {
      loading := true;
      requested := Users.Truthy(sessionId);
      ClearSession();
      loading := false;
    }
  }
}
