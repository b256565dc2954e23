/**
 * The frontend's sign-in state (`auth.service.ts`): the Google ID token and
 * the user it names, mirrored in session storage, and the listeners told of
 * every change. The clock (whole seconds) is a parameter of each call that
 * asks whether the token has expired; decoding the token's payload segment
 * (base64 and JSON) is a function the service is given.
 */
module Auth {
  import opened Common

  /** `AuthUser`. */
  datatype AuthUser = AuthUser(email: string, name: string, picture: string)

  /**
   * A decoded token payload. `exp` is `Number(payload.exp)`: a whole number
   * of seconds, or none when it is not a number (a missing claim included).
   */
  datatype Payload = Payload(email: string, name: string, picture: string, exp: Option<int>)

  /** Seconds before `exp` from which a token already counts as expired. */
  const ExpiryBuffer: int := 300

  /**
   * `decodeJwtPayload`: the second `.`-separated segment, decoded. A token
   * without a second segment cannot be decoded.
   */
  function DecodePayload(decodeSegment: string -> Option<Payload>, token: string): (r: Option<Payload>)
    ensures |Split(token, '.')| < 2 ==> r.None?
    ensures |Split(token, '.')| >= 2 ==> r == decodeSegment(Split(token, '.')[1])
  {
    var parts := Split(token, '.');
    if |parts| < 2 then None else decodeSegment(parts[1])
  }

  /**
   * `isTokenExpired`: an undecodable token is expired; otherwise it is
   * expired from `exp - 300` on. A non-numeric `exp` compares false, so such
   * a token never expires.
   */
  function Expired(decodeSegment: string -> Option<Payload>, token: string, now: int): (r: bool)
    ensures DecodePayload(decodeSegment, token).None? ==> r
    ensures DecodePayload(decodeSegment, token).Some? && DecodePayload(decodeSegment, token).value.exp.Some? ==>
      (r <==> now >= DecodePayload(decodeSegment, token).value.exp.value - ExpiryBuffer)
    ensures DecodePayload(decodeSegment, token).Some? && DecodePayload(decodeSegment, token).value.exp.None? ==> !r
  {
    match DecodePayload(decodeSegment, token)
    case None => true
    case Some(p) => p.exp.Some? && now >= p.exp.value - ExpiryBuffer
  }

  /** Once expired, a token stays expired as the clock advances. */
  lemma ExpiredStaysExpired(decodeSegment: string -> Option<Payload>, token: string, now: int, later: int)
    requires now <= later && Expired(decodeSegment, token, now)
    ensures Expired(decodeSegment, token, later)
  {
  }

  /** A token with a numeric `exp` is good until 300 s before `exp` and expired from then on. */
  lemma ValidUntilBuffer(decodeSegment: string -> Option<Payload>, token: string, now: int)
    requires DecodePayload(decodeSegment, token).Some?
    requires DecodePayload(decodeSegment, token).value.exp == Some(now + ExpiryBuffer + 1)
    ensures !Expired(decodeSegment, token, now)
    ensures Expired(decodeSegment, token, now + 1)
  {
  }

  /** The empty string, having no second segment, is always expired. */
  lemma EmptyTokenExpired(decodeSegment: string -> Option<Payload>, now: int)
    ensures Expired(decodeSegment, "", now)
  {
    assert Split("", '.') == [""];
  }

  /** The user a payload names. */
  function UserOf(p: Payload): AuthUser {
    AuthUser(p.email, p.name, p.picture)
  }

  /** A callback registered with `onAuthChange`, identified by reference. */
  type Listener = nat

  /** One `notifyListeners` call: the listeners at that moment and the user they were given. */
  datatype Notification = Notification(listeners: set<Listener>, user: Option<AuthUser>)

  class AuthService {
    const decodeSegment: string -> Option<Payload>
    var token: Option<string>
    var user: Option<AuthUser>
    var listeners: set<Listener>
    /** The session storage entries under the token and user keys. */
    var storedToken: Option<string>
    var storedUser: Option<AuthUser>
    /** Every notification sent so far, oldest first. */
    var notifications: seq<Notification>

    /** A token is held exactly when a user is, and it is never the empty string. */
    ghost predicate Valid()
      reads this
    {
      (token.Some? <==> user.Some?) && (token.Some? ==> token.value != "")
    }

    /** The service as the module creates it: nothing held, then `restoreSession`. */
    constructor(decodeSegment: string -> Option<Payload>, storedToken: Option<string>,
                storedUser: Option<AuthUser>, now: int)
      ensures Valid() && this.decodeSegment == decodeSegment && listeners == {} && notifications == []
      ensures RestoresFrom(storedToken, storedUser, now) ==>
        token == storedToken && user == storedUser
        && this.storedToken == storedToken && this.storedUser == storedUser
      ensures !RestoresFrom(storedToken, storedUser, now) ==>
        token.None? && user.None? && this.storedToken.None? && this.storedUser.None?
    {
      this.decodeSegment := decodeSegment;
      token := None;
      user := None;
      listeners := {};
      this.storedToken := storedToken;
      this.storedUser := storedUser;
      notifications := [];
      new;
      RestoreSession(now);
    }

    /** Whether `restoreSession` adopts the stored entries: both present, and the token unexpired. */
    predicate RestoresFrom(storedToken: Option<string>, storedUser: Option<AuthUser>, now: int)
      reads this
    {
      storedToken.Some? && storedToken.value != "" && storedUser.Some?
      && !Expired(decodeSegment, storedToken.value, now)
    }

    /** `restoreSession`: adopt the stored session, or remove both entries. */
    method RestoreSession(now: int)
      requires token.None? && user.None?
      modifies this
      ensures Valid() && listeners == old(listeners) && notifications == old(notifications)
      ensures RestoresFrom(old(storedToken), old(storedUser), now) ==>
        token == old(storedToken) && user == old(storedUser)
        && storedToken == old(storedToken) && storedUser == old(storedUser)
      ensures !RestoresFrom(old(storedToken), old(storedUser), now) ==>
        token.None? && user.None? && storedToken.None? && storedUser.None?
    {
      if storedToken.Some? && storedToken.value != "" && storedUser.Some?
         && !Expired(decodeSegment, storedToken.value, now) {
        token := storedToken;
        user := storedUser;
      } else {
        storedToken := None;
        storedUser := None;
      }
    }

    /** Whether the held token has expired at `now` (`this.token && isTokenExpired(this.token)`). */
    predicate HeldTokenExpired(now: int)
      reads this
    {
      token.Some? && token.value != "" && Expired(decodeSegment, token.value, now)
    }

    /** `clearAuth`: forget token and user, remove both entries, tell every listener. */
    method ClearAuth()
      modifies this
      ensures Valid()
      ensures token.None? && user.None? && storedToken.None? && storedUser.None?
      ensures listeners == old(listeners)
      ensures notifications == old(notifications) + [Notification(listeners, None)]
    {
      token := None;
      user := None;
      storedToken := None;
      storedUser := None;
      notifications := notifications + [Notification(listeners, user)];
    }

    /** `getToken`: the held token, or none after clearing an expired one. */
    method GetToken(now: int) returns (r: Option<string>)
      requires Valid()
      modifies this
      ensures Valid() && listeners == old(listeners)
      ensures old(HeldTokenExpired(now)) ==>
        r.None? && token.None? && user.None? && storedToken.None? && storedUser.None?
        && notifications == old(notifications) + [Notification(listeners, None)]
      ensures !old(HeldTokenExpired(now)) ==>
        r == token && token == old(token) && user == old(user) && storedToken == old(storedToken)
        && storedUser == old(storedUser) && notifications == old(notifications)
    {
      if token.Some? && token.value != "" && Expired(decodeSegment, token.value, now) {
        ClearAuth();
        return None;
      }
      r := token;
    }

    /** `getUser`: the held user, or none after clearing an expired token. */
    method GetUser(now: int) returns (r: Option<AuthUser>)
      requires Valid()
      modifies this
      ensures Valid() && listeners == old(listeners)
      ensures old(HeldTokenExpired(now)) ==>
        r.None? && token.None? && user.None? && storedToken.None? && storedUser.None?
        && notifications == old(notifications) + [Notification(listeners, None)]
      ensures !old(HeldTokenExpired(now)) ==>
        r == user && token == old(token) && user == old(user) && storedToken == old(storedToken)
        && storedUser == old(storedUser) && notifications == old(notifications)
    {
      if token.Some? && token.value != "" && Expired(decodeSegment, token.value, now) {
        ClearAuth();
        return None;
      }
      r := user;
    }

    /** `isAuthenticated`: `getToken() !== null`, so a token held and not expired. */
    method IsAuthenticated(now: int) returns (b: bool)
      requires Valid()
      modifies this
      ensures Valid() && listeners == old(listeners)
      ensures b <==> old(token).Some? && !Expired(decodeSegment, old(token).value, now)
      ensures b ==> token == old(token) && user == old(user) && user.Some?
      ensures !b ==> token.None? && user.None?
    {
      var t := GetToken(now);
      b := t.Some?;
    }

    /**
     * `handleCredentialResponse`: a credential whose payload decodes becomes
     * the held and stored token, its payload the user, and every listener is
     * told; one that does not decode throws before anything changes.
     */
    method HandleCredentialResponse(credential: string)
      requires Valid()
      modifies this
      ensures Valid() && listeners == old(listeners)
      ensures DecodePayload(decodeSegment, credential).None? ==>
        token == old(token) && user == old(user) && storedToken == old(storedToken)
        && storedUser == old(storedUser) && notifications == old(notifications)
      ensures DecodePayload(decodeSegment, credential).Some? ==>
        var u := UserOf(DecodePayload(decodeSegment, credential).value);
        token == Some(credential) && user == Some(u) && storedToken == Some(credential) && storedUser == Some(u)
        && notifications == old(notifications) + [Notification(listeners, Some(u))]
    {
      var payload := DecodePayload(decodeSegment, credential);
      if payload.None? {
        return;
      }
      assert credential != "" by {
        EmptyTokenExpired(decodeSegment, 0);
      }
      token := Some(credential);
      user := Some(UserOf(payload.value));
      storedToken := Some(credential);
      storedUser := user;
      notifications := notifications + [Notification(listeners, user)];
    }

    /** `signOut`. */
    method SignOut()
      modifies this
      ensures Valid() && token.None? && user.None? && storedToken.None? && storedUser.None?
      ensures listeners == old(listeners)
      ensures notifications == old(notifications) + [Notification(listeners, None)]
    {
      ClearAuth();
    }

    /** `onAuthChange(callback)`: the callback is added to the listeners. */
    method OnAuthChange(callback: Listener)
      modifies this
      ensures listeners == old(listeners) + {callback}
      ensures token == old(token) && user == old(user) && notifications == old(notifications)
    {
      listeners := listeners + {callback};
    }

    /** The function `onAuthChange` returns: removes exactly that callback. */
    method Unsubscribe(callback: Listener)
      modifies this
      ensures listeners == old(listeners) - {callback}
      ensures token == old(token) && user == old(user) && notifications == old(notifications)
    {
      listeners := listeners - {callback};
    }
  }
}
