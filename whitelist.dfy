/**
 * The write guard in front of every handler (`EmailWhitelistFilter.java`):
 * reads pass; a write needs a JWT whose email is verified and on the
 * configured whitelist. The whitelist is lower-cased once when the filter is
 * built; the email is lower-cased on each request.
 */
module Whitelist {
  import opened Common

  /** The authenticated principal: none, something other than a JWT, or a JWT with its two claims. */
  datatype Principal =
    | Anonymous
    | OtherPrincipal
    | JwtPrincipal(email: Option<string>, emailVerified: Option<bool>)

  /** What `preHandle` decides: go on, or stop with a status and, for a 403, an error code. */
  datatype Decision = Allow | Deny(status: int, code: Option<string>)

  const NotVerified := "EMAIL_NOT_VERIFIED"
  const NotWhitelisted := "EMAIL_NOT_WHITELISTED"

  /** `equalsIgnoreCase`, on the ASCII letters. */
  predicate EqualsIgnoreCase(a: string, b: string) {
    ToLower(a) == ToLower(b)
  }

  /** GET, OPTIONS and HEAD, in any case. */
  predicate IsReadMethod(verb: string) {
    EqualsIgnoreCase("GET", verb) || EqualsIgnoreCase("OPTIONS", verb) || EqualsIgnoreCase("HEAD", verb)
  }

  /** The filter's `allowedEmails`: every configured address, lower-cased. */
  function AllowedEmails(configured: seq<string>): (r: set<string>)
    ensures forall e :: e in r <==> exists c :: c in configured && ToLower(c) == e
  {
    set c | c in configured :: ToLower(c)
  }

  /** `preHandle`: the guards in order, verb, principal, verification, whitelist. */
  function PreHandle(allowed: set<string>, verb: string, principal: Principal): (r: Decision)
    ensures IsReadMethod(verb) ==> r == Allow
    ensures !IsReadMethod(verb) && !principal.JwtPrincipal? ==> r == Deny(401, None)
    ensures (!IsReadMethod(verb) && principal.JwtPrincipal?
             && (principal.email.None? || principal.emailVerified != Some(true))) ==> r == Deny(403, Some(NotVerified))
    ensures !IsReadMethod(verb) && principal.JwtPrincipal? && principal.email.Some?
            && principal.emailVerified == Some(true) ==>
      r == (if ToLower(principal.email.value) in allowed then Allow else Deny(403, Some(NotWhitelisted)))
  {
    if IsReadMethod(verb) then Allow
    else if !principal.JwtPrincipal? then Deny(401, None)
    else if principal.email.None? || principal.emailVerified != Some(true) then Deny(403, Some(NotVerified))
    else if ToLower(principal.email.value) !in allowed then Deny(403, Some(NotWhitelisted))
    else Allow
  }

  /**
   * A request passes exactly when it reads, or carries a JWT whose email is
   * verified and matches a configured address up to case.
   */
  lemma PassesIff(configured: seq<string>, verb: string, principal: Principal)
    ensures PreHandle(AllowedEmails(configured), verb, principal) == Allow <==>
      IsReadMethod(verb)
      || (principal.JwtPrincipal? && principal.email.Some? && principal.emailVerified == Some(true)
          && exists c :: c in configured && EqualsIgnoreCase(c, principal.email.value))
  {
  }

  /** Every refusal is a 401 or a 403 with one of the two codes. */
  lemma DenialsAreAuthErrors(allowed: set<string>, verb: string, principal: Principal)
    ensures var r := PreHandle(allowed, verb, principal);
      r.Deny? ==> r == Deny(401, None) || r == Deny(403, Some(NotVerified)) || r == Deny(403, Some(NotWhitelisted))
  {
  }

  /** Two emails equal up to case get the same decision. */
  lemma CaseInsensitiveEmail(allowed: set<string>, verb: string, e1: string, e2: string, verified: Option<bool>)
    requires EqualsIgnoreCase(e1, e2)
    ensures PreHandle(allowed, verb, JwtPrincipal(Some(e1), verified))
         == PreHandle(allowed, verb, JwtPrincipal(Some(e2), verified))
  {
  }

  /** An unverified email is refused as unverified, whitelisted or not. */
  lemma UnverifiedRefused(configured: seq<string>, verb: string, email: string, verified: Option<bool>)
    requires !IsReadMethod(verb) && verified != Some(true)
    ensures PreHandle(AllowedEmails(configured), verb, JwtPrincipal(Some(email), verified)) == Deny(403, Some(NotVerified))
  {
  }

  /** The read methods pass in any spelling, without a principal. */
  lemma ReadsPassInAnyCase(allowed: set<string>)
    ensures PreHandle(allowed, "get", Anonymous) == Allow
    ensures PreHandle(allowed, "Head", Anonymous) == Allow
    ensures PreHandle(allowed, "OPTIONS", Anonymous) == Allow
  {
    assert ToLower("get") == ToLower("GET");
    assert ToLower("Head") == ToLower("HEAD");
  }

  /** A write does not pass anonymously, so POST, PUT and DELETE need a principal. */
  lemma WritesNeedPrincipal(allowed: set<string>)
    ensures PreHandle(allowed, "POST", Anonymous) == Deny(401, None)
    ensures PreHandle(allowed, "delete", Anonymous) == Deny(401, None)
  {
    assert ToLower("POST")[0] == 'p' && ToLower("delete")[0] == 'd';
    assert ToLower("GET")[0] == 'g' && ToLower("HEAD")[0] == 'h' && ToLower("OPTIONS")[0] == 'o';
  }
}
