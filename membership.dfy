/**
 * The open credential policy plugged into the FTP engine
 * (Services/AllowAllMembershipProvider.cs): every login is accepted.
 */
module Membership {
  import opened Wrappers

  /** The standard claim types of a .NET ClaimsIdentity. */
  const DefaultNameClaimType: string := "http://schemas.xmlsoap.org/ws/2005/05/identity/claims/name"
  const DefaultRoleClaimType: string := "http://schemas.microsoft.com/ws/2008/06/identity/claims/role"

  /** The identity label given to a blank username. */
  const AnonymousName: string := "anonymous"
  const UserRole: string := "user"
  const AuthenticationType: string := "custom"

  /** The outcomes a membership provider of the FTP engine can report. */
  datatype MemberValidationStatus = InvalidLogin | InvalidAnonymousEmail | Anonymous | AuthenticatedUser

  datatype Claim = Claim(claimType: string, value: string)

  datatype ClaimsIdentity = ClaimsIdentity(
    authenticationType: string,
    nameClaimType: string,
    roleClaimType: string,
    claims: seq<Claim>)

  datatype MemberValidationResult = MemberValidationResult(status: MemberValidationStatus, identity: ClaimsIdentity)

  /** The characters .NET's char.IsWhiteSpace accepts (Unicode Zs, Zl, Zp, U+0009..U+000D, U+0085). */
  predicate IsWhiteSpace(c: char)
  {
    ('\U{0009}' <= c <= '\U{000D}') || c == ' ' || c == '\U{0085}' || c == '\U{00A0}' || c == '\U{1680}'
    || ('\U{2000}' <= c <= '\U{200A}') || c == '\U{2028}' || c == '\U{2029}' || c == '\U{202F}'
    || c == '\U{205F}' || c == '\U{3000}'
  }

  /** Every character of s is white space (vacuously so for the empty string). */
  function AllWhiteSpace(s: string): (r: bool)
    ensures r <==> forall i :: 0 <= i < |s| ==> IsWhiteSpace(s[i])
  {
    if s == [] then true else IsWhiteSpace(s[0]) && AllWhiteSpace(s[1..])
  }

  /** string.IsNullOrWhiteSpace: null, empty, or white space only. */
  function IsNullOrWhiteSpace(s: Option<string>): (r: bool)
    ensures r <==> s.None? || forall i :: 0 <= i < |s.value| ==> IsWhiteSpace(s.value[i])
  {
    match s
    case None => true
    case Some(str) => AllWhiteSpace(str)
  }

  /** The value of the first claim of the given type, if any. */
  function FindClaim(claims: seq<Claim>, claimType: string): Option<string>
  {
    if claims == [] then None
    else if claims[0].claimType == claimType then Some(claims[0].value)
    else FindClaim(claims[1..], claimType)
  }

  /** The name claim of an identity, as ClaimsIdentity.Name reports it. */
  function Name(identity: ClaimsIdentity): Option<string>
  {
    FindClaim(identity.claims, identity.nameClaimType)
  }

  /** The role claim of an identity. */
  function Role(identity: ClaimsIdentity): Option<string>
  {
    FindClaim(identity.claims, identity.roleClaimType)
  }

  /** The name the identity carries for a presented username. */
  function IdentityName(username: Option<string>): (r: string)
    ensures !IsNullOrWhiteSpace(Some(r))
    ensures !IsNullOrWhiteSpace(username) ==> r == username.value
  {
    if IsNullOrWhiteSpace(username) then assert !IsWhiteSpace(AnonymousName[0]); AnonymousName else username.value
  }

  /** ValidateUserAsync: accept every pair, naming blank users "anonymous", with role "user". */
  function ValidateUser(username: Option<string>, password: Option<string>): (r: MemberValidationResult)
    ensures r.status == AuthenticatedUser
    ensures r.identity.authenticationType == AuthenticationType
    ensures |r.identity.claims| == 2
    ensures r.identity.claims[0].claimType == DefaultNameClaimType
    ensures r.identity.claims[1].claimType == DefaultRoleClaimType
    ensures Name(r.identity) == Some(if username.None? || AllWhiteSpace(username.value) then AnonymousName else username.value)
    ensures Role(r.identity) == Some(UserRole)
  {
    assert |DefaultNameClaimType| != |DefaultRoleClaimType|;
    var identity := ClaimsIdentity(AuthenticationType, DefaultNameClaimType, DefaultRoleClaimType,
      [Claim(DefaultNameClaimType, IdentityName(username)), Claim(DefaultRoleClaimType, UserRole)]);
    assert identity.claims[1..] == [Claim(DefaultRoleClaimType, UserRole)];
    assert Role(identity) == FindClaim(identity.claims[1..], DefaultRoleClaimType);
    MemberValidationResult(AuthenticatedUser, identity)
  }

  /** The result does not depend on the password. */
  lemma PasswordIsIgnored(username: Option<string>, p1: Option<string>, p2: Option<string>)
    ensures ValidateUser(username, p1) == ValidateUser(username, p2)
  {
  }

  /** The name claim is never blank, whatever the username. */
  lemma NameIsNeverBlank(username: Option<string>, password: Option<string>)
    ensures Name(ValidateUser(username, password).identity).Some?
    ensures !IsNullOrWhiteSpace(Name(ValidateUser(username, password).identity))
  {
    assert !IsWhiteSpace(AnonymousName[0]);
  }

  /**
   * A non-blank username is kept unchanged, and the label "anonymous"
   * appears only for a blank username or for the literal username "anonymous".
   */
  lemma NameIsUsernameUnlessBlank(username: Option<string>, password: Option<string>)
    ensures !IsNullOrWhiteSpace(username) ==> Name(ValidateUser(username, password).identity) == username
    ensures Name(ValidateUser(username, password).identity) == Some(AnonymousName)
        <==> IsNullOrWhiteSpace(username) || username == Some(AnonymousName)
  {
  }
}
