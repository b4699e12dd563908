/** The vocabulary of the Data Protection token handlers: token kinds and their
    usage names, protector purposes, server options, principals, the abstract
    cryptographic backend, and the two handler contexts. */
module DataProtectionTypes {
  import opened Wrappers

  /** The five token kinds the Data Protection format can carry. */
  datatype TokenKind = AccessToken | AuthorizationCode | DeviceCode | RefreshToken | UserCode

  /** The token-usage name of each kind (OpenIddict's `TokenUsages` constants). */
  function UsageName(k: TokenKind): string
  {
    match k
    case AccessToken => "access_token"
    case AuthorizationCode => "authorization_code"
    case DeviceCode => "device_code"
    case RefreshToken => "refresh_token"
    case UserCode => "user_code"
  }

  /** Recognises a token-usage name; any other string (an identity token type,
      a typo, the empty string) is not a Data Protection token kind. */
  function ParseUsage(name: string): (r: Option<TokenKind>)
    ensures r.Some? ==> UsageName(r.value) == name
    ensures (exists k :: UsageName(k) == name) ==> r.Some?
  {
    if name == "access_token" then Some(AccessToken)
    else if name == "authorization_code" then Some(AuthorizationCode)
    else if name == "device_code" then Some(DeviceCode)
    else if name == "refresh_token" then Some(RefreshToken)
    else if name == "user_code" then Some(UserCode)
    else None
  }

  /** Every usage name is recognised as the kind it names, so names are distinct. */
  lemma ParseUsageName(k: TokenKind)
    ensures ParseUsage(UsageName(k)) == Some(k)
    ensures UsageName(k) != ""
  {
  }

  /** One "purpose" string given to the Data Protection provider when a protector
      is created: the server handler, the token format of one kind, the
      reference-token feature, and the server scheme. */
  datatype Purpose = HandlerServer | Format(kind: TokenKind) | ReferenceTokens | SchemeServer

  /** The two server options that select the purposes. */
  datatype ServerOptions = ServerOptions(useReferenceAccessTokens: bool, disableTokenStorage: bool)

  /** A claims principal. The private token-usage claim is kept apart from the
      other claims because the validator overwrites it. */
  datatype Principal = Principal(claims: map<string, string>, usage: Option<string>)

  /** `SetClaim` of the private token-usage claim: replaces that claim only. */
  function SetUsage(p: Principal, name: string): (r: Principal)
    ensures r.usage == Some(name)
    ensures r.claims == p.claims
  {
    p.(usage := Some(name))
  }

  type Bytes = seq<bv8>

  /** The collaborators the handlers call but whose code is not modelled: the
      Base64Url codec, the protector created for a purpose list, and the binary
      token formatter. `None` from `decode`, `unprotect` or `read` stands for a
      thrown exception (or, for `read`, a null principal). */
  datatype Backend = Backend(
    decode: string -> Option<Bytes>,
    unprotect: (seq<Purpose>, Bytes) -> Option<Bytes>,
    read: Bytes -> Option<Principal>,
    write: Principal -> Bytes,
    protect: (seq<Purpose>, Bytes) -> Bytes,
    encode: Bytes -> string)

  /** The part of `ProcessAuthenticationContext` the validator reads and writes.
      An empty `tokenType` stands for a null or empty string. */
  datatype AuthenticationContext = AuthenticationContext(
    token: string,
    tokenType: string,
    principal: Option<Principal>,
    options: ServerOptions)

  /** The five token slots of the sign-in response; "" is an empty slot. */
  datatype SigninResponse = SigninResponse(
    accessToken: string,
    code: string,
    deviceCode: string,
    refreshToken: string,
    userCode: string)

  /** The response slot a kind is written to. */
  function Slot(r: SigninResponse, k: TokenKind): string
  {
    match k
    case AccessToken => r.accessToken
    case AuthorizationCode => r.code
    case DeviceCode => r.deviceCode
    case RefreshToken => r.refreshToken
    case UserCode => r.userCode
  }

  /** Fills the slot of kind `k`; every other slot keeps its value. */
  function SetSlot(r: SigninResponse, k: TokenKind, v: string): (r': SigninResponse)
    ensures Slot(r', k) == v
    ensures forall k' :: k' != k ==> Slot(r', k') == Slot(r, k')
  {
    match k
    case AccessToken => r.(accessToken := v)
    case AuthorizationCode => r.(code := v)
    case DeviceCode => r.(deviceCode := v)
    case RefreshToken => r.(refreshToken := v)
    case UserCode => r.(userCode := v)
  }

  /** The principals the sign-in context prepared for each kind of token. */
  datatype TokenPrincipals = TokenPrincipals(
    accessToken: Principal,
    authorizationCode: Principal,
    deviceCode: Principal,
    refreshToken: Principal,
    userCode: Principal)

  function PrincipalFor(ps: TokenPrincipals, k: TokenKind): Principal
  {
    match k
    case AccessToken => ps.accessToken
    case AuthorizationCode => ps.authorizationCode
    case DeviceCode => ps.deviceCode
    case RefreshToken => ps.refreshToken
    case UserCode => ps.userCode
  }

  /** The part of `ProcessSigninContext` the generators read and write. */
  datatype SigninContext = SigninContext(
    options: ServerOptions,
    principals: TokenPrincipals,
    response: SigninResponse)
}
