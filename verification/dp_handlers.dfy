/** The Data Protection server handlers: one validator that reads Data Protection
    tokens during authentication, five generators that write them during sign-in,
    and the descriptors that place them in the server pipeline. */
module DataProtectionHandlers {
  import opened Wrappers
  import opened DataProtectionTypes

  datatype Error = InvalidOperation(message: string)

  const UnsupportedTokenType := "The specified token type is not supported."

  /** Whether the purposes of kind `k` include the reference-token feature: for
      access tokens when reference access tokens are used, for the other kinds
      unless token storage is disabled. */
  predicate UsesReferenceFeature(k: TokenKind, o: ServerOptions)
  {
    if k == AccessToken then o.useReferenceAccessTokens else !o.disableTokenStorage
  }

  /** The shape every purpose list has: server handler, the kind's format, the
      reference feature when `withReference`, and the server scheme. */
  predicate PurposeShape(p: seq<Purpose>, k: TokenKind, withReference: bool)
  {
    && |p| == (if withReference then 4 else 3)
    && p[0] == HandlerServer
    && p[1] == Format(k)
    && (withReference ==> p[2] == ReferenceTokens)
    && p[|p| - 1] == SchemeServer
  }

  /** The purposes the validator gives the protector for a token-type name: the
      switch of the validator, arm by arm. A name that is not one of the five
      token usages is rejected with an exception. */
  function ValidationPurposes(typeName: string, o: ServerOptions): (r: Result<seq<Purpose>, Error>)
    ensures r.Success? <==> ParseUsage(typeName).Some?
    ensures r.Failure? ==> r.error == InvalidOperation(UnsupportedTokenType)
    ensures r.Success? ==>
      var k := ParseUsage(typeName).value;
      && PurposeShape(r.value, k, UsesReferenceFeature(k, o))
      && (ReferenceTokens in r.value <==> UsesReferenceFeature(k, o))
  {
    if typeName == UsageName(AccessToken) && o.useReferenceAccessTokens then
      Success([HandlerServer, Format(AccessToken), ReferenceTokens, SchemeServer])
    else if typeName == UsageName(AuthorizationCode) && !o.disableTokenStorage then
      Success([HandlerServer, Format(AuthorizationCode), ReferenceTokens, SchemeServer])
    else if typeName == UsageName(DeviceCode) && !o.disableTokenStorage then
      Success([HandlerServer, Format(DeviceCode), ReferenceTokens, SchemeServer])
    else if typeName == UsageName(RefreshToken) && !o.disableTokenStorage then
      Success([HandlerServer, Format(RefreshToken), ReferenceTokens, SchemeServer])
    else if typeName == UsageName(UserCode) && !o.disableTokenStorage then
      Success([HandlerServer, Format(UserCode), ReferenceTokens, SchemeServer])
    else if typeName == UsageName(AccessToken) then
      Success([HandlerServer, Format(AccessToken), SchemeServer])
    else if typeName == UsageName(AuthorizationCode) then
      Success([HandlerServer, Format(AuthorizationCode), SchemeServer])
    else if typeName == UsageName(DeviceCode) then
      Success([HandlerServer, Format(DeviceCode), SchemeServer])
    else if typeName == UsageName(RefreshToken) then
      Success([HandlerServer, Format(RefreshToken), SchemeServer])
    else if typeName == UsageName(UserCode) then
      Success([HandlerServer, Format(UserCode), SchemeServer])
    else
      Failure(InvalidOperation(UnsupportedTokenType))
  }

  /** The purposes a generator gives the protector: the two-way choice each
      generator makes on its own option flag. */
  function GenerationPurposes(k: TokenKind, o: ServerOptions): (r: seq<Purpose>)
    ensures PurposeShape(r, k, UsesReferenceFeature(k, o))
  {
    match k
    case AccessToken =>
      if o.useReferenceAccessTokens then [HandlerServer, Format(AccessToken), ReferenceTokens, SchemeServer]
      else [HandlerServer, Format(AccessToken), SchemeServer]
    case _ =>
      if !o.disableTokenStorage then [HandlerServer, Format(k), ReferenceTokens, SchemeServer]
      else [HandlerServer, Format(k), SchemeServer]
  }

  /** The guarded part of the validator: Base64Url-decode, unprotect, read. Any
      exception along the way, or a null principal, gives no principal. */
  function Unprotect(token: string, purposes: seq<Purpose>, b: Backend): (r: Option<Principal>)
    ensures r.Some? <==>
      && b.decode(token).Some?
      && b.unprotect(purposes, b.decode(token).value).Some?
      && b.read(b.unprotect(purposes, b.decode(token).value).value).Some?
    ensures r.Some? ==> r == b.read(b.unprotect(purposes, b.decode(token).value).value)
  {
    match b.decode(token)
    case None => None
    case Some(raw) =>
      match b.unprotect(purposes, raw)
      case None => None
      case Some(plain) => b.read(plain)
  }

  /** The validator's local `ValidateToken`: choose the purposes for the type
      (outside the exception guard, so an unsupported type escapes), try to read
      the token, and stamp a read principal with the type that was tried. */
  function ValidateToken(token: string, typeName: string, o: ServerOptions, b: Backend)
    : (r: Result<Option<Principal>, Error>)
    ensures r.Failure? <==> ParseUsage(typeName).None?
    ensures r.Failure? ==> r.error == InvalidOperation(UnsupportedTokenType)
    ensures r.Success? && r.value.Some? ==> r.value.value.usage == Some(typeName)
    ensures r.Success? ==> (r.value.Some? <==> Unprotect(token, ValidationPurposes(typeName, o).value, b).Some?)
    ensures r.Success? && r.value.Some? ==>
      r.value.value.claims == Unprotect(token, ValidationPurposes(typeName, o).value, b).value.claims
  {
    var purposes :- ValidationPurposes(typeName, o);
    Success(Unprotect(token, purposes, b).Map(p => SetUsage(p, typeName)))
  }

  /** The candidate kinds tried, in this order, when the context names no type. */
  const CandidateOrder: seq<TokenKind> := [AccessToken, RefreshToken, AuthorizationCode, DeviceCode, UserCode]

  /** Trying one candidate kind; candidates are always supported types. */
  function TryKind(token: string, k: TokenKind, o: ServerOptions, b: Backend): (r: Option<Principal>)
    ensures r.Some? ==> r.value.usage == Some(UsageName(k))
    ensures ValidateToken(token, UsageName(k), o, b) == Success(r)
  {
    ParseUsageName(k);
    ValidateToken(token, UsageName(k), o, b).value
  }

  /** The `??` chain: the principal of the first candidate that reads, if any. */
  function FirstDecoded(token: string, kinds: seq<TokenKind>, o: ServerOptions, b: Backend): Option<Principal>
  {
    if |kinds| == 0 then None
    else
      match TryKind(token, kinds[0], o, b)
      case Some(p) => Some(p)
      case None => FirstDecoded(token, kinds[1..], o, b)
  }

  /** `FirstDecoded` returns exactly the principal of the earliest candidate that
      reads, and nothing when none does. */
  lemma {:induction false} FirstDecodedIsEarliest(token: string, kinds: seq<TokenKind>, o: ServerOptions, b: Backend)
    ensures FirstDecoded(token, kinds, o, b).None? <==>
      forall i :: 0 <= i < |kinds| ==> TryKind(token, kinds[i], o, b).None?
    ensures FirstDecoded(token, kinds, o, b).Some? ==>
      exists i :: 0 <= i < |kinds|
        && FirstDecoded(token, kinds, o, b) == TryKind(token, kinds[i], o, b)
        && forall j :: 0 <= j < i ==> TryKind(token, kinds[j], o, b).None?
  {
    if |kinds| > 0 {
      FirstDecodedIsEarliest(token, kinds[1..], o, b);
      if TryKind(token, kinds[0], o, b).None? {
        var r := FirstDecoded(token, kinds, o, b);
        if r.Some? {
          var i :| 0 <= i < |kinds[1..]|
            && r == TryKind(token, kinds[1..][i], o, b)
            && forall j :: 0 <= j < i ==> TryKind(token, kinds[1..][j], o, b).None?;
          assert r == TryKind(token, kinds[i + 1], o, b);
          forall j | 0 <= j < i + 1
            ensures TryKind(token, kinds[j], o, b).None?
          {
            if j > 0 {
              assert kinds[j] == kinds[1..][j - 1];
            }
          }
        } else {
          forall i | 0 <= i < |kinds|
            ensures TryKind(token, kinds[i], o, b).None?
          {
            if i > 0 {
              assert kinds[i] == kinds[1..][i - 1];
            }
          }
        }
      } else {
        assert FirstDecoded(token, kinds, o, b) == TryKind(token, kinds[0], o, b);
      }
    }
  }

  /** `ValidateDataProtectionToken.HandleAsync`. A principal already attached is
      kept; otherwise the named type, or else every candidate in order, is tried,
      and a principal that reads is attached. When nothing reads the context is
      left unchanged and no error is raised, so a later handler may try. */
  function Validate(ctx: AuthenticationContext, b: Backend): (r: Result<AuthenticationContext, Error>)
    ensures ctx.principal.Some? ==> r == Success(ctx)
    ensures r.Failure? <==> ctx.principal.None? && ctx.tokenType != "" && ParseUsage(ctx.tokenType).None?
    ensures r.Failure? ==> r.error == InvalidOperation(UnsupportedTokenType)
    ensures r.Success? ==> r.value == ctx.(principal := r.value.principal)
    ensures r.Success? && ctx.principal.None? && ctx.tokenType != "" ==>
      r.value.principal == ValidateToken(ctx.token, ctx.tokenType, ctx.options, b).value
    ensures r.Success? && ctx.principal.None? && ctx.tokenType == "" ==>
      && (r.value.principal.None? <==>
            forall i :: 0 <= i < |CandidateOrder| ==> TryKind(ctx.token, CandidateOrder[i], ctx.options, b).None?)
      && (r.value.principal.Some? ==>
            exists i :: 0 <= i < |CandidateOrder|
              && r.value.principal == TryKind(ctx.token, CandidateOrder[i], ctx.options, b)
              && forall j :: 0 <= j < i ==> TryKind(ctx.token, CandidateOrder[j], ctx.options, b).None?)
  {
    if ctx.principal.Some? then Success(ctx)
    else
      FirstDecodedIsEarliest(ctx.token, CandidateOrder, ctx.options, b);
      var principal :-
        if ctx.tokenType != "" then ValidateToken(ctx.token, ctx.tokenType, ctx.options, b)
        else Success(FirstDecoded(ctx.token, CandidateOrder, ctx.options, b));
      if principal.None? then Success(ctx)
      else Success(ctx.(principal := principal))
  }

  /** The token a generator writes: serialise the principal, protect it with the
      kind's purposes, Base64Url-encode the result. */
  function IssueToken(k: TokenKind, ctx: SigninContext, b: Backend): string
  {
    b.encode(b.protect(GenerationPurposes(k, ctx.options), b.write(PrincipalFor(ctx.principals, k))))
  }

  /** The common body of the five generators: a slot another handler already
      filled is left alone; otherwise exactly that slot receives the new token. */
  function Generate(k: TokenKind, ctx: SigninContext, b: Backend): (r: SigninContext)
    ensures Slot(ctx.response, k) != "" ==> r == ctx
    ensures Slot(ctx.response, k) == "" ==> Slot(r.response, k) == IssueToken(k, ctx, b)
    ensures forall k' :: k' != k ==> Slot(r.response, k') == Slot(ctx.response, k')
    ensures r.options == ctx.options && r.principals == ctx.principals
  {
    if Slot(ctx.response, k) != "" then ctx
    else ctx.(response := SetSlot(ctx.response, k, IssueToken(k, ctx, b)))
  }

  /** `GenerateDataProtectionAccessToken.HandleAsync`. */
  function GenerateAccessToken(ctx: SigninContext, b: Backend): (r: SigninContext)
    ensures ctx.response.accessToken != "" ==> r == ctx
    ensures ctx.response.accessToken == "" ==>
      r == ctx.(response := ctx.response.(accessToken := IssueToken(AccessToken, ctx, b)))
  {
    Generate(AccessToken, ctx, b)
  }

  /** `GenerateDataProtectionAuthorizationCode.HandleAsync`. */
  function GenerateAuthorizationCode(ctx: SigninContext, b: Backend): (r: SigninContext)
    ensures ctx.response.code != "" ==> r == ctx
    ensures ctx.response.code == "" ==>
      r == ctx.(response := ctx.response.(code := IssueToken(AuthorizationCode, ctx, b)))
  {
    Generate(AuthorizationCode, ctx, b)
  }

  /** `GenerateDataProtectionDeviceCode.HandleAsync`. */
  function GenerateDeviceCode(ctx: SigninContext, b: Backend): (r: SigninContext)
    ensures ctx.response.deviceCode != "" ==> r == ctx
    ensures ctx.response.deviceCode == "" ==>
      r == ctx.(response := ctx.response.(deviceCode := IssueToken(DeviceCode, ctx, b)))
  {
    Generate(DeviceCode, ctx, b)
  }

  /** `GenerateDataProtectionRefreshToken.HandleAsync`. */
  function GenerateRefreshToken(ctx: SigninContext, b: Backend): (r: SigninContext)
    ensures ctx.response.refreshToken != "" ==> r == ctx
    ensures ctx.response.refreshToken == "" ==>
      r == ctx.(response := ctx.response.(refreshToken := IssueToken(RefreshToken, ctx, b)))
  {
    Generate(RefreshToken, ctx, b)
  }

  /** `GenerateDataProtectionUserCode.HandleAsync`. */
  function GenerateUserCode(ctx: SigninContext, b: Backend): (r: SigninContext)
    ensures ctx.response.userCode != "" ==> r == ctx
    ensures ctx.response.userCode == "" ==>
      r == ctx.(response := ctx.response.(userCode := IssueToken(UserCode, ctx, b)))
  {
    Generate(UserCode, ctx, b)
  }

  // Handler descriptors.

  datatype ContextType = ProcessAuthenticationContext | ProcessSigninContext

  datatype HandlerType = ValidateDataProtectionToken | GenerateDataProtection(kind: TokenKind)

  /** `RequireIncluded(k)` is the `Require<Kind>Included` filter of the server. */
  datatype FilterType = RequireIncluded(kind: TokenKind) | RequirePreferDataProtectionFormatEnabled

  datatype Lifetime = Singleton | Scoped

  datatype HandlerDescriptor = HandlerDescriptor(
    contextType: ContextType,
    handler: HandlerType,
    filters: seq<FilterType>,
    order: Int32,
    lifetime: Lifetime)

  const MaxInt32: int := 0x7FFF_FFFF
  const MinInt32: int := -0x8000_0000

  /** A C# `int`. */
  type Int32 = x: int | -0x8000_0000 <= x <= 0x7FFF_FFFF

  /** Unchecked C# `int` arithmetic: the exact result brought back into the
      `int` range modulo 2^32. */
  function Wrap32(x: int): (r: Int32)
    ensures MinInt32 <= x <= MaxInt32 ==> r == x
    ensures MaxInt32 < x <= MaxInt32 + 0x1_0000_0000 ==> r == x - 0x1_0000_0000
    ensures MinInt32 - 0x1_0000_0000 <= x < MinInt32 ==> r == x + 0x1_0000_0000
  {
    (x + 0x8000_0000) % 0x1_0000_0000 - 0x8000_0000
  }

  /** The orders of the IdentityModel handlers the Data Protection handlers are
      placed against; they are defined outside this component. */
  datatype IdentityModelOrders = IdentityModelOrders(validateToken: Int32, generate: TokenKind -> Int32)

  /** The sign-in generators in the order `DefaultHandlers` lists them. */
  const GeneratorOrder: seq<TokenKind> := [AccessToken, AuthorizationCode, DeviceCode, RefreshToken, UserCode]

  /** `ValidateDataProtectionToken.Descriptor`: 500 after the IdentityModel
      validator. The addition is unchecked, so a counterpart within 500 of the
      largest `int` wraps the validator round to the front of the pipeline. */
  function ValidatorDescriptor(im: IdentityModelOrders): (d: HandlerDescriptor)
    ensures d.contextType == ProcessAuthenticationContext && d.handler == ValidateDataProtectionToken
    ensures d.filters == [] && d.lifetime == Singleton
    ensures im.validateToken <= MaxInt32 - 500 ==> d.order - im.validateToken == 500
    ensures im.validateToken > MaxInt32 - 500 ==>
      d.order < im.validateToken && d.order == im.validateToken + 500 - 0x1_0000_0000
  {
    HandlerDescriptor(ProcessAuthenticationContext, ValidateDataProtectionToken, [],
      Wrap32(im.validateToken + 500), Singleton)
  }

  /** The descriptor of the generator of kind `k`: 500 before its IdentityModel
      counterpart, gated on the token being included and the Data Protection
      format being preferred. The subtraction is unchecked, so a counterpart
      within 500 of the smallest `int` wraps the generator round to the back. */
  function GeneratorDescriptor(k: TokenKind, im: IdentityModelOrders): (d: HandlerDescriptor)
    ensures d.contextType == ProcessSigninContext && d.handler == GenerateDataProtection(k)
    ensures d.filters == [RequireIncluded(k), RequirePreferDataProtectionFormatEnabled]
    ensures d.lifetime == Singleton
    ensures im.generate(k) >= MinInt32 + 500 ==> im.generate(k) - d.order == 500
    ensures im.generate(k) < MinInt32 + 500 ==>
      d.order > im.generate(k) && d.order == im.generate(k) - 500 + 0x1_0000_0000
  {
    HandlerDescriptor(ProcessSigninContext, GenerateDataProtection(k),
      [RequireIncluded(k), RequirePreferDataProtectionFormatEnabled], Wrap32(im.generate(k) - 500), Singleton)
  }

  /** `DefaultHandlers`: the validator, then the five generators. */
  function DefaultHandlers(im: IdentityModelOrders): (r: seq<HandlerDescriptor>)
    ensures |r| == 6
    ensures r[0].contextType == ProcessAuthenticationContext && r[0].handler == ValidateDataProtectionToken
    ensures r[0].filters == [] && r[0].lifetime == Singleton
    ensures r[0].order == Wrap32(im.validateToken + 500)
    ensures im.validateToken <= MaxInt32 - 500 ==> r[0].order - im.validateToken == 500
    ensures forall i :: 1 <= i < 6 ==>
      && r[i].contextType == ProcessSigninContext
      && r[i].handler == GenerateDataProtection(GeneratorOrder[i - 1])
      && r[i].lifetime == Singleton
      && r[i].order == Wrap32(im.generate(GeneratorOrder[i - 1]) - 500)
      && (im.generate(GeneratorOrder[i - 1]) >= MinInt32 + 500 ==> im.generate(GeneratorOrder[i - 1]) - r[i].order == 500)
      && |r[i].filters| == 2
      && r[i].filters[0] == RequireIncluded(GeneratorOrder[i - 1])
      && r[i].filters[1] == RequirePreferDataProtectionFormatEnabled
  {
    [ValidatorDescriptor(im)] + seq(5, i requires 0 <= i < 5 => GeneratorDescriptor(GeneratorOrder[i], im))
  }
}
