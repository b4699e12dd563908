/** Properties relating the Data Protection generators to the validator. */
module DataProtectionProperties {
  import opened Wrappers
  import opened DataProtectionTypes
  import opened DataProtectionHandlers

  /** For every kind and every option setting, a generator protects with exactly
      the purposes the validator unprotects with. */
  lemma GeneratorAndValidatorAgree(k: TokenKind, o: ServerOptions)
    ensures ValidationPurposes(UsageName(k), o) == Success(GenerationPurposes(k, o))
  {
  }

  /** Purpose lists of different kinds differ, whatever the options. */
  lemma PurposesSeparateKinds(k: TokenKind, k': TokenKind, o: ServerOptions)
    requires k != k'
    ensures GenerationPurposes(k, o) != GenerationPurposes(k', o)
  {
    assert GenerationPurposes(k, o)[1] != GenerationPurposes(k', o)[1];
  }

  /** The collaborators invert each other: Base64Url decoding undoes encoding,
      unprotecting with the same purposes undoes protecting, and the formatter
      reads back what it wrote. */
  ghost predicate Lawful(b: Backend)
  {
    && (forall bytes :: b.decode(b.encode(bytes)) == Some(bytes))
    && (forall p, bytes :: b.unprotect(p, b.protect(p, bytes)) == Some(bytes))
    && (forall pr :: b.read(b.write(pr)) == Some(pr))
  }

  /** A protector refuses a payload protected under other purposes. */
  ghost predicate PurposeSeparating(b: Backend)
  {
    forall p, q, bytes :: p != q ==> b.unprotect(q, b.protect(p, bytes)).None?
  }

  /** A freshly generated token of kind `k` read back as kind `k`. */
  lemma IssuedTokenReadsAsItsKind(k: TokenKind, ctx: SigninContext, b: Backend)
    requires Lawful(b)
    ensures TryKind(IssueToken(k, ctx, b), k, ctx.options, b)
         == Some(SetUsage(PrincipalFor(ctx.principals, k), UsageName(k)))
  {
    GeneratorAndValidatorAgree(k, ctx.options);
  }

  /** Under a purpose-separating protector, a token of kind `k` does not read as
      any other kind. */
  lemma IssuedTokenRejectedAsOtherKind(k: TokenKind, k': TokenKind, ctx: SigninContext, b: Backend)
    requires Lawful(b) && PurposeSeparating(b)
    requires k != k'
    ensures TryKind(IssueToken(k, ctx, b), k', ctx.options, b).None?
  {
    GeneratorAndValidatorAgree(k', ctx.options);
    PurposesSeparateKinds(k, k', ctx.options);
  }

  /** If only kind `k` among the candidates can read the token, the fallback
      chain returns what `k` reads. */
  lemma {:induction false} FirstDecodedFindsOnlyReader(
    token: string, kinds: seq<TokenKind>, k: TokenKind, o: ServerOptions, b: Backend)
    requires k in kinds
    requires forall i :: 0 <= i < |kinds| && kinds[i] != k ==> TryKind(token, kinds[i], o, b).None?
    ensures FirstDecoded(token, kinds, o, b) == TryKind(token, k, o, b)
  {
    if kinds[0] != k {
      var j :| 0 <= j < |kinds| && kinds[j] == k;
      assert kinds[1..][j - 1] == k;
      forall i | 0 <= i < |kinds[1..]| && kinds[1..][i] != k
        ensures TryKind(token, kinds[1..][i], o, b).None?
      {
        assert kinds[1..][i] == kinds[i + 1];
      }
      assert TryKind(token, kinds[0], o, b).None?;
      FirstDecodedFindsOnlyReader(token, kinds[1..], k, o, b);
    } else if TryKind(token, k, o, b).None? {
      forall i | 0 <= i < |kinds[1..]|
        ensures TryKind(token, kinds[1..][i], o, b).None?
      {
        assert kinds[1..][i] == kinds[i + 1];
      }
      FirstDecodedIsEarliest(token, kinds[1..], o, b);
    }
  }

  /** Round trip with the type named: validating the token a generator wrote,
      as its own type and under the same options, attaches the generator's
      principal stamped with that type. */
  lemma RoundTripNamedType(k: TokenKind, ctx: SigninContext, b: Backend)
    requires Lawful(b)
    requires Slot(ctx.response, k) == ""
    ensures
      var token := Slot(Generate(k, ctx, b).response, k);
      var auth := AuthenticationContext(token, UsageName(k), None, ctx.options);
      Validate(auth, b) == Success(auth.(principal := Some(SetUsage(PrincipalFor(ctx.principals, k), UsageName(k)))))
  {
    ParseUsageName(k);
    IssuedTokenReadsAsItsKind(k, ctx, b);
  }

  /** Round trip without a type: the candidate chain finds the generator's kind
      whatever its place in the order, because every other kind fails to read. */
  lemma RoundTripAnyType(k: TokenKind, ctx: SigninContext, b: Backend)
    requires Lawful(b) && PurposeSeparating(b)
    requires Slot(ctx.response, k) == ""
    ensures
      var token := Slot(Generate(k, ctx, b).response, k);
      var auth := AuthenticationContext(token, "", None, ctx.options);
      Validate(auth, b) == Success(auth.(principal := Some(SetUsage(PrincipalFor(ctx.principals, k), UsageName(k)))))
  {
    var token := IssueToken(k, ctx, b);
    forall i | 0 <= i < |CandidateOrder| && CandidateOrder[i] != k
      ensures TryKind(token, CandidateOrder[i], ctx.options, b).None?
    {
      IssuedTokenRejectedAsOtherKind(k, CandidateOrder[i], ctx, b);
    }
    assert k in CandidateOrder by {
      match k
      case AccessToken => assert CandidateOrder[0] == k;
      case RefreshToken => assert CandidateOrder[1] == k;
      case AuthorizationCode => assert CandidateOrder[2] == k;
      case DeviceCode => assert CandidateOrder[3] == k;
      case UserCode => assert CandidateOrder[4] == k;
    }
    FirstDecodedFindsOnlyReader(token, CandidateOrder, k, ctx.options, b);
    IssuedTokenReadsAsItsKind(k, ctx, b);
  }

  /** Running the validator a second time changes nothing. */
  lemma ValidateIsIdempotent(ctx: AuthenticationContext, b: Backend)
    requires Validate(ctx, b).Success?
    ensures Validate(Validate(ctx, b).value, b) == Validate(ctx, b)
  {
  }

  /** Generating twice is generating once: the second run finds the slot filled,
      or, when the issued token was empty, the first run changed nothing. */
  lemma GenerateIsIdempotent(k: TokenKind, ctx: SigninContext, b: Backend)
    ensures Generate(k, Generate(k, ctx, b), b) == Generate(k, ctx, b)
  {
  }
}
