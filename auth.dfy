/** The bearer-token authorisation pipeline of backend/src/auth/auth.py:
    extract the token from the Authorization header, pick the signing key
    whose `kid` matches the token header, decode and classify the result,
    check the required permission, and only then let the handler run.

    The JSON Web Key Set fetch is an input (the request carries the key list)
    and the JOSE library is an oracle (`Jose`): reading the unverified token
    header and decoding with signature and claim validation. */
module Auth {
  import opened PyValues
  import opened PyStrings

  const Auth0Domain := "fsnd-tyler.us.auth0.com"
  const Algorithms := ["RS256"]
  const ApiAudience := "http://127.0.0.1:5000"

  /** The `{code, description}` dict an AuthError carries. */
  datatype ErrorInfo = ErrorInfo(code: string, description: string)

  /** The AuthError exception: the error dict and the HTTP status. */
  datatype AuthError = AuthError(error: ErrorInfo, statusCode: int)

  /** What one step of the pipeline does: return a value, raise an AuthError,
      or raise some other Python exception (named), which is not an AuthError
      and so escapes the auth error handler. */
  datatype Outcome<+T> = Ok(value: T) | Fail(error: AuthError) | Crash(exception: string)
  {
    predicate IsFailure() {
      !Ok?
    }

    function PropagateFailure<U>(): Outcome<U>
      requires !Ok?
    {
      if Fail? then Fail(error) else Crash(exception)
    }

    function Extract(): T
      requires Ok?
    {
      value
    }
  }

  const MissingHeader := AuthError(ErrorInfo("missing_auth_header", "Missing Authorization header"), 401)
  const NotBearer := AuthError(ErrorInfo("invalid_auth_header", "Authorization header must start with \"Bearer\"."), 401)
  const NotTwoParts := AuthError(ErrorInfo("invalid_auth_header", "Auth header invalid.  Must contain bearer token."), 401)
  const NoPermissions := AuthError(ErrorInfo("invalid_token", "Unable to find permissions."), 401)
  const Forbidden := AuthError(ErrorInfo("forbidden", "User does not have required permissions."), 401)
  const HeaderWithoutKid := AuthError(ErrorInfo("invalid_header", "Authorization malformed."), 401)
  const TokenExpired := AuthError(ErrorInfo("token_expired", "Token expired."), 401)
  // the source continues this literal with a backslash-newline, so the
  // indentation of the next line (16 spaces) becomes part of the message
  const InvalidClaims := AuthError(ErrorInfo("invalid_claims",
    "Incorrect claims. Please, check the                 audience and issuer."), 401)
  const Unparsable := AuthError(ErrorInfo("invalid_header", "Unable to parse authentication token."), 401)
  const NoMatchingKey := AuthError(ErrorInfo("invalid_header", "Unable to find the appropriate key."), 401)

  // ---------------------------------------------------------------------------
  // get_token_auth_header

  /** The scheme test: the first word, lowercased, is "bearer". */
  predicate IsBearer(word: string) {
    Lower(word) == "bearer"
  }

  /** The token of an `Authorization` header value (None: no such header). */
  function GetTokenAuthHeader(header: Option<string>): (r: Outcome<string>)
    ensures header.None? <==> r == Fail(MissingHeader)
    // `token.split()[0]` on a blank header raises IndexError
    ensures r == Crash("IndexError") <==> header.Some? && AllSpace(header.value)
    ensures r.Crash? ==> r == Crash("IndexError")
    // the scheme is checked before the word count
    ensures header.Some? && Split(header.value) != [] && !IsBearer(Split(header.value)[0]) ==>
              r == Fail(NotBearer)
    // a bearer scheme with a word count other than two
    ensures header.Some? && Split(header.value) != [] && IsBearer(Split(header.value)[0]) &&
            |Split(header.value)| != 2 ==>
              r == Fail(NotTwoParts)
    ensures r.Ok? <==> header.Some? && |Split(header.value)| == 2 && IsBearer(Split(header.value)[0])
    ensures r.Ok? ==> IsWord(r.value) && r.value == Split(header.value)[1]
    ensures r.Fail? ==> r.error.statusCode == 401
  {
    match header
    case None => Fail(MissingHeader)
    case Some(h) =>
      var parts := Split(h);
      if parts == [] then Crash("IndexError")
      else if !IsBearer(parts[0]) then Fail(NotBearer)
      else if |parts| != 2 then Fail(NotTwoParts)
      else Ok(parts[1])
  }

  /** Round trip: any casing of "Bearer", whitespace around and between, and a
      token without whitespace; the parser returns exactly that token. */
  lemma BearerRoundTrip(lead: string, scheme: string, gap: string, token: string, trail: string)
    requires AllSpace(lead) && AllSpace(gap) && gap != [] && AllSpace(trail)
    requires Lower(scheme) == "bearer"
    requires IsWord(token)
    ensures GetTokenAuthHeader(Some(lead + scheme + gap + token + trail)) == Ok(token)
  {
    var header := lead + scheme + gap + token + trail;
    BearerCasingIsWord(scheme);
    assert header == lead + (scheme + (gap + (token + trail)));
    SplitSkipsSpace(lead, scheme + (gap + (token + trail)));
    SplitLeadingWord(scheme, gap + (token + trail));
    SplitSkipsSpace(gap, token + trail);
    SplitLeadingWord(token, trail);
    assert Split(header) == [scheme, token];
  }

  // ---------------------------------------------------------------------------
  // check_permissions

  /** `check_permissions(permission, payload)`: True, or an AuthError. */
  function CheckPermissions(permission: string, payload: JsonObject): (r: Outcome<bool>)
    // a missing claim is reported before membership is looked at
    ensures "permissions" !in payload ==> r == Fail(NoPermissions)
    ensures r.Ok? <==> "permissions" in payload && Contains(payload["permissions"], permission) == Some(true)
    ensures r.Ok? ==> r.value
    ensures r == Fail(Forbidden) <==>
              "permissions" in payload && Contains(payload["permissions"], permission) == Some(false)
    ensures r.Fail? ==> r.error.statusCode == 401
    // `in` on a claim that is not a dict, list or string raises TypeError
    ensures r == Crash("TypeError") <==>
              "permissions" in payload && Contains(payload["permissions"], permission).None?
    ensures r == Fail(NoPermissions) <==> "permissions" !in payload
  {
    if "permissions" !in payload then Fail(NoPermissions)
    else match Contains(payload["permissions"], permission)
      case None => Crash("TypeError")
      case Some(present) => if present then Ok(true) else Fail(Forbidden)
  }

  /** With the usual list-of-strings claim, the check passes exactly when the
      permission is one of the listed strings, and is `forbidden` otherwise. */
  lemma PermissionListDecides(permission: string, granted: seq<string>, payload: JsonObject)
    requires "permissions" in payload && payload["permissions"] == StrList(granted)
    ensures permission in granted ==> CheckPermissions(permission, payload) == Ok(true)
    ensures permission !in granted ==> CheckPermissions(permission, payload) == Fail(Forbidden)
  {
  }

  // ---------------------------------------------------------------------------
  // verify_decode_jwt

  /** The validation options handed to the decoder. */
  datatype DecodeOptions = DecodeOptions(algorithms: seq<string>, audience: string, issuer: string)

  const Options := DecodeOptions(Algorithms, ApiAudience, "https://" + Auth0Domain + "/")

  /** How `jwt.decode` ends: the payload, or one of the exceptions the source tells apart. */
  datatype DecodeResult = Decoded(payload: JsonObject) | ExpiredSignature | ClaimsError | OtherError

  /** The JOSE library: `get_unverified_header` (None: it raised) and `decode`. */
  datatype Jose = Jose(
    unverifiedHeader: string -> Option<JsonObject>,
    decode: (string, JsonObject, DecodeOptions) -> DecodeResult)

  /** What one protected request supplies to the pipeline: its Authorization
      header, the key list of the fetched key set, and the JOSE library. */
  datatype Request = Request(authorization: Option<string>, jwks: seq<JsonObject>, jose: Jose)

  /** The fields the source copies out of the matching key. */
  predicate HasRsaFields(key: JsonObject) {
    "kty" in key && "kid" in key && "use" in key && "n" in key && "e" in key
  }

  function Project(key: JsonObject): JsonObject
    requires HasRsaFields(key)
  {
    map["kty" := key["kty"], "kid" := key["kid"], "use" := key["use"], "n" := key["n"], "e" := key["e"]]
  }

  /** How the search of the key list ends. */
  datatype KeyLookup = Found(key: JsonObject) | NotFound | MissingField

  /** The key search as a function: the first key whose `kid` equals `kid` under
      Python's `==`, projected; a key without `kid` before it, or a match without one of the
      projected fields, raises KeyError (MissingField). */
  function KeySearch(keys: seq<JsonObject>, kid: Json): KeyLookup
  {
    if keys == [] then NotFound
    else if "kid" !in keys[0] then MissingField
    else if PyEq(keys[0]["kid"], kid) then (if HasRsaFields(keys[0]) then Found(Project(keys[0])) else MissingField)
    else KeySearch(keys[1..], kid)
  }

  /** Every key before index `i` carries a `kid`, and it differs from `kid`. */
  predicate PassedOver(keys: seq<JsonObject>, kid: Json, i: int)
    requires 0 <= i <= |keys|
  {
    forall j :: 0 <= j < i ==> "kid" in keys[j] && !PyEq(keys[j]["kid"], kid)
  }

  /** Index `i` holds the first key whose `kid` equals `kid`. */
  predicate FirstMatch(keys: seq<JsonObject>, kid: Json, i: int) {
    0 <= i < |keys| && PassedOver(keys, kid, i) && "kid" in keys[i] && PyEq(keys[i]["kid"], kid)
  }

  /** The key search selects the projection of the first matching key, and
      finds nothing exactly when every key has a different `kid`. */
  lemma {:induction false} KeySearchFindsFirstMatch(keys: seq<JsonObject>, kid: Json)
    ensures forall i :: FirstMatch(keys, kid, i) && HasRsaFields(keys[i]) ==>
              KeySearch(keys, kid) == Found(Project(keys[i]))
    ensures KeySearch(keys, kid).Found? ==>
              exists i :: FirstMatch(keys, kid, i) && HasRsaFields(keys[i])
    ensures KeySearch(keys, kid) == NotFound <==> PassedOver(keys, kid, |keys|)
    decreases |keys|
  {
    if keys != [] && "kid" in keys[0] && !PyEq(keys[0]["kid"], kid) {
      var tail := keys[1..];
      KeySearchFindsFirstMatch(tail, kid);
      forall i | FirstMatch(keys, kid, i) && HasRsaFields(keys[i])
        ensures KeySearch(keys, kid) == Found(Project(keys[i]))
      {
        assert i > 0;
        assert FirstMatch(tail, kid, i - 1) by {
          forall j | 0 <= j < i - 1 ensures "kid" in tail[j] && !PyEq(tail[j]["kid"], kid) {
            assert tail[j] == keys[j + 1];
          }
        }
      }
      if KeySearch(keys, kid).Found? {
        var i :| FirstMatch(tail, kid, i) && HasRsaFields(tail[i]);
        assert FirstMatch(keys, kid, i + 1) by {
          forall j | 0 <= j < i + 1 ensures "kid" in keys[j] && !PyEq(keys[j]["kid"], kid) {
            if j > 0 { assert keys[j] == tail[j - 1]; }
          }
        }
      }
      if PassedOver(tail, kid, |tail|) {
        forall j | 0 <= j < |keys| ensures "kid" in keys[j] && !PyEq(keys[j]["kid"], kid) {
          if j > 0 { assert keys[j] == tail[j - 1]; }
        }
      }
      if PassedOver(keys, kid, |keys|) {
        forall j | 0 <= j < |tail| ensures "kid" in tail[j] && !PyEq(tail[j]["kid"], kid) {
          assert tail[j] == keys[j + 1];
        }
      }
    }
  }

  /** A header `kid` of `true` selects a key whose `kid` is 1, since `True == 1`. */
  lemma BoolKidMatchesNumericKid(key: JsonObject)
    requires HasRsaFields(key) && key["kid"] == Num(1)
    ensures KeySearch([key], Bool(true)) == Found(Project(key))
  {
  }

  /** Maps how `jwt.decode` ended to the pipeline's outcome. */
  function Classify(d: DecodeResult): (r: Outcome<JsonObject>)
    ensures r.Ok? <==> d.Decoded?
    ensures d.Decoded? ==> r.value == d.payload
    ensures !d.Decoded? ==> r.Fail? && r.error.statusCode == 401
    ensures d.ExpiredSignature? ==> r.error.error.code == "token_expired"
    ensures d.ClaimsError? ==> r.error.error.code == "invalid_claims"
    ensures d.OtherError? ==> r.error.error.code == "invalid_header"
  {
    match d
    case Decoded(payload) => Ok(payload)
    case ExpiredSignature => Fail(TokenExpired)
    case ClaimsError => Fail(InvalidClaims)
    case OtherError => Fail(Unparsable)
  }

  /** `verify_decode_jwt(token)` as a function of the key list and the library. */
  function VerifyDecode(token: string, keys: seq<JsonObject>, jose: Jose): (r: Outcome<JsonObject>)
    ensures r.Fail? ==> r.error.statusCode == 401
    // an unreadable token header raises the library's JWTError
    ensures jose.unverifiedHeader(token).None? ==> r == Crash("JWTError")
    // the `kid` check comes before any key is looked at
    ensures var h := jose.unverifiedHeader(token);
      h.Some? && "kid" !in h.value ==> r == Fail(HeaderWithoutKid)
    // every key carries a different `kid`
    ensures var h := jose.unverifiedHeader(token);
      h.Some? && "kid" in h.value && PassedOver(keys, h.value["kid"], |keys|) ==> r == Fail(NoMatchingKey)
    // the first matching key, projected, is the one the decoder is run with
    ensures var h := jose.unverifiedHeader(token);
      forall i :: h.Some? && "kid" in h.value && FirstMatch(keys, h.value["kid"], i) && HasRsaFields(keys[i]) ==>
        r == Classify(jose.decode(token, Project(keys[i]), Options))
    // otherwise a key lacks a field the loop reads
    ensures var h := jose.unverifiedHeader(token);
      r == Crash("KeyError") <==>
        h.Some? && "kid" in h.value && !PassedOver(keys, h.value["kid"], |keys|)
        && !exists i :: FirstMatch(keys, h.value["kid"], i) && HasRsaFields(keys[i])
  {
    match jose.unverifiedHeader(token)
    case None => Crash("JWTError")
    case Some(header) =>
      if "kid" !in header then Fail(HeaderWithoutKid)
      else
        KeySearchFindsFirstMatch(keys, header["kid"]);
        match KeySearch(keys, header["kid"])
        case MissingField => Crash("KeyError")
        case NotFound => Fail(NoMatchingKey)
        case Found(key) => Classify(jose.decode(token, key, Options))
  }

  /** A decoded payload comes from the decoder run with the first key whose
      `kid` matches the token header's, projected, and with the fixed options;
      it is returned unchanged. */
  lemma VerifyDecodeUsesFirstMatchingKey(token: string, keys: seq<JsonObject>, jose: Jose, payload: JsonObject)
    requires VerifyDecode(token, keys, jose) == Ok(payload)
    ensures jose.unverifiedHeader(token).Some?
    ensures var header := jose.unverifiedHeader(token).value;
      "kid" in header &&
      exists i :: FirstMatch(keys, header["kid"], i) && HasRsaFields(keys[i])
        && jose.decode(token, Project(keys[i]), Options) == Decoded(payload)
  {
  }

  /** The source's `verify_decode_jwt`: the `kid` check, then the loop that
      reassigns `rsa_key` on the first match and breaks, then the decode. */
  method VerifyDecodeJwt(token: string, keys: seq<JsonObject>, jose: Jose) returns (r: Outcome<JsonObject>)
    ensures r == VerifyDecode(token, keys, jose)
  {
    var unverified := jose.unverifiedHeader(token);
    if unverified.None? {
      return Crash("JWTError");
    }
    var header := unverified.value;
    var rsaKey: JsonObject := map[];
    if "kid" !in header {
      return Fail(HeaderWithoutKid);
    }
    var kid := header["kid"];
    var i := 0;
    while i < |keys|
      invariant 0 <= i <= |keys|
      invariant rsaKey == map[]
      invariant KeySearch(keys[i..], kid) == KeySearch(keys, kid)
    {
      var key := keys[i];
      assert keys[i..][1..] == keys[i + 1..];
      if "kid" !in key {
        return Crash("KeyError");
      }
      if PyEq(key["kid"], kid) {
        if !HasRsaFields(key) {
          return Crash("KeyError");
        }
        rsaKey := Project(key);
        assert "kty" in rsaKey;
        break;
      }
      i := i + 1;
    }
    if rsaKey != map[] {
      return Classify(jose.decode(token, rsaKey, Options));
    }
    assert keys[i..] == [];
    return Fail(NoMatchingKey);
  }

  // ---------------------------------------------------------------------------
  // requires_auth

  /** What the decorated handler is called with: extract, verify and check in
      that order, the first failure propagating. */
  function AuthPipeline(permission: string, req: Request): (r: Outcome<JsonObject>)
    ensures r.Fail? ==> r.error.statusCode == 401
  {
    var token :- GetTokenAuthHeader(req.authorization);
    var payload :- VerifyDecode(token, req.jwks, req.jose);
    var granted :- CheckPermissions(permission, payload);
    Ok(payload)
  }

  /** The handler runs, with the decoded payload, exactly when all three steps succeed. */
  lemma HandlerRunsOnlyWhenAuthorized(permission: string, req: Request, payload: JsonObject)
    ensures AuthPipeline(permission, req) == Ok(payload) <==>
      exists token :: GetTokenAuthHeader(req.authorization) == Ok(token)
        && VerifyDecode(token, req.jwks, req.jose) == Ok(payload)
        && CheckPermissions(permission, payload) == Ok(true)
  {
  }

  /** The first failing step decides the outcome; later steps are never consulted. */
  lemma FirstFailureWins(permission: string, req: Request)
    ensures !GetTokenAuthHeader(req.authorization).Ok? ==>
              AuthPipeline(permission, req) == GetTokenAuthHeader(req.authorization).PropagateFailure()
    ensures GetTokenAuthHeader(req.authorization).Ok? ==>
              var v := VerifyDecode(GetTokenAuthHeader(req.authorization).value, req.jwks, req.jose);
              (!v.Ok? ==> AuthPipeline(permission, req) == v)
              && (v.Ok? && !CheckPermissions(permission, v.value).Ok? ==>
                    AuthPipeline(permission, req) == CheckPermissions(permission, v.value).PropagateFailure())
  {
  }

  /** A token whose payload lacks the `permissions` claim is refused with
      `invalid_token`, whatever permission is required. */
  lemma MissingPermissionsClaimRejected(permission: string, req: Request, token: string, payload: JsonObject)
    requires GetTokenAuthHeader(req.authorization) == Ok(token)
    requires VerifyDecode(token, req.jwks, req.jose) == Ok(payload)
    requires "permissions" !in payload
    ensures AuthPipeline(permission, req) == Fail(NoPermissions)
  {
  }

  /** An expired token is refused with `token_expired` before any permission check. */
  lemma ExpiredTokenRejected(permission: string, req: Request, token: string, key: JsonObject)
    requires GetTokenAuthHeader(req.authorization) == Ok(token)
    requires req.jose.unverifiedHeader(token).Some?
    requires "kid" in req.jose.unverifiedHeader(token).value
    requires KeySearch(req.jwks, req.jose.unverifiedHeader(token).value["kid"]) == Found(key)
    requires req.jose.decode(token, key, Options) == ExpiredSignature
    ensures AuthPipeline(permission, req) == Fail(TokenExpired)
  {
  }

  /** The `requires_auth` wrapper: runs the three steps in order and yields the
      payload the decorated handler is called with. It repeats `AuthPipeline`
      so that verification runs through the loop of `VerifyDecodeJwt`. */
  method RequiresAuth(permission: string, req: Request) returns (r: Outcome<JsonObject>)
    ensures r == AuthPipeline(permission, req)
  {
    var token :- GetTokenAuthHeader(req.authorization);
    var payload :- VerifyDecodeJwt(token, req.jwks, req.jose);
    var granted :- CheckPermissions(permission, payload);
    return Ok(payload);
  }
}
