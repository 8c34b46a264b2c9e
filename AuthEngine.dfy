/** The default auth engine: everything `signToken` and `verifyToken` decide before
    they hand over to the JSON Web Token library. The library's `sign` and `verify`
    stay outside the model: each call is modelled as the request record it would
    receive (payload or token, key, options), or as the error raised before it. */
module AuthEngine {
  import opened JsValues

  /** Expiry in seconds used when neither the call nor the configuration gives one. */
  const DEFAULT_EXPIRY: int := 86400

  const ALGORITHM_OVERRIDE_MESSAGE: string :=
    "Cannot change auth token algorithm at runtime - It must be specified as a config option on launch"

  const TOKEN_FORMAT_MESSAGE: string := "Invalid token format - Token must be a string"

  /** Option names an engine object carries besides its two methods. */
  const OPTION_NAMES: set<string> := {"authAlgorithm", "authKey", "defaultExpiry", "verifyAlgorithms"}

  /** Option names `signToken` itself writes or removes on its copy of the sign options. */
  const MANAGED_SIGN_OPTIONS: set<string> := {"algorithm", "expiresIn", "mutatePayload"}

  datatype ErrorKind =
    | InvalidArgumentsError(message: string)
    | TypeError   // JavaScript's own, from the `in` operator applied to null or a primitive

  /** How the error reaches the caller: a synchronous exception, or a rejected promise. */
  datatype Delivery = Thrown | Rejected

  datatype Failure = Failure(kind: ErrorKind, delivery: Delivery)

  datatype Result<T> = Ok(value: T) | Err(failure: Failure)

  /** The arguments `signToken` passes to `jwt.sign`. */
  datatype SignRequest = SignRequest(payload: JsValue, key: JsValue, options: Props)

  /** The arguments `verifyToken` passes to `jwt.verify`. */
  datatype VerifyRequest = VerifyRequest(token: string, key: JsValue, options: Props)

  /** `isAuthEngine(auth)`: an object having both `verifyToken` and `signToken`.
      `typeof null` is "object", so for null the `in` test throws. */
  function IsAuthEngine(auth: JsValue): (r: Result<bool>)
    ensures r.Err? <==> auth.Null?
    ensures r.Err? ==> r.failure == Failure(TypeError, Thrown)
    ensures r == Ok(true) <==> HasOwn(auth, "verifyToken") && HasOwn(auth, "signToken")
  {
    if TypeOf(auth) == "object" then
      if auth.Null? then Err(Failure(TypeError, Thrown))
      else Ok(HasOwn(auth, "verifyToken") && HasOwn(auth, "signToken"))
    else
      Ok(false)
  }

  /** `defaultAuthEngine(options)`: an engine object copying the four options from
      `options` (undefined where `options` is absent) and carrying both methods. */
  function DefaultAuthEngine(options: JsValue): (engine: JsValue)
    ensures IsAuthEngine(engine) == Ok(true)
    ensures engine.Obj? && OPTION_NAMES <= engine.fields.Keys
    ensures engine.Obj? ==> forall name :: name in OPTION_NAMES ==> engine.fields[name] == OptionalProp(options, name)
  {
    Obj(map[
      "authAlgorithm" := OptionalProp(options, "authAlgorithm"),
      "authKey" := OptionalProp(options, "authKey"),
      "defaultExpiry" := OptionalProp(options, "defaultExpiry"),
      "signToken" := Fn(0),
      "verifyAlgorithms" := OptionalProp(options, "verifyAlgorithms"),
      "verifyToken" := Fn(1)
    ])
  }

  /** The engine the server adopts for its `authEngine` option: the option itself when
      it is an engine, otherwise a default engine configured from it. */
  function ServerAuthEngine(option: JsValue): (r: Result<JsValue>)
    ensures r.Err? <==> option.Null?
    ensures r.Ok? ==> IsAuthEngine(r.value) == Ok(true)
    ensures r.Ok? && IsAuthEngine(option) == Ok(true) ==> r.value == option
    // an option that is not an engine configures the default engine: key, algorithm,
    // expiry and verify algorithms all carry over
    ensures r.Ok? && IsAuthEngine(option) == Ok(false)
      ==> forall name :: name in OPTION_NAMES ==> OptionalProp(r.value, name) == OptionalProp(option, name)
  {
    match IsAuthEngine(option)
    case Err(f) => Err(f)
    case Ok(isEngine) => Ok(if isEngine then option else DefaultAuthEngine(option))
  }

  /** The guard `!authOptions.authKey == null` written before the key-generation branch:
      `!` binds tighter than `==`, so a boolean is compared with null. */
  predicate KeyGenerationGuard(authKey: JsValue) {
    IsNullish(Bool(!Truthy(authKey)))
  }

  /** The value of `authOptions.authKey` after the guarded write; `randomKey` stands
      for the hex string `crypto.randomBytes(32)` would give. */
  function AuthKeyAfterGuard(authKey: JsValue, randomKey: string): (k: JsValue)
    ensures k == authKey
  {
    if KeyGenerationGuard(authKey) then Str(randomKey) else authKey
  }

  /** The key handed to the library: the `part` ("private" for signing, "public" for
      verifying) of a key object, otherwise the configured key itself. A null key makes
      the `'part' in` test throw. */
  function SelectKey(authKey: JsValue, part: string, randomKey: string): (r: Result<JsValue>)
    ensures r.Err? <==> authKey.Null?
    ensures r.Err? ==> r.failure == Failure(TypeError, Thrown)
    ensures HasOwn(authKey, part) ==> r == Ok(authKey.fields[part])
    ensures !authKey.Null? && !HasOwn(authKey, part) ==> r == Ok(authKey)
  {
    if TypeOf(authKey) == "object" && (authKey.Null? || HasOwn(authKey, part)) then
      if authKey.Null? then Err(Failure(TypeError, Thrown)) else Ok(authKey.fields[part])
    else
      Ok(AuthKeyAfterGuard(authKey, randomKey))
  }

  /** Whether the caller tries to choose the algorithm at call time. */
  predicate OverridesAlgorithm(signOptions: JsValue) {
    !IsNullish(Prop(CopyProps(signOptions), "algorithm"))
  }

  /** Whether the token carries an `exp` claim that is neither null nor undefined. */
  predicate HasExpClaim(token: JsValue) {
    HasOwn(token, "exp") && !IsNullish(token.fields["exp"])
  }

  /** `signOptions.expiresIn || authOptions.defaultExpiry || DEFAULT_EXPIRY` */
  function EffectiveExpiry(signOptions: JsValue, authOptions: Props): (e: JsValue)
    ensures Truthy(e)
    ensures Truthy(Prop(CopyProps(signOptions), "expiresIn")) ==> e == Prop(CopyProps(signOptions), "expiresIn")
    ensures !Truthy(Prop(CopyProps(signOptions), "expiresIn")) && Truthy(Prop(authOptions, "defaultExpiry"))
      ==> e == Prop(authOptions, "defaultExpiry")
    ensures !Truthy(Prop(CopyProps(signOptions), "expiresIn")) && !Truthy(Prop(authOptions, "defaultExpiry"))
      ==> e == Num(DEFAULT_EXPIRY)
  {
    Or(Or(Prop(CopyProps(signOptions), "expiresIn"), Prop(authOptions, "defaultExpiry")), Num(DEFAULT_EXPIRY))
  }

  /** `signToken(token, authOptions, signOptions)` up to the call of `jwt.sign`. The
      caller's token and options are values here, so copying them before the changes
      below leaves the caller's own untouched. */
  function SignToken(token: JsValue, authOptions: Props, signOptions: JsValue, randomKey: string): (r: Result<SignRequest>)
    // a runtime algorithm override is refused with a synchronous throw
    ensures OverridesAlgorithm(signOptions) <==> r == Err(Failure(InvalidArgumentsError(ALGORITHM_OVERRIDE_MESSAGE), Thrown))
    // the other errors: `'exp' in` a truthy primitive token, `'private' in` a null key
    ensures !OverridesAlgorithm(signOptions) ==>
      (r.Err? <==> (Truthy(token) && !token.Obj? && !token.Fn?) || Prop(authOptions, "authKey").Null?)
    ensures r.Err? ==> r.failure.delivery == Thrown
    ensures r.Ok? ==> r.value.payload == token
    ensures r.Ok? ==> Prop(r.value.options, "mutatePayload") == Bool(true)
    // never both an `exp` claim and `expiresIn`; `expiresIn` exactly when there is no `exp` claim
    ensures r.Ok? ==> ("expiresIn" in r.value.options <==> !HasExpClaim(r.value.payload))
    ensures r.Ok? && !HasExpClaim(token) ==> r.value.options["expiresIn"] == EffectiveExpiry(signOptions, authOptions)
    ensures r.Ok? && !IsNullish(Prop(authOptions, "authAlgorithm"))
      ==> Prop(r.value.options, "algorithm") == Prop(authOptions, "authAlgorithm")
    ensures r.Ok? && IsNullish(Prop(authOptions, "authAlgorithm"))
      ==> Prop(r.value.options, "algorithm") == Prop(CopyProps(signOptions), "algorithm")
    ensures r.Ok? ==> SelectKey(Prop(authOptions, "authKey"), "private", randomKey) == Ok(r.value.key)
    // every option signToken does not manage is passed on as the caller gave it
    ensures r.Ok? ==> forall name :: name !in MANAGED_SIGN_OPTIONS ==>
      Prop(r.value.options, name) == Prop(CopyProps(signOptions), name)
  {
    var copied := CopyProps(signOptions);
    if !IsNullish(Prop(copied, "algorithm")) then
      Err(Failure(InvalidArgumentsError(ALGORITHM_OVERRIDE_MESSAGE), Thrown))
    else
      var withMutate := copied["mutatePayload" := Bool(true)];
      var expiresIn := EffectiveExpiry(signOptions, authOptions);
      if Truthy(token) && TypeOf(token) != "object" && !token.Fn? then
        Err(Failure(TypeError, Thrown))
      else
        var withExpiry :=
          if Truthy(token) && HasExpClaim(token) then withMutate - {"expiresIn"}
          else withMutate["expiresIn" := expiresIn];
        var withAlgorithm :=
          if IsNullish(Prop(authOptions, "authAlgorithm")) then withExpiry
          else withExpiry["algorithm" := Prop(authOptions, "authAlgorithm")];
        match SelectKey(Prop(authOptions, "authKey"), "private", randomKey)
        case Err(f) => Err(f)
        case Ok(key) => Ok(SignRequest(token, key, withAlgorithm))
  }

  /** `verifyToken(signedToken, authOptions, verifyOptions)` up to the call of
      `jwt.verify`. A token that is neither a string nor null/undefined is refused
      through a rejected promise; null and undefined are verified as "". */
  function VerifyToken(signedToken: JsValue, authOptions: Props, verifyOptions: JsValue, randomKey: string): (r: Result<VerifyRequest>)
    ensures !(signedToken.Str? || IsNullish(signedToken))
      <==> r == Err(Failure(InvalidArgumentsError(TOKEN_FORMAT_MESSAGE), Rejected))
    ensures (signedToken.Str? || IsNullish(signedToken)) && Prop(authOptions, "authKey").Null?
      <==> r == Err(Failure(TypeError, Thrown))
    ensures r.Ok? ==> r.value.token == (if signedToken.Str? then signedToken.s else "")
    // the caller's options are passed on unchanged: nothing is added, not even `verifyAlgorithms`
    ensures r.Ok? ==> r.value.options == CopyProps(verifyOptions)
    ensures r.Ok? ==> SelectKey(Prop(authOptions, "authKey"), "public", randomKey) == Ok(r.value.key)
  {
    var jwtOptions := CopyProps(verifyOptions);
    if signedToken.Str? || IsNullish(signedToken) then
      match SelectKey(Prop(authOptions, "authKey"), "public", randomKey)
      case Err(f) => Err(f)
      case Ok(key) =>
        Ok(VerifyRequest(if Truthy(signedToken) then signedToken.s else "", key, jwtOptions))
    else
      Err(Failure(InvalidArgumentsError(TOKEN_FORMAT_MESSAGE), Rejected))
  }

  /** No key is ever generated: what both calls hand to the library is the same
      whatever the random source would have produced. */
  lemma NoKeyIsGenerated(token: JsValue, authOptions: Props, options: JsValue, key1: string, key2: string)
    ensures SignToken(token, authOptions, options, key1) == SignToken(token, authOptions, options, key2)
    ensures VerifyToken(token, authOptions, options, key1) == VerifyToken(token, authOptions, options, key2)
  {
  }

  /** With no key configured at all, signing and verifying go ahead with an undefined
      key instead of a generated one, for any claims and token the calls accept. */
  lemma UndefinedKeyIsPassedOn(claims: JsValue, signedToken: JsValue, authOptions: Props,
                               signOptions: JsValue, verifyOptions: JsValue, randomKey: string)
    requires Prop(authOptions, "authKey") == Undefined
    requires !(Truthy(claims) && !claims.Obj? && !claims.Fn?)
    requires !OverridesAlgorithm(signOptions)
    requires signedToken.Str? || IsNullish(signedToken)
    ensures SignToken(claims, authOptions, signOptions, randomKey).Ok?
    ensures SignToken(claims, authOptions, signOptions, randomKey).value.key == Undefined
    ensures VerifyToken(signedToken, authOptions, verifyOptions, randomKey)
      == Ok(VerifyRequest(if signedToken.Str? then signedToken.s else "", Undefined, CopyProps(verifyOptions)))
  {
  }

  /** Signing claims without `exp`, with no expiry anywhere in the options, gives
      `expiresIn` 86400 seconds and forces the configured algorithm, with the
      configured key. */
  lemma DefaultExpiryApplied(claims: Props, authOptions: Props, randomKey: string)
    requires "exp" !in claims
    requires !Truthy(Prop(authOptions, "defaultExpiry"))
    requires !IsNullish(Prop(authOptions, "authAlgorithm"))
    requires !Prop(authOptions, "authKey").Null? && !HasOwn(Prop(authOptions, "authKey"), "private")
    ensures SignToken(Obj(claims), authOptions, Undefined, randomKey)
      == Ok(SignRequest(Obj(claims), Prop(authOptions, "authKey"),
             map["mutatePayload" := Bool(true), "expiresIn" := Num(DEFAULT_EXPIRY),
                 "algorithm" := Prop(authOptions, "authAlgorithm")]))
  {
  }
}
