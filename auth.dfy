/**
 * `get_authenticated_service` and the process-wide `_service_cache` slot.
 *
 * The token file, the OAuth library and `build` are not modelled; what they
 * do is given as an `Environment` of outcomes, and the model follows the
 * branches the code takes on them and records which side effects it started.
 */
module Auth {
  import opened Wrappers
  import opened Errors

  /** The three properties of a loaded `Credentials` object the code reads. */
  datatype StoredToken = StoredToken(valid: bool, expired: bool, hasRefreshToken: bool)

  /** The outcomes of the calls `get_authenticated_service` makes. */
  datatype Environment = Environment(
    tokenFileExists: bool,    // os.path.exists(TOKEN_PATH)
    loadOk: bool,             // Credentials.from_authorized_user_file does not raise
    token: StoredToken,       // ... and what it loaded
    refreshOk: bool,          // creds.refresh(Request()) does not raise
    secretsFileExists: bool,  // os.path.exists(CREDENTIALS_PATH)
    consentOk: bool,          // InstalledAppFlow set-up and run_local_server do not raise
    saveOk: bool)             // writing token.json and chmod raise no OSError

  /** The credential a service is built with. */
  datatype Credential =
    | Stored(token: StoredToken, refreshed: bool)  // loaded from token.json (refreshed in place or not)
    | Consented                                    // returned by the consent flow

  /** `build("tasks", "v1", credentials=creds)`. */
  datatype Service = Service(credential: Credential)

  /** Which side effects one acquisition started. */
  datatype Effects = Effects(loadAttempted: bool, refreshAttempted: bool, consentRun: bool, saveAttempted: bool)

  const NoEffects := Effects(false, false, false, false)

  datatype Acquisition = Acquisition(service: Result<Service, Error>, effects: Effects)

  /** A credential was loaded: the token file exists and loading did not raise. */
  predicate Loaded(env: Environment) {
    env.tokenFileExists && env.loadOk
  }

  /** The loaded credential is invalid, expired and refreshable, so a refresh is tried. */
  predicate Refreshes(env: Environment) {
    Loaded(env) && !env.token.valid && env.token.expired && env.token.hasRefreshToken
  }

  /** A loaded credential survives: it was not refreshed, or the refresh succeeded. */
  predicate KeepsStored(env: Environment) {
    Loaded(env) && (!Refreshes(env) || env.refreshOk)
  }

  /** No credential is left and the client secrets exist, so the consent flow runs. */
  predicate RunsConsent(env: Environment) {
    !KeepsStored(env) && env.secretsFileExists
  }

  /** The first call of `get_authenticated_service` in a process, as a whole. */
  function Acquire(env: Environment): (a: Acquisition)
    // the only exception it raises is AuthenticationError, and only when no credential is left
    // and either the client secrets are missing or the consent flow fails
    ensures a.service.Err? ==> a.service.error == Authentication
    ensures a.service.Err? <==> !KeepsStored(env) && (!env.secretsFileExists || !env.consentOk)
    // a loaded, valid credential is used with no refresh, no consent and no save
    ensures Loaded(env) && env.token.valid ==>
      a == Acquisition(Ok(Service(Stored(env.token, false))), Effects(true, false, false, false))
    // a loaded credential that is invalid but not refreshable is used as it is, and saved
    ensures Loaded(env) && !env.token.valid && !(env.token.expired && env.token.hasRefreshToken) ==>
      a.service == Ok(Service(Stored(env.token, false))) && a.effects.saveAttempted && !a.effects.consentRun
    ensures a.effects.loadAttempted <==> env.tokenFileExists
    // a refresh is tried exactly for a loaded, invalid, expired credential with a refresh token,
    // and a successful refresh gives the refreshed stored credential
    ensures a.effects.refreshAttempted <==> Refreshes(env)
    ensures Refreshes(env) && env.refreshOk ==>
      a.service == Ok(Service(Stored(env.token, true))) && !a.effects.consentRun && a.effects.saveAttempted
    // consent runs exactly when no credential is left and the client secrets exist,
    // and its credential is the one used
    ensures a.effects.consentRun <==> RunsConsent(env)
    ensures a.service == Ok(Service(Consented)) <==> a.effects.consentRun && env.consentOk
    // a save is attempted only on success, and never for a credential that was valid when loaded
    ensures a.effects.saveAttempted <==> a.service.Ok? && !(Loaded(env) && env.token.valid)
  {
    var result :=
      if KeepsStored(env) then Ok(Service(Stored(env.token, Refreshes(env))))
      else if RunsConsent(env) && env.consentOk then Ok(Service(Consented))
      else Err(Authentication);
    Acquisition(result, Effects(
      env.tokenFileExists,
      Refreshes(env),
      RunsConsent(env),
      result.Ok? && !(Loaded(env) && env.token.valid)))
  }

  /** A failed save is only logged: the outcome does not depend on it. */
  lemma SaveFailureIsOnlyLogged(env: Environment, saveOk: bool)
    ensures Acquire(env.(saveOk := saveOk)) == Acquire(env)
  {
  }

  /** A failed refresh discards the credential: the consent flow decides. */
  lemma FailedRefreshFallsBackToConsent(env: Environment)
    requires Refreshes(env) && !env.refreshOk
    ensures Acquire(env).effects.refreshAttempted
    ensures Acquire(env).effects.consentRun == env.secretsFileExists
    ensures Acquire(env).service ==
      if env.secretsFileExists && env.consentOk then Ok(Service(Consented)) else Err(Authentication)
  {
  }

  /** What a call gives with the cache slot in a given state. */
  function ServiceFor(cache: Option<Service>, env: Environment): Result<Service, Error> {
    if cache.Some? then Ok(cache.value) else Acquire(env).service
  }

  /** The side effects a call starts with the cache slot in a given state. */
  function EffectsFor(cache: Option<Service>, env: Environment): Effects {
    if cache.Some? then NoEffects else Acquire(env).effects
  }

  /** The holder of `_service_cache`: `None` until an acquisition succeeds. */
  class ServiceCache {
    var cache: Option<Service>

    constructor()
      ensures cache == None
    {
      cache := None;
    }

    /** `get_authenticated_service`. */
    method GetAuthenticatedService(env: Environment) returns (r: Result<Service, Error>, effects: Effects)
      modifies this
      ensures old(cache).Some? ==> r == Ok(old(cache).value) && effects == NoEffects
      ensures old(cache).None? ==> Acquisition(r, effects) == Acquire(env)
      ensures r == ServiceFor(old(cache), env) && effects == EffectsFor(old(cache), env)
      ensures cache == if r.Ok? then Some(r.value) else old(cache)
    {
      if cache.Some? {
        return Ok(cache.value), NoEffects;
      }
      effects := NoEffects;

      var creds: Option<Credential> := None;
      if env.tokenFileExists {
        effects := effects.(loadAttempted := true);
        if env.loadOk {
          creds := Some(Stored(env.token, false));
        }
        // a load failure is logged and leaves creds at None
      }

      if creds.None? || !creds.value.token.valid {
        if creds.Some? && creds.value.token.expired && creds.value.token.hasRefreshToken {
          effects := effects.(refreshAttempted := true);
          if env.refreshOk {
            creds := Some(Stored(creds.value.token, true));
          } else {
            creds := None;
          }
        }

        if creds.None? {
          if !env.secretsFileExists {
            return Err(Authentication), effects;
          }
          effects := effects.(consentRun := true);
          if !env.consentOk {
            return Err(Authentication), effects;
          }
          creds := Some(Consented);
        }

        // persisting the token: an OSError is logged and otherwise ignored
        effects := effects.(saveAttempted := true);
      }

      var service := Service(creds.value);
      cache := Some(service);
      r := Ok(service);
    }
  }
}
