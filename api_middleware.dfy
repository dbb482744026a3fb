/** The API routes' own security middleware: off, deferring to the
    installed security layer, or a legacy check of the key's format. */
module ApiSecurity {
  import opened Json
  import opened Http
  import Integration
  import Rbac

  datatype ApiSecurityConfig = ApiSecurityConfig(apiKeyHeader: string, enableSecurity: bool)

  const DefaultConfig := ApiSecurityConfig(ApiKeyHeader, true)

  /** The application is called (with `request.state.api_key` set to the key
      when there is one to set), the middleware answers itself, or an error
      escapes it. */
  datatype Outcome = Forwarded(apiKeyState: Option<string>) | Answered(response: Response) | Escaped

  /** `_is_valid_api_key`: every key it accepts, the security dispatch's
      legacy format check accepts too. */
  function IsValidApiKey(apiKey: string): (b: bool)
    ensures b ==> Integration.LegacyFormat(apiKey)
  {
    StartsWith(apiKey, "ao-") || StartsWith(apiKey, "aorbit-")
  }

  /** `dispatch`, where `securityInstalled` says whether the application's
      state holds the security layer and `appFails` whether the rest of the
      chain raises. The warnings logged on a refusal read the client's
      address, and a request without one makes that logging raise. */
  function Dispatch(config: ApiSecurityConfig, securityInstalled: bool, req: Request, appFails: bool): (o: Outcome)
    ensures !config.enableSecurity ==> o == (if appFails then Escaped else Forwarded(None))
    ensures config.enableSecurity && securityInstalled ==>
              o == (if appFails then Answered(Detail(500, "Internal security error")) else Forwarded(None))
    ensures o.Forwarded? && o.apiKeyState.Some? ==>
              config.enableSecurity && !securityInstalled && !appFails
              && Header(req, config.apiKeyHeader) == o.apiKeyState && IsValidApiKey(o.apiKeyState.value)
  {
    if !config.enableSecurity then
      if appFails then Escaped else Forwarded(None)
    else if securityInstalled then
      if appFails then Answered(Detail(500, "Internal security error")) else Forwarded(None)
    else
      var apiKey := Header(req, config.apiKeyHeader);
      if !Present(apiKey) then
        if req.clientIp.None? then Escaped else Answered(Detail(401, "API key required"))
      else if !IsValidApiKey(apiKey.value) then
        if req.clientIp.None? then Escaped else Answered(Detail(401, "Invalid API key"))
      else if appFails then Answered(Detail(500, "Internal server error"))
      else Forwarded(apiKey)
  }

  /** With the legacy check in force, each refusal happens exactly when its
      condition holds: a missing key, a key of the wrong format, or a
      failure further down the chain for a well-formed key. */
  lemma RefusalsExactly(config: ApiSecurityConfig, securityInstalled: bool, req: Request, appFails: bool)
    ensures var o := Dispatch(config, securityInstalled, req, appFails);
            var apiKey := Header(req, config.apiKeyHeader);
            (o == Answered(Detail(401, "API key required")) <==>
              config.enableSecurity && !securityInstalled && !Present(apiKey) && req.clientIp.Some?)
            && (o == Answered(Detail(401, "Invalid API key")) <==>
              config.enableSecurity && !securityInstalled && Present(apiKey)
              && !IsValidApiKey(apiKey.value) && req.clientIp.Some?)
            && (o == Answered(Detail(500, "Internal server error")) <==>
              config.enableSecurity && !securityInstalled && appFails
              && Present(apiKey) && IsValidApiKey(apiKey.value))
  {
    DetailInjective();
  }

  /** This check is strictly stricter than the security layer's legacy
      check (the inclusion is `IsValidApiKey`'s own contract): `aorbit`
      followed by anything other than a dash passes there and fails here. */
  lemma LegacyFormatIsLooser()
    ensures Integration.LegacyFormat("aorbit_key") && !IsValidApiKey("aorbit_key")
  {
    assert "aorbit_key"[..6] == "aorbit";
    assert "aorbit_key"[..3] != "ao-" by { assert "aorbit_key"[2] != '-'; }
    assert "aorbit_key"[..7] != "aorbit-" by { assert "aorbit_key"[6] != '-'; }
  }

  /** Every key the role manager mints has a format this check accepts. */
  lemma MintedKeysAreValid(token: string, name: string, roles: seq<string>, description: Option<string>,
                           rateLimit: int, expiresIn: Option<int>, nowSeconds: int)
    ensures IsValidApiKey(Rbac.NewApiKey(token, name, roles, description, rateLimit, expiresIn, nowSeconds).key)
  {
    var k := Rbac.NewApiKey(token, name, roles, description, rateLimit, expiresIn, nowSeconds);
    assert k.key[..3] == "ao-";
  }
}
