/**
 * The decision Login.clean makes before calling a backend: which domain to
 * log in to, and whether to authenticate directly against Keystone or
 * through a federated realm, with which arguments.
 */
module Routing {
  import opened Wrappers
  import opened DjangoSettings

  /** The fields of the login form. */
  datatype FieldName = ExternalAuthService | Domain | Username | Password | Region

  /** Form.cleaned_data: the value of every field that passed validation. */
  type CleanedData = map<FieldName, string>

  /** cleaned_data.get(field) */
  function Get(cd: CleanedData, f: FieldName): Option<string> {
    if f in cd then Some(cd[f]) else None
  }

  /** The user object a backend returns. */
  datatype User = User(id: string)

  /** A call into one of the two authentication backends, with its arguments. */
  datatype BackendCall =
    | DirectCall(username: Option<string>, password: Option<string>, userDomainName: string,
                 authUrl: Option<string>, externalAuthService: Option<string>)
    | FederatedCall(realm: string, region: string)

  /** What a backend call does: return a user, return None, or raise KeystoneAuthException. */
  datatype AuthResult = Authenticated(user: User) | NoUser | KeystoneAuthError(message: string)

  /** The region every federated login is sent to, whatever region the form holds. */
  const FederatedRegion := "RegionOne"

  /** The selected service is neither 'default' nor None, so it names a federated realm. */
  predicate SelectsRealm(cd: CleanedData)
    ensures SelectsRealm(cd) <==> ExternalAuthService in cd && cd[ExternalAuthService] != "default"
  {
    var service := Get(cd, ExternalAuthService);
    service != Some("default") && service != None
  }

  /** The domain passed to direct authentication: cleaned_data.get('domain', default_domain). */
  function ResolveDomain(cd: CleanedData, s: Settings): (domain: string)
    ensures Domain in cd ==> domain == cd[Domain]
    ensures Domain !in cd && s.defaultDomain.Some? ==> domain == s.defaultDomain.value
    ensures Domain !in cd && s.defaultDomain.None? ==> domain == "Default"
  {
    Get(cd, Domain).GetOr(DefaultDomain(s))
  }

  /**
   * The one backend call clean makes: federated authentication with the
   * realm id and region "RegionOne" when a realm is selected, otherwise
   * direct authentication with the resolved domain and the form's region
   * as the Keystone URL.
   */
  function Route(cd: CleanedData, s: Settings): (call: BackendCall)
    ensures call.FederatedCall? <==> SelectsRealm(cd)
    ensures call.FederatedCall? ==>
              Get(cd, ExternalAuthService) == Some(call.realm) && call.region == FederatedRegion
    ensures call.DirectCall? ==>
              call.username == Get(cd, Username) && call.password == Get(cd, Password) &&
              call.userDomainName == ResolveDomain(cd, s) && call.authUrl == Get(cd, Region) &&
              call.externalAuthService == Get(cd, ExternalAuthService)
  {
    var service := Get(cd, ExternalAuthService);
    if service != Some("default") && service != None then
      FederatedCall(service.value, FederatedRegion)
    else
      DirectCall(Get(cd, Username), Get(cd, Password), ResolveDomain(cd, s), Get(cd, Region), service)
  }

  /**
   * A federated call depends on the selected realm alone: the region,
   * credentials and domain in the form and every setting are ignored.
   */
  lemma FederatedCallIgnoresForm(cd1: CleanedData, cd2: CleanedData, s1: Settings, s2: Settings)
    requires SelectsRealm(cd1)
    requires Get(cd1, ExternalAuthService) == Get(cd2, ExternalAuthService)
    ensures Route(cd1, s1) == Route(cd2, s2) == FederatedCall(cd1[ExternalAuthService], FederatedRegion)
  {
  }

  /** Selecting 'default', or no valid service at all, always logs in directly. */
  lemma DefaultSelectorIsDirect(cd: CleanedData, s: Settings)
    requires Get(cd, ExternalAuthService) in {Some("default"), None}
    ensures Route(cd, s).DirectCall?
  {
  }

  /**
   * On the direct path a domain submitted in the form wins over the
   * configured default, and the region chosen in the form is the Keystone URL.
   */
  lemma DirectCallUsesForm(cd: CleanedData, s: Settings, domain: string, region: string)
    requires !SelectsRealm(cd)
    ensures Route(cd[Domain := domain][Region := region], s).userDomainName == domain
    ensures Route(cd[Domain := domain][Region := region], s).authUrl == Some(region)
  {
  }
}
