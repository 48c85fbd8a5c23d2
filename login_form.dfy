/**
 * The Login form: how __init__ lays out its fields and choices, and how
 * clean routes a login attempt to one backend and handles its failure.
 */
module LoginForm {
  import opened Wrappers
  import opened DjangoSettings
  import opened AuthServices
  import opened Regions
  import opened Routing

  /** The request's session; only whether it has been flushed is modelled. */
  class Session {
    var flushed: bool

    constructor ()
      ensures !flushed
    {
      flushed := false;
    }

    method Flush()
      modifies this
      ensures flushed
    {
      flushed := true;
    }
  }

  /** What clean does: return cleaned_data, raise ValidationError, or let a backend exception escape. */
  datatype CleanOutcome = Returned(data: CleanedData) | ValidationError(message: string) | Raised(message: string)

  /** No field name occurs twice. */
  predicate Distinct(order: seq<FieldName>) {
    forall i, j :: 0 <= i < j < |order| ==> order[i] != order[j]
  }

  /** The order with every occurrence of field f removed. */
  function Without(order: seq<FieldName>, f: FieldName): seq<FieldName> {
    if order == [] then []
    else (if order[0] == f then [] else [order[0]]) + Without(order[1..], f)
  }

  /** The field order of a single-domain form. */
  const SingleDomainOrder := [ExternalAuthService, Username, Password, Region]

  /**
   * The order __init__ gives the fields: the service selector first and the
   * region last, with the domain field right after the selector exactly when
   * multi-domain support is on.
   */
  function FieldOrder(multiDomain: bool): (order: seq<FieldName>)
    ensures Distinct(order)
    ensures Domain in order <==> multiDomain
    ensures Without(order, Domain) == SingleDomainOrder
    ensures order[0] == ExternalAuthService && order[|order| - 1] == Region
    ensures multiDomain ==> order[1] == Domain
  {
    if multiDomain then [ExternalAuthService, Domain, Username, Password, Region]
    else SingleDomainOrder
  }

  /** The declared fields and whether each is required, as the class body declares them. */
  const DeclaredFields: map<FieldName, bool> :=
    map[Username := false, Password := false, Region := false, ExternalAuthService := true]

  /** Offering the choice of the k-th realm and selecting it logs in through that realm. */
  lemma ListedRealmRoutesFederated(reply: Option<RealmListReply>, k: nat, cd: CleanedData, s: Settings)
    requires k < |VisitedRealms(reply)|
    requires ServiceList(reply)[k + 1].value.Some?
    requires ServiceList(reply)[k + 1].value.value != "default"
    requires Get(cd, ExternalAuthService) == ServiceList(reply)[k + 1].value
    ensures "id" in VisitedRealms(reply)[k]
    ensures Route(cd, s) == FederatedCall(VisitedRealms(reply)[k]["id"], FederatedRegion)
  {
  }

  /** A realm whose id is "default" is offered, but selecting it logs in directly. */
  lemma RealmNamedDefaultIsDirect(reply: Option<RealmListReply>, k: nat, cd: CleanedData, s: Settings)
    requires k < |VisitedRealms(reply)|
    requires Lookup(VisitedRealms(reply)[k], "id") == Some("default")
    requires Get(cd, ExternalAuthService) == ServiceList(reply)[k + 1].value
    ensures ServiceList(reply)[k + 1] in ServiceList(reply)
    ensures Route(cd, s).DirectCall?
  {
  }

  /** The value user_cache takes from a backend call that returned normally. */
  function CachedUser(result: AuthResult): (cached: Option<User>)
    requires !result.KeystoneAuthError?
    ensures cached.Some? <==> result.Authenticated?
    ensures cached.Some? ==> cached.value == result.user
  {
    if result.Authenticated? then Some(result.user) else None
  }

  class Login {
    /** The session of the request the form was built for. */
    const session: Session
    /** The form's fields, each with its required flag. */
    var fields: map<FieldName, bool>
    /** fields.keyOrder: the order in which the fields are rendered. */
    var keyOrder: seq<FieldName>
    /** The choices of the external_auth_service field. */
    var serviceChoices: seq<ServiceChoice>
    /** The choices of the region field. */
    var regionChoices: seq<RegionChoice>
    /** The region field's initial value and widget. */
    var regionWidget: RegionWidget
    /** The user the last successful clean authenticated. */
    var userCache: Option<User>
    /** Every backend call clean has made on this form, in order. */
    ghost var backendCalls: seq<BackendCall>

    /** The base AuthenticationForm constructor: declared fields, no user yet. */
    constructor (session: Session)
      ensures this.session == session
      ensures fields == DeclaredFields && keyOrder == [Username, Password, Region, ExternalAuthService]
      ensures serviceChoices == [] && regionChoices == [] && regionWidget == DeclaredRegionWidget
      ensures userCache == None && backendCalls == []
    {
      this.session := session;
      fields := DeclaredFields;
      keyOrder := [Username, Password, Region, ExternalAuthService];
      serviceChoices, regionChoices := [], [];
      regionWidget := DeclaredRegionWidget;
      userCache, backendCalls := None, [];
    }

    /**
     * The body of Login.__init__. Returns the AttributeError it raises when
     * OPENSTACK_KEYSTONE_URL is not defined; by then the field order, the
     * service choices and the domain field are already in place.
     */
    method Initialize(s: Settings, reply: Option<RealmListReply>) returns (err: Option<SettingsError>)
      modifies this`fields, this`keyOrder, this`serviceChoices, this`regionChoices, this`regionWidget
      ensures keyOrder == FieldOrder(MultiDomain(s))
      ensures serviceChoices == ServiceList(reply)
      ensures fields == if MultiDomain(s) then old(fields)[Domain := true] else old(fields)
      ensures err.Some? <==> RegionChoices(s).Failure?
      ensures err.Some? ==> err.value == RegionChoices(s).error &&
                            regionChoices == old(regionChoices) && regionWidget == old(regionWidget)
      ensures err.None? ==> regionChoices == RegionChoices(s).value &&
                            regionWidget == Presentation(regionChoices, old(regionWidget))
    {
      keyOrder := SingleDomainOrder;
      serviceChoices := ExternalAuthServices(reply);
      if MultiDomain(s) {
        fields := fields[Domain := true];
        keyOrder := [ExternalAuthService, Domain, Username, Password, Region];
      }
      var choices := RegionChoices(s);
      if choices.Failure? {
        return Some(choices.error);
      }
      regionChoices := choices.value;
      if |regionChoices| == 1 {
        regionWidget := regionWidget.(initial := Some(regionChoices[0].url));
        regionWidget := regionWidget.(hidden := true);
      }
      err := None;
    }

    /**
     * Login.clean over the cleaned field values: make exactly one backend
     * call, the one Route chooses. A KeystoneAuthException from direct
     * authentication flushes the session and becomes a ValidationError; one
     * from federated authentication escapes clean unhandled. Otherwise the
     * user (or None) the backend returned is cached and cleaned_data returned.
     */
    method Clean(s: Settings, cleanedData: CleanedData, backend: BackendCall -> AuthResult)
      returns (outcome: CleanOutcome)
      modifies this`userCache, this`backendCalls, session
      ensures backendCalls == old(backendCalls) + [Route(cleanedData, s)]
      ensures var call := Route(cleanedData, s);
              var result := backend(call);
              if result.KeystoneAuthError? then
                userCache == old(userCache) &&
                if call.DirectCall? then
                  session.flushed && outcome == ValidationError(result.message)
                else
                  session.flushed == old(session.flushed) && outcome == Raised(result.message)
              else
                session.flushed == old(session.flushed) && outcome == Returned(cleanedData) &&
                userCache == if result.Authenticated? then Some(result.user) else None
    {
      var defaultDomain := DefaultDomain(s);
      var service := Get(cleanedData, ExternalAuthService);
      var username := Get(cleanedData, Username);
      var password := Get(cleanedData, Password);
      var region := Get(cleanedData, Region);
      var domain := Get(cleanedData, Domain).GetOr(defaultDomain);
      if service != Some("default") && service != None {
        var call := FederatedCall(service.value, FederatedRegion);
        backendCalls := backendCalls + [call];
        var result := backend(call);
        if result.KeystoneAuthError? {
          return Raised(result.message);
        }
        userCache := CachedUser(result);
      } else {
        var call := DirectCall(username, password, domain, region, service);
        backendCalls := backendCalls + [call];
        var result := backend(call);
        if result.KeystoneAuthError? {
          session.Flush();
          return ValidationError(result.message);
        }
        userCache := CachedUser(result);
      }
      outcome := Returned(cleanedData);
    }
  }
}
