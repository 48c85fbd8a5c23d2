# Login form decision logic of openstack_auth (federated fork)

This project models the decision logic of the `Login` form in
`openstack_auth/forms.py`. The form lets a user log in to the OpenStack
dashboard in one of two ways. They can log in directly against Keystone with
a user name, password, domain and region, or they can log in through a
federated identity realm that a realm directory reports.

The model covers four parts of that form:

- **Auth-service choices** (`AuthServices`). The built-in `("default", "Default")`
  entry comes first. After it comes one `(id, name)` entry per realm record of
  the directory reply, in order. `ExternalAuthServices` is the source's
  append loop, proved equal to the specification function `ServiceList`.
- **Region choices and presentation** (`Regions`). `AVAILABLE_REGIONS` is used
  when it is defined. Otherwise the form offers the single region
  `(OPENSTACK_KEYSTONE_URL, "Default Region")`. With exactly one region, the
  form preselects it and hides its widget.
- **Routing in `clean`** (`Routing`). The domain resolves to the submitted one,
  then to `OPENSTACK_KEYSTONE_DEFAULT_DOMAIN`, then to `"Default"`. A selected
  realm goes only to federated authentication, always in region `"RegionOne"`.
  Any other selection goes only to direct authentication, with the resolved
  domain and the form's region as the Keystone URL.
- **The form object** (`LoginForm`). The class `Login` holds the fields,
  their order, the choices, the region widget, `user_cache` and a ghost log of
  the backend calls made. `Initialize` is the body of `__init__`. `Clean` is
  `clean`. On a direct-login failure it flushes the session and raises a
  validation error.

Settings are an explicit record (`DjangoSettings.Settings`). A setting that is
not defined is `None`. The realm directory's reply is an input value. The two
authentication backends are one oracle function from a `BackendCall` to an
`AuthResult`: a user, `None`, or a raised `KeystoneAuthException`.

The model follows the code in these points, some of which a reader may not expect:

- `OPENSTACK_KEYSTONE_URL` is read before `AVAILABLE_REGIONS` is consulted
  (forms.py:78). So a missing URL raises `AttributeError` even when the region
  list is configured. `RegionChoices` returns a `Failure` for it.
- The check that fails fast on an empty user name or password is commented
  out (forms.py:104-106). Empty credentials therefore reach the backend.
- Without `OPENSTACK_KEYSTONE_DEFAULT_DOMAIN` the domain falls back to the
  literal `"Default"`; no error is raised.
- When direct `authenticate` returns `None` instead of raising, `clean` caches
  `None` and returns `cleaned_data` without an error.
- An exception from federated authentication is not caught (forms.py:109). It
  escapes `clean` without flushing the session (`CleanOutcome.Raised`).
- A realm whose id is `"default"` is listed, but selecting it logs in
  directly (`LoginForm.RealmNamedDefaultIsDirect`).

## Model

| member | source | states |
|---|---|---|
| `AuthServices.ChoiceOf` | openstack_auth/forms.py:89 | a realm's choice carries its `id` and `name`, each None exactly when the record lacks it |
| `AuthServices.Truthy` | openstack_auth/forms.py:87 | `if realmlist:` is false for None and for the empty dict, and true for any dict with a `"realms"` key or any other key |
| `AuthServices.VisitedRealms` | openstack_auth/forms.py:87-88 | the loop visits the reply's `realms` list when that key is present, and nothing when the reply is None or lacks the key |
| `AuthServices.RealmChoicesAt` | openstack_auth/forms.py:88-89 | there is one realm choice per realm record, and the k-th choice is built from the k-th record |
| `AuthServices.ServiceList` | openstack_auth/forms.py:83-90 | the service list has length 1 + number of realms, starts with `("default","Default")`, and entry k+1 is the choice of realm k |
| `AuthServices.NoRealmsOnlyDefault` | openstack_auth/forms.py:83-90 | a falsy reply or one without a `"realms"` key gives exactly `[("default","Default")]` |
| `AuthServices.ServiceListMembership` | openstack_auth/forms.py:88-89 | a choice follows the default entry if and only if it is the choice of some realm record in the reply |
| `AuthServices.ExternalAuthServices` | openstack_auth/forms.py:82-90 | the append loop yields exactly the service list above |
| `Regions.RegionChoices` | openstack_auth/forms.py:77-79 | the choices are `AVAILABLE_REGIONS` when defined, otherwise the single `(OPENSTACK_KEYSTONE_URL, "Default Region")`; an undefined URL raises `AttributeError` in both cases |
| `Regions.Presentation` | openstack_auth/forms.py:72-74 | with exactly one choice that choice's value becomes the initial region and the widget is hidden; with any other count nothing changes |
| `Regions.PreselectionIsAChoice` | openstack_auth/forms.py:72-74 | from a freshly declared field, the widget is hidden if and only if there is one choice, and a preselected region is one of the choices |
| `Regions.DefaultRegionPreselected` | openstack_auth/forms.py:71-79 | without `AVAILABLE_REGIONS` the Keystone URL is preselected and the region field hidden |
| `DjangoSettings.MultiDomain` | openstack_auth/forms.py:65-67 | multi-domain support is on exactly when `OPENSTACK_KEYSTONE_MULTIDOMAIN_SUPPORT` is defined and true; an undefined setting means off |
| `DjangoSettings.DefaultDomain` | openstack_auth/forms.py:94-96 | the default domain is `OPENSTACK_KEYSTONE_DEFAULT_DOMAIN` when defined, otherwise `"Default"` |
| `Routing.SelectsRealm` | openstack_auth/forms.py:108 | a realm is selected exactly when `external_auth_service` is in `cleaned_data` with a value other than `'default'` |
| `Routing.ResolveDomain` | openstack_auth/forms.py:94-102 | the domain is the submitted one if present, else `OPENSTACK_KEYSTONE_DEFAULT_DOMAIN`, else `"Default"` |
| `Routing.Route` | openstack_auth/forms.py:108-118 | the call is federated if and only if the selector is neither `'default'` nor None; a federated call carries the selected realm and region `"RegionOne"`; a direct call carries the submitted credentials, the resolved domain and the form's region as `auth_url` |
| `Routing.FederatedCallIgnoresForm` | openstack_auth/forms.py:108-109 | a federated call depends only on the selected realm, never on the form's region, credentials, domain or the settings |
| `Routing.DefaultSelectorIsDirect` | openstack_auth/forms.py:108-118 | selector `'default'` or None always routes to direct authentication |
| `Routing.DirectCallUsesForm` | openstack_auth/forms.py:101-117 | on the direct path a submitted domain overrides the default, and the form's region is the `auth_url` |
| `LoginForm.FieldOrder` | openstack_auth/forms.py:63-70 | the order has no repeats, starts with `external_auth_service` and ends with `region`; `domain` is present if and only if multi-domain support is on, and then comes second; without `domain` it is `external_auth_service, username, password, region` |
| `LoginForm.ListedRealmRoutesFederated` | openstack_auth/forms.py:88-109 | selecting the offered choice of realm k (id not `"default"`) makes a federated call with that realm's id and region `"RegionOne"` |
| `LoginForm.RealmNamedDefaultIsDirect` | openstack_auth/forms.py:83-113 | a realm whose id is `"default"` is offered, but selecting it routes to direct authentication |
| `LoginForm.CachedUser` | openstack_auth/forms.py:109-113 | `user_cache` takes the user a backend returned, and None exactly when the backend returned no user |
| `LoginForm.Session.Flush` | openstack_auth/forms.py:126 | after a flush the session is marked flushed |
| `LoginForm.Login.constructor` | openstack_auth/forms.py:53-62 | a new form has the declared fields, of which only `external_auth_service` is required; it has no choices, a visible region widget and no cached user |
| `LoginForm.Login.Initialize` | openstack_auth/forms.py:61-74 | the field order is `FieldOrder(flag)`; the service choices are `ServiceList(reply)`; a required `domain` field is added only with the flag; on success the region choices are `RegionChoices` with the one-region presentation applied; on `AttributeError` the region field is left as it was |
| `LoginForm.Login.Clean` | openstack_auth/forms.py:92-130 | exactly one backend call is made, the one `Route` chooses. A direct-path `KeystoneAuthException` flushes the session, raises a validation error and leaves `user_cache` alone. A federated exception escapes without a flush. Otherwise `user_cache` is the returned user and `cleaned_data` is returned unchanged, with no flush |

## Left out

- Django form, field and widget machinery, the translated labels, and the `sensitive_variables` decorator. Fields are modelled as a map from name to required flag, plus the order, choices and region widget state.
- Field-level cleaning (how `cleaned_data` is produced from the submitted data): `Login.Clean` takes `cleaned_data` as a parameter.
- `LoginForm.Login.constructor`: the inherited `AuthenticationForm` constructor is not shown. Its field order (inherited `username` and `password` first) is an assumption, and `__init__` overwrites it at once.
- `getRealmList` and `get_federated_keystone_url`: network I/O. The directory reply is an input. Reply values that are not a list of string-valued records are not modelled.
- `KeystoneBackend().federated_authenticate` and `django.contrib.auth.authenticate`: their code is not shown. They are one oracle function that returns a user or None, or raises `KeystoneAuthException`. Other exception types from the backends are not modelled.
- `check_for_test_cookie`: Django code that is not shown. The model returns `cleaned_data` where the form would also run that check.
- Logging and `print` statements: output only, with no effect on the result.
- Session storage: the flush is modelled as a flag on the session.
- Selecting a project scope (default project first, then the first project that scopes): it is described only in the class docstring (forms.py:43-48), and the backend code that does it is not shown.
- `OPENSTACK_KEYSTONE_MULTIDOMAIN_SUPPORT` is modelled as a boolean. Python truthiness of other values is not modelled.
