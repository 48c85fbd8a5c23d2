/**
 * The Django settings read by the login form. Each setting is optional:
 * None stands for a name that is not defined in the settings module.
 */
module DjangoSettings {
  import opened Wrappers

  /** One (url, label) pair of AVAILABLE_REGIONS; the url is the value submitted, `display` the text shown. */
  datatype RegionChoice = RegionChoice(url: string, display: string)

  datatype Settings = Settings(
    keystoneUrl: Option<string>,                 // OPENSTACK_KEYSTONE_URL
    availableRegions: Option<seq<RegionChoice>>, // AVAILABLE_REGIONS
    multiDomainSupport: Option<bool>,            // OPENSTACK_KEYSTONE_MULTIDOMAIN_SUPPORT
    defaultDomain: Option<string>)               // OPENSTACK_KEYSTONE_DEFAULT_DOMAIN

  /** Reading a setting without a default raises AttributeError when it is not defined. */
  datatype SettingsError = AttributeError(name: string)

  /** getattr(settings, 'OPENSTACK_KEYSTONE_MULTIDOMAIN_SUPPORT', False) */
  function MultiDomain(s: Settings): (on: bool)
    ensures on <==> s.multiDomainSupport == Some(true)
  {
    s.multiDomainSupport.GetOr(false)
  }

  /** getattr(settings, 'OPENSTACK_KEYSTONE_DEFAULT_DOMAIN', 'Default') */
  function DefaultDomain(s: Settings): (domain: string)
    ensures s.defaultDomain.Some? ==> domain == s.defaultDomain.value
    ensures s.defaultDomain.None? ==> domain == "Default"
  {
    s.defaultDomain.GetOr("Default")
  }
}
