/**
 * The choices of the region field (Login.get_region_choices) and how the
 * form presents that field when there is only one region to choose.
 */
module Regions {
  import opened Wrappers
  import opened DjangoSettings

  /** The label of the single fallback region. */
  const DefaultRegionLabel := "Default Region"

  /**
   * get_region_choices: AVAILABLE_REGIONS when it is defined, otherwise the one
   * region at OPENSTACK_KEYSTONE_URL. That URL is read before the lookup, so
   * leaving it undefined raises even when AVAILABLE_REGIONS is defined.
   */
  function RegionChoices(s: Settings): (r: Result<seq<RegionChoice>, SettingsError>)
    ensures r.Failure? <==> s.keystoneUrl.None?
    ensures r.Failure? ==> r.error == AttributeError("OPENSTACK_KEYSTONE_URL")
    ensures r.Success? && s.availableRegions.Some? ==> r.value == s.availableRegions.value
    ensures r.Success? && s.availableRegions.None? ==>
              r.value == [RegionChoice(s.keystoneUrl.value, DefaultRegionLabel)]
  {
    match s.keystoneUrl
    case None => Failure(AttributeError("OPENSTACK_KEYSTONE_URL"))
    case Some(url) =>
      var defaultRegion := RegionChoice(url, DefaultRegionLabel);
      Success(s.availableRegions.GetOr([defaultRegion]))
  }

  /** The region field's initial value and whether its widget is a hidden input. */
  datatype RegionWidget = RegionWidget(initial: Option<string>, hidden: bool)

  /** The region field as a freshly declared ChoiceField leaves it. */
  const DeclaredRegionWidget := RegionWidget(None, false)

  /**
   * The region field after its choices are set: with exactly one choice that
   * choice is preselected and the widget hidden; otherwise nothing changes.
   */
  function Presentation(choices: seq<RegionChoice>, before: RegionWidget): (after: RegionWidget)
    ensures after.hidden <==> |choices| == 1 || before.hidden
    ensures |choices| == 1 ==> after.initial == Some(choices[0].url)
    ensures |choices| != 1 ==> after == before
  {
    if |choices| == 1 then RegionWidget(Some(choices[0].url), true) else before
  }

  /**
   * Starting from the declared field, the widget is hidden exactly when there
   * is one choice, and a preselected region is always one of the choices.
   */
  lemma PreselectionIsAChoice(choices: seq<RegionChoice>)
    ensures Presentation(choices, DeclaredRegionWidget).hidden <==> |choices| == 1
    ensures Presentation(choices, DeclaredRegionWidget).initial.Some? ==>
              exists c :: c in choices && c.url == Presentation(choices, DeclaredRegionWidget).initial.value
  {
  }

  /**
   * Without AVAILABLE_REGIONS the form offers only the Keystone URL, so it
   * preselects that URL and hides the region field.
   */
  lemma DefaultRegionPreselected(s: Settings)
    requires s.keystoneUrl.Some? && s.availableRegions.None?
    ensures RegionChoices(s).Success?
    ensures Presentation(RegionChoices(s).value, DeclaredRegionWidget) ==
              RegionWidget(Some(s.keystoneUrl.value), true)
  {
  }
}
