/** The city / zone / district picker (src/components/LocationSelector.tsx).
    Each selection is a string or null; an empty string counts as no
    selection wherever the component tests one. */
module LocationSelector {
  import opened Wrappers

  /** The component's truthiness test of a selection. */
  predicate Chosen(id: Option<string>) {
    id.Some? && id.value != ""
  }

  /** `initialValues.x || null` */
  function OrNull(id: Option<string>): (r: Option<string>)
    ensures Chosen(r) <==> Chosen(id)
    ensures r.Some? ==> r == id
  {
    if Chosen(id) then id else None
  }

  class Selection {
    var cityId: Option<string>
    var zoneId: Option<string>
    var districtId: Option<string>

    /** What the reset effects leave behind: without a city there is no
        zone and no district, and without a zone no district. */
    predicate Valid()
      reads this
    {
      (!Chosen(cityId) ==> zoneId.None? && districtId.None?)
      && (!Chosen(zoneId) ==> districtId.None?)
    }

    /** With the zone picker disabled until a city is chosen and the
        district picker until a zone is, every district has a zone and
        every zone a city. */
    lemma ValidNests()
      requires Valid()
      ensures Chosen(districtId) ==> Chosen(zoneId)
      ensures Chosen(zoneId) ==> Chosen(cityId)
    {
    }

    /** Mounting: the initial values, then the reset effects run once. */
    constructor (city: Option<string>, zone: Option<string>, district: Option<string>)
      ensures Valid()
      ensures cityId == OrNull(city)
      ensures zoneId == (if Chosen(city) then OrNull(zone) else None)
      ensures districtId == (if Chosen(city) && Chosen(zone) then OrNull(district) else None)
    {
      cityId := OrNull(city);
      zoneId := OrNull(zone);
      districtId := OrNull(district);
      new;
      ResetEffects();
    }

    /** The two reset effects: a missing city clears zone and district, a
        missing zone clears the district. */
    method ResetEffects()
      modifies this
      ensures Valid()
      ensures cityId == old(cityId)
      ensures zoneId == (if Chosen(cityId) then old(zoneId) else None)
      ensures districtId == (if Chosen(cityId) && Chosen(old(zoneId)) then old(districtId) else None)
    {
      if !Chosen(cityId) {
        zoneId := None;
        districtId := None;
      }
      if !Chosen(zoneId) {
        districtId := None;
      }
    }

    /** `handleCityChange`: a new city clears zone and district. */
    method HandleCityChange(city: string)
      modifies this
      ensures cityId == Some(city) && zoneId.None? && districtId.None?
      ensures Valid()
    {
      cityId := Some(city);
      zoneId := None;
      districtId := None;
    }

    /** `handleZoneChange`: a new zone clears the district and keeps the
        city; it keeps the selection consistent when a city is chosen, as
        the enabled zone picker guarantees. */
    method HandleZoneChange(zone: string)
      modifies this
      ensures cityId == old(cityId) && zoneId == Some(zone) && districtId.None?
      ensures Chosen(cityId) ==> Valid()
    {
      zoneId := Some(zone);
      districtId := None;
    }

    /** `handleDistrictChange`: only the district changes; it keeps the
        selection consistent when a zone is chosen. */
    method HandleDistrictChange(district: string)
      modifies this
      ensures cityId == old(cityId) && zoneId == old(zoneId) && districtId == Some(district)
      ensures old(Valid()) && Chosen(zoneId) ==> Valid()
    {
      districtId := Some(district);
    }
  }
}
