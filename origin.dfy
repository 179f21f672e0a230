/** The origin gate of src/middleware/ipCheck.js: may this request submit? */
module Origin {
  import opened Wrappers
  import opened JsString

  const Production := "production"
  const Development := "development"
  /** The only country code accepted in production. */
  const AllowedCountry := "US"

  /** `checkIpLocation`: `nodeEnv` is `NODE_ENV` and `country` the
      `cf-ipcountry` header set by the edge proxy. Outside production every
      request is eligible; in production a missing or empty header fails
      closed and otherwise only the exact, case-sensitive code "US" passes. */
  function CheckIpLocation(nodeEnv: Option<string>, country: Option<string>): (eligible: bool)
    ensures eligible <==> nodeEnv != Some(Production) || country == Some(AllowedCountry)
    ensures nodeEnv == Some(Production) && !Truthy(country) ==> !eligible
  {
    if nodeEnv == Some(Development) || nodeEnv != Some(Production) then
      true
    else if !Truthy(country) then
      false
    else
      country.value == AllowedCountry
  }
}
