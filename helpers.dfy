/** The filter-value maps shared by the read tools: the lower-case values of
    the status and type filter enums to the GAQL enum literals. */
module Helpers {
  import opened Wrappers
  import opened Text
  import opened Common

  /** `safe_str`: an absent value is the empty string. */
  function SafeStr(o: Option<string>): (r: string)
    ensures o.Some? ==> r == o.value
    ensures o.None? ==> r == ""
  {
    o.GetOr("")
  }

  /** The GAQL literal a map gives a filter value; a value the map does not
      hold has none. */
  function Literal(m: map<string, string>, k: string): (r: string)
    ensures k in m ==> r == m[k]
  {
    if k in m then m[k] else ""
  }

  const CampaignStatusMap: map<string, string> := map[
    "enabled" := "ENABLED", "paused" := "PAUSED", "removed" := "REMOVED"]

  const AdGroupStatusMap: map<string, string> := map[
    "enabled" := "ENABLED", "paused" := "PAUSED", "removed" := "REMOVED"]

  const CampaignTypeMap: map<string, string> := map[
    "search" := "SEARCH", "display" := "DISPLAY", "shopping" := "SHOPPING",
    "video" := "VIDEO", "performance_max" := "PERFORMANCE_MAX",
    "demand_gen" := "DEMAND_GEN", "app" := "APP", "smart" := "SMART",
    "hotel" := "HOTEL", "local" := "LOCAL", "local_services" := "LOCAL_SERVICES",
    "travel" := "TRAVEL"]

  /** Every campaign-status filter value other than "all" has a GAQL literal,
      and "all" has none. */
  lemma CampaignStatusCovered()
    ensures CampaignStatusMap.Keys == CampaignStatusFilterValues - {"all"}
    ensures forall v :: v in CampaignStatusMap ==> CampaignStatusMap[v] == Upper(v)
  {
    assert Upper("enabled") == "ENABLED";
    assert Upper("paused") == "PAUSED";
    assert Upper("removed") == "REMOVED";
  }

  /** Every ad-group-status filter value other than "all" has a GAQL literal,
      and "all" has none. */
  lemma AdGroupStatusCovered()
    ensures AdGroupStatusMap.Keys == AdGroupStatusFilterValues - {"all"}
    ensures forall v :: v in AdGroupStatusMap ==> AdGroupStatusMap[v] == Upper(v)
  {
    assert Upper("enabled") == "ENABLED";
    assert Upper("paused") == "PAUSED";
    assert Upper("removed") == "REMOVED";
  }

  /** Every campaign-type filter value other than "all" has a GAQL literal. */
  lemma CampaignTypeCovered()
    ensures CampaignTypeMap.Keys == CampaignTypeFilterValues - {"all"}
  {
  }
}
