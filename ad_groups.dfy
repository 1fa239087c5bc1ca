/** The ad-group read tools: the list and performance GAQL builders and the
    ad-group row parser. */
module AdGroups {
  import opened Wrappers
  import opened Text
  import opened Common
  import opened QueryAssembly
  import opened Helpers

  const ListBase := "SELECT ad_group.id, ad_group.name, ad_group.status, "
    + "ad_group.type, campaign.id, campaign.name FROM ad_group"
  const ListOrder := " ORDER BY ad_group.name"

  const PerformanceBase := "SELECT ad_group.id, ad_group.name, ad_group.status, campaign.name, "
    + "metrics.impressions, metrics.clicks, metrics.cost_micros, metrics.conversions, "
    + "metrics.ctr, metrics.average_cpc, metrics.conversions_from_interactions_rate "
    + "FROM ad_group"
  const CostOrder := " ORDER BY metrics.cost_micros DESC"

  const AdGroupStatusPrefix := "AdGroupStatus."
  const AdGroupTypePrefix := "AdGroupType."

  /** The list query: the campaign clause for a truthy id before the status
      clause unless "all", WHERE only when one is present, and always
      ordered by name. The status is an enum member, so every value but
      "all" has its GAQL literal. */
  method ListAdGroupsQuery(campaignId: Option<string>, status: string) returns (query: string)
    requires status in AdGroupStatusFilterValues
    ensures var c := IdClause("campaign.id", campaignId.GetOr(""));
      var s := QuotedClause("ad_group.status", Literal(AdGroupStatusMap, status));
      && (Truthy(campaignId) && status != "all" ==> query == ListBase + WhereKeyword + c + AndKeyword + s + ListOrder)
      && (Truthy(campaignId) && status == "all" ==> query == ListBase + WhereKeyword + c + ListOrder)
      && (!Truthy(campaignId) && status != "all" ==> query == ListBase + WhereKeyword + s + ListOrder)
      && (!Truthy(campaignId) && status == "all" ==> query == ListBase + ListOrder)
    ensures status != "all" ==> Literal(AdGroupStatusMap, status) == Upper(status)
  {
    AdGroupStatusCovered();
    query := ListBase;
    var where: seq<string> := [];
    if Truthy(campaignId) {
      where := where + [IdClause("campaign.id", campaignId.value)];
    }
    if status != "all" {
      var gaqlStatus := AdGroupStatusMap[status];
      where := where + [QuotedClause("ad_group.status", gaqlStatus)];
    }
    if where != [] {
      query := query + WhereKeyword + Join(AndKeyword, where);
    }
    query := query + ListOrder;
  }

  /** The performance query: the date range first, then the campaign and
      the ad group for truthy ids, then the status unless "all", ordered
      by cost. */
  method AdGroupPerformanceQuery(start: string, end: string, campaignId: Option<string>,
                                 adGroupId: Option<string>, status: string)
    returns (query: string)
    requires status in AdGroupStatusFilterValues
    ensures query == PerformanceBase + WhereKeyword + (DateClause(start, end)
      + AndOpt(Truthy(campaignId), IdClause("campaign.id", campaignId.GetOr("")))
      + AndOpt(Truthy(adGroupId), IdClause("ad_group.id", adGroupId.GetOr("")))
      + AndOpt(status != "all", QuotedClause("ad_group.status", Literal(AdGroupStatusMap, status))))
      + CostOrder
  {
    AdGroupStatusCovered();
    query := PerformanceBase;
    var where: seq<string> := [DateClause(start, end)];
    var campaignClause := IdClause("campaign.id", campaignId.GetOr(""));
    JoinSnoc(where, Truthy(campaignId), campaignClause);
    if Truthy(campaignId) {
      where := where + [campaignClause];
    }
    var adGroupClause := IdClause("ad_group.id", adGroupId.GetOr(""));
    JoinSnoc(where, Truthy(adGroupId), adGroupClause);
    if Truthy(adGroupId) {
      where := where + [adGroupClause];
    }
    var statusClause := QuotedClause("ad_group.status", Literal(AdGroupStatusMap, status));
    JoinSnoc(where, status != "all", statusClause);
    if status != "all" {
      var gaqlStatus := AdGroupStatusMap[status];
      assert QuotedClause("ad_group.status", gaqlStatus) == statusClause;
      where := where + [QuotedClause("ad_group.status", gaqlStatus)];
    }
    assert Join(AndKeyword, where) == DateClause(start, end) + AndOpt(Truthy(campaignId), campaignClause)
      + AndOpt(Truthy(adGroupId), adGroupClause) + AndOpt(status != "all", statusClause);
    query := query + WhereKeyword + Join(AndKeyword, where);
    query := query + CostOrder;
  }

  /** An ad group as the API returns it; absent fields are None. */
  datatype AdGroupResult = AdGroupResult(
    id: Option<string>, name: Option<string>, status: Option<string>,
    adGroupType: Option<string>, campaignId: Option<string>, campaignName: Option<string>)

  datatype AdGroupRow = AdGroupRow(
    id: string, name: string, status: string, adGroupType: string,
    campaignId: string, campaignName: string)

  /** The display row of an ad group: every field through `safe_str`, with
      the status and type enum prefixes deleted. */
  function ParseAdGroupRow(g: AdGroupResult): AdGroupRow {
    AdGroupRow(SafeStr(g.id), SafeStr(g.name),
      RemoveAll(SafeStr(g.status), AdGroupStatusPrefix),
      RemoveAll(SafeStr(g.adGroupType), AdGroupTypePrefix),
      SafeStr(g.campaignId), SafeStr(g.campaignName))
  }

  /** Enum values written "Enum.MEMBER" are shown as their member names. */
  lemma AdGroupRowEnums(g: AdGroupResult, status: string, adGroupType: string)
    requires g.status == Some(AdGroupStatusPrefix + status) && !Contains(status, AdGroupStatusPrefix)
    requires g.adGroupType == Some(AdGroupTypePrefix + adGroupType) && !Contains(adGroupType, AdGroupTypePrefix)
    ensures ParseAdGroupRow(g).status == status
    ensures ParseAdGroupRow(g).adGroupType == adGroupType
  {
    StripEnumPrefix(AdGroupStatusPrefix, status);
    StripEnumPrefix(AdGroupTypePrefix, adGroupType);
  }
}
