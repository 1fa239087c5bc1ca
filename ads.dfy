/** The ad read tool: the list-ads GAQL builder, whose status is a plain
    string looked up in the ad-group status map, and the ad row parser. */
module Ads {
  import opened Wrappers
  import opened Text
  import opened Common
  import opened QueryAssembly
  import opened Helpers
  import Operations

  const ListBase := "SELECT ad_group_ad.ad.id, ad_group_ad.ad.name, ad_group_ad.ad.type, "
    + "ad_group_ad.status, ad_group_ad.policy_summary.approval_status, "
    + "ad_group_ad.policy_summary.review_status, ad_group.id, ad_group.name, campaign.name, "
    + "metrics.impressions, metrics.clicks, metrics.cost_micros, metrics.conversions, metrics.ctr "
    + "FROM ad_group_ad"
  const ImpressionsOrder := " ORDER BY metrics.impressions DESC"
  const StatusMapName := "AD_GROUP_STATUS_MAP"

  const AdTypePrefix := "AdType."
  const AdStatusPrefix := "AdGroupAdStatus."

  /** The list query: the date range first, then the campaign and the ad
      group for truthy ids, then the status unless "all", ordered by
      impressions. A status other than "all" that the map does not hold
      fails the lookup; the filter-enum values never do. */
  method ListAdsQuery(start: string, end: string, campaignId: Option<string>,
                      adGroupId: Option<string>, status: string)
    returns (r: Result<string, Operations.BuildError>)
    ensures r.Err? <==> status != "all" && status !in AdGroupStatusMap
    ensures r.Err? ==> r.error == Operations.LookupFailure(StatusMapName, status)
    ensures r.Ok? ==>
      r.value == ListBase + WhereKeyword + (DateClause(start, end)
        + AndOpt(Truthy(campaignId), IdClause("campaign.id", campaignId.GetOr("")))
        + AndOpt(Truthy(adGroupId), IdClause("ad_group.id", adGroupId.GetOr("")))
        + AndOpt(status != "all", QuotedClause("ad_group_ad.status", Literal(AdGroupStatusMap, status))))
        + ImpressionsOrder
    ensures status in AdGroupStatusFilterValues ==> r.Ok?
  {
    AdGroupStatusCovered();
    var query := ListBase;
    var where: seq<string> := [DateClause(start, end)];
    var campaignClause := IdClause("campaign.id", campaignId.GetOr(""));
    JoinSnoc(where, Truthy(campaignId), campaignClause);
    if Truthy(campaignId) {
      where := where + [campaignClause];
    }
    var adGroupClause := IdClause("ad_group.id", adGroupId.GetOr(""));
    JoinSnoc(where, Truthy(adGroupId), adGroupClause);
    if Truthy(adGroupId) {
      where := where + [adGroupClause];
    }
    var statusClause := QuotedClause("ad_group_ad.status", Literal(AdGroupStatusMap, status));
    JoinSnoc(where, status != "all", statusClause);
    if status != "all" {
      var gaqlStatus := Operations.Lookup(AdGroupStatusMap, StatusMapName, status);
      if gaqlStatus.Err? {
        return Err(gaqlStatus.error);
      }
      assert QuotedClause("ad_group_ad.status", gaqlStatus.value) == statusClause;
      where := where + [QuotedClause("ad_group_ad.status", gaqlStatus.value)];
    }
    assert Join(AndKeyword, where) == DateClause(start, end) + AndOpt(Truthy(campaignId), campaignClause)
      + AndOpt(Truthy(adGroupId), adGroupClause) + AndOpt(status != "all", statusClause);
    query := query + WhereKeyword + Join(AndKeyword, where);
    query := query + ImpressionsOrder;
    return Ok(query);
  }

  /** An ad as the API returns it; absent fields are None. */
  datatype AdResult = AdResult(
    adId: Option<string>, adName: Option<string>, adType: Option<string>, status: Option<string>,
    approvalStatus: Option<string>, reviewStatus: Option<string>,
    adGroupId: Option<string>, adGroupName: Option<string>, campaignName: Option<string>)

  datatype AdRow = AdRow(
    adId: string, adName: string, adType: string, status: string,
    approvalStatus: string, reviewStatus: string,
    adGroupId: string, adGroupName: string, campaignName: string)

  /** The display row of an ad: every field through `safe_str`, with the
      ad-type and ad-status enum prefixes deleted. */
  function ParseAdRow(a: AdResult): AdRow {
    AdRow(SafeStr(a.adId), SafeStr(a.adName),
      RemoveAll(SafeStr(a.adType), AdTypePrefix),
      RemoveAll(SafeStr(a.status), AdStatusPrefix),
      SafeStr(a.approvalStatus), SafeStr(a.reviewStatus),
      SafeStr(a.adGroupId), SafeStr(a.adGroupName), SafeStr(a.campaignName))
  }

  /** Enum values written "Enum.MEMBER" are shown as their member names. */
  lemma AdRowEnums(a: AdResult, adType: string, status: string)
    requires a.adType == Some(AdTypePrefix + adType) && !Contains(adType, AdTypePrefix)
    requires a.status == Some(AdStatusPrefix + status) && !Contains(status, AdStatusPrefix)
    ensures ParseAdRow(a).adType == adType
    ensures ParseAdRow(a).status == status
  {
    StripEnumPrefix(AdTypePrefix, adType);
    StripEnumPrefix(AdStatusPrefix, status);
  }
}
