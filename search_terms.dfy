/** The search-terms report: its GAQL builder and row parser. */
module SearchTerms {
  import opened Wrappers
  import opened Text
  import opened QueryAssembly
  import opened Helpers

  const SearchTermsBase := "SELECT search_term_view.search_term, search_term_view.status, "
    + "campaign.name, ad_group.name, metrics.impressions, metrics.clicks, metrics.cost_micros, "
    + "metrics.conversions, metrics.ctr, metrics.average_cpc FROM search_term_view"
  const ImpressionsOrder := " ORDER BY metrics.impressions DESC"

  const TargetingStatusPrefix := "SearchTermTargetingStatus."

  /** The report query: one WHERE, the date range first, then the campaign
      and then the ad group for truthy ids, ordered by impressions. */
  method SearchTermsQuery(start: string, end: string, campaignId: Option<string>, adGroupId: Option<string>)
    returns (query: string)
    ensures query == SearchTermsBase + WhereKeyword + (DateClause(start, end)
      + AndOpt(Truthy(campaignId), IdClause("campaign.id", campaignId.GetOr("")))
      + AndOpt(Truthy(adGroupId), IdClause("ad_group.id", adGroupId.GetOr(""))))
      + ImpressionsOrder
  {
    query := SearchTermsBase;
    var where: seq<string> := [DateClause(start, end)];
    var campaignClause := IdClause("campaign.id", campaignId.GetOr(""));
    JoinSnoc(where, Truthy(campaignId), campaignClause);
    if Truthy(campaignId) {
      where := where + [campaignClause];
    }
    var adGroupClause := IdClause("ad_group.id", adGroupId.GetOr(""));
    JoinSnoc(where, Truthy(adGroupId), adGroupClause);
    if Truthy(adGroupId) {
      where := where + [adGroupClause];
    }
    assert Join(AndKeyword, where) == DateClause(start, end)
      + AndOpt(Truthy(campaignId), campaignClause) + AndOpt(Truthy(adGroupId), adGroupClause);
    query := query + WhereKeyword + Join(AndKeyword, where);
    query := query + ImpressionsOrder;
  }

  /** A search-term row as the API returns it; absent fields are None. */
  datatype SearchTermResult = SearchTermResult(
    searchTerm: Option<string>, status: Option<string>, campaignName: Option<string>, adGroupName: Option<string>)

  datatype SearchTermRow = SearchTermRow(
    searchTerm: string, status: string, campaign: string, adGroup: string)

  /** The display row of a search term: every field through `safe_str`,
      with the targeting-status enum prefix deleted. */
  function ParseSearchTermRow(t: SearchTermResult): SearchTermRow {
    SearchTermRow(SafeStr(t.searchTerm), RemoveAll(SafeStr(t.status), TargetingStatusPrefix),
      SafeStr(t.campaignName), SafeStr(t.adGroupName))
  }

  /** A status written "SearchTermTargetingStatus.MEMBER" is shown as MEMBER. */
  lemma SearchTermRowStatus(t: SearchTermResult, member: string)
    requires t.status == Some(TargetingStatusPrefix + member) && !Contains(member, TargetingStatusPrefix)
    ensures ParseSearchTermRow(t).status == member
  {
    StripEnumPrefix(TargetingStatusPrefix, member);
  }
}
