/** The keyword read tools: the list and performance GAQL builders and the
    keyword row parser. */
module Keywords {
  import opened Wrappers
  import opened Text
  import opened QueryAssembly
  import opened Helpers

  const ListBase := "SELECT ad_group_criterion.criterion_id, ad_group_criterion.keyword.text, "
    + "ad_group_criterion.keyword.match_type, ad_group_criterion.status, "
    + "ad_group.id, ad_group.name, campaign.id, campaign.name FROM keyword_view"
  const ListOrder := " ORDER BY ad_group_criterion.keyword.text"

  const PerformanceBase := "SELECT ad_group_criterion.criterion_id, ad_group_criterion.keyword.text, "
    + "ad_group_criterion.keyword.match_type, ad_group.name, campaign.name, "
    + "metrics.impressions, metrics.clicks, metrics.cost_micros, metrics.conversions, "
    + "metrics.ctr, metrics.average_cpc, metrics.conversions_from_interactions_rate "
    + "FROM keyword_view"
  const CostOrder := " ORDER BY metrics.cost_micros DESC"

  const MatchTypePrefix := "KeywordMatchType."
  const CriterionStatusPrefix := "AdGroupCriterionStatus."

  /** The list query: the campaign clause before the ad-group clause, each
      only for a truthy id, WHERE only when one is present, and always
      ordered by keyword text. */
  method ListKeywordsQuery(campaignId: Option<string>, adGroupId: Option<string>) returns (query: string)
    ensures var c := IdClause("campaign.id", campaignId.GetOr(""));
      var a := IdClause("ad_group.id", adGroupId.GetOr(""));
      && (Truthy(campaignId) && Truthy(adGroupId) ==> query == ListBase + WhereKeyword + c + AndKeyword + a + ListOrder)
      && (Truthy(campaignId) && !Truthy(adGroupId) ==> query == ListBase + WhereKeyword + c + ListOrder)
      && (!Truthy(campaignId) && Truthy(adGroupId) ==> query == ListBase + WhereKeyword + a + ListOrder)
      && (!Truthy(campaignId) && !Truthy(adGroupId) ==> query == ListBase + ListOrder)
  {
    query := ListBase;
    var where: seq<string> := [];
    if Truthy(campaignId) {
      where := where + [IdClause("campaign.id", campaignId.value)];
    }
    if Truthy(adGroupId) {
      where := where + [IdClause("ad_group.id", adGroupId.value)];
    }
    if where != [] {
      query := query + WhereKeyword + Join(AndKeyword, where);
    }
    query := query + ListOrder;
  }

  /** The performance query: the date range first, then the campaign and
      then the ad group for truthy ids, ordered by cost. */
  method KeywordPerformanceQuery(start: string, end: string, campaignId: Option<string>, adGroupId: Option<string>)
    returns (query: string)
    ensures query == PerformanceBase + WhereKeyword + (DateClause(start, end)
      + AndOpt(Truthy(campaignId), IdClause("campaign.id", campaignId.GetOr("")))
      + AndOpt(Truthy(adGroupId), IdClause("ad_group.id", adGroupId.GetOr(""))))
      + CostOrder
  {
    query := PerformanceBase;
    var where: seq<string> := [DateClause(start, end)];
    var campaignClause := IdClause("campaign.id", campaignId.GetOr(""));
    JoinSnoc(where, Truthy(campaignId), campaignClause);
    if Truthy(campaignId) {
      where := where + [campaignClause];
    }
    var adGroupClause := IdClause("ad_group.id", adGroupId.GetOr(""));
    JoinSnoc(where, Truthy(adGroupId), adGroupClause);
    if Truthy(adGroupId) {
      where := where + [adGroupClause];
    }
    assert Join(AndKeyword, where) == DateClause(start, end)
      + AndOpt(Truthy(campaignId), campaignClause) + AndOpt(Truthy(adGroupId), adGroupClause);
    query := query + WhereKeyword + Join(AndKeyword, where);
    query := query + CostOrder;
  }

  /** A keyword criterion as the API returns it; absent fields are None. */
  datatype KeywordResult = KeywordResult(
    criterionId: Option<string>, text: Option<string>, matchType: Option<string>,
    status: Option<string>, adGroupName: Option<string>, campaignName: Option<string>)

  datatype KeywordRow = KeywordRow(
    id: string, keyword: string, matchType: string, status: string, adGroup: string, campaign: string)

  /** The display row of a keyword: every field through `safe_str`, with
      the match-type and status enum prefixes deleted. */
  function ParseKeywordRow(k: KeywordResult): KeywordRow {
    KeywordRow(SafeStr(k.criterionId), SafeStr(k.text),
      RemoveAll(SafeStr(k.matchType), MatchTypePrefix),
      RemoveAll(SafeStr(k.status), CriterionStatusPrefix),
      SafeStr(k.adGroupName), SafeStr(k.campaignName))
  }

  /** Enum values written "Enum.MEMBER" are shown as their member names. */
  lemma KeywordRowEnums(k: KeywordResult, matchType: string, status: string)
    requires k.matchType == Some(MatchTypePrefix + matchType) && !Contains(matchType, MatchTypePrefix)
    requires k.status == Some(CriterionStatusPrefix + status) && !Contains(status, CriterionStatusPrefix)
    ensures ParseKeywordRow(k).matchType == matchType
    ensures ParseKeywordRow(k).status == status
  {
    StripEnumPrefix(MatchTypePrefix, matchType);
    StripEnumPrefix(CriterionStatusPrefix, status);
  }
}
