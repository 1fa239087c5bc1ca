/** The campaign read tools: the list and performance GAQL builders and the
    campaign row parser. */
module Campaigns {
  import opened Wrappers
  import opened Text
  import opened Common
  import opened QueryAssembly
  import opened Helpers

  const ListBase := "SELECT campaign.id, campaign.name, campaign.status, "
    + "campaign.advertising_channel_type, campaign.bidding_strategy_type, "
    + "campaign.campaign_budget FROM campaign"
  const ListOrder := " ORDER BY campaign.name"

  const PerformanceBase := "SELECT campaign.id, campaign.name, campaign.status, "
    + "metrics.impressions, metrics.clicks, metrics.cost_micros, metrics.conversions, "
    + "metrics.ctr, metrics.average_cpc, metrics.conversions_from_interactions_rate "
    + "FROM campaign"
  const CostOrder := " ORDER BY metrics.cost_micros DESC"

  const CampaignStatusPrefix := "CampaignStatus."
  const ChannelTypePrefix := "AdvertisingChannelType."
  const BiddingStrategyTypePrefix := "BiddingStrategyType."

  /** The list query: the status clause before the type clause, each left
      out when its filter is "all", WHERE only when one is present, and
      always ordered by name. The filters are enum members, so every value
      but "all" has its GAQL literal. */
  method ListCampaignsQuery(status: string, campaignType: string) returns (query: string)
    requires status in CampaignStatusFilterValues && campaignType in CampaignTypeFilterValues
    ensures var s := QuotedClause("campaign.status", Literal(CampaignStatusMap, status));
      var t := QuotedClause("campaign.advertising_channel_type", Literal(CampaignTypeMap, campaignType));
      && (status != "all" && campaignType != "all" ==> query == ListBase + WhereKeyword + s + AndKeyword + t + ListOrder)
      && (status != "all" && campaignType == "all" ==> query == ListBase + WhereKeyword + s + ListOrder)
      && (status == "all" && campaignType != "all" ==> query == ListBase + WhereKeyword + t + ListOrder)
      && (status == "all" && campaignType == "all" ==> query == ListBase + ListOrder)
  {
    CampaignStatusCovered();
    CampaignTypeCovered();
    query := ListBase;
    var where: seq<string> := [];
    if status != "all" {
      var gaqlStatus := CampaignStatusMap[status];
      where := where + [QuotedClause("campaign.status", gaqlStatus)];
    }
    if campaignType != "all" {
      var gaqlType := CampaignTypeMap[campaignType];
      where := where + [QuotedClause("campaign.advertising_channel_type", gaqlType)];
    }
    if where != [] {
      query := query + WhereKeyword + Join(AndKeyword, where);
    }
    query := query + ListOrder;
  }

  /** The GAQL literal of every status filter but "all" is its upper-case
      form. */
  lemma StatusLiteralIsUpper(status: string)
    requires status in CampaignStatusFilterValues && status != "all"
    ensures Literal(CampaignStatusMap, status) == Upper(status)
  {
    CampaignStatusCovered();
  }

  /** The performance query: the date range first, then the campaign when
      its id is truthy, then the status unless "all", ordered by cost. */
  method CampaignPerformanceQuery(start: string, end: string, campaignId: Option<string>, status: string)
    returns (query: string)
    requires status in CampaignStatusFilterValues
    ensures query == PerformanceBase + WhereKeyword + (DateClause(start, end)
      + AndOpt(Truthy(campaignId), IdClause("campaign.id", campaignId.GetOr("")))
      + AndOpt(status != "all", QuotedClause("campaign.status", Literal(CampaignStatusMap, status))))
      + CostOrder
  {
    CampaignStatusCovered();
    query := PerformanceBase;
    var where: seq<string> := [DateClause(start, end)];
    var campaignClause := IdClause("campaign.id", campaignId.GetOr(""));
    JoinSnoc(where, Truthy(campaignId), campaignClause);
    if Truthy(campaignId) {
      where := where + [campaignClause];
    }
    var statusClause := QuotedClause("campaign.status", Literal(CampaignStatusMap, status));
    JoinSnoc(where, status != "all", statusClause);
    if status != "all" {
      var gaqlStatus := CampaignStatusMap[status];
      assert QuotedClause("campaign.status", gaqlStatus) == statusClause;
      where := where + [QuotedClause("campaign.status", gaqlStatus)];
    }
    assert Join(AndKeyword, where) == DateClause(start, end)
      + AndOpt(Truthy(campaignId), campaignClause) + AndOpt(status != "all", statusClause);
    query := query + WhereKeyword + Join(AndKeyword, where);
    query := query + CostOrder;
  }

  /** A campaign as the API returns it; absent fields are None. */
  datatype CampaignResult = CampaignResult(
    id: Option<string>, name: Option<string>, status: Option<string>,
    channelType: Option<string>, biddingStrategyType: Option<string>, budget: Option<string>)

  datatype CampaignRow = CampaignRow(
    id: string, name: string, status: string, campaignType: string,
    biddingStrategy: string, budget: string)

  /** The display row of a campaign: every field through `safe_str`, with
      the three enum-name prefixes deleted. */
  function ParseCampaignRow(c: CampaignResult): CampaignRow {
    CampaignRow(SafeStr(c.id), SafeStr(c.name),
      RemoveAll(SafeStr(c.status), CampaignStatusPrefix),
      RemoveAll(SafeStr(c.channelType), ChannelTypePrefix),
      RemoveAll(SafeStr(c.biddingStrategyType), BiddingStrategyTypePrefix),
      SafeStr(c.budget))
  }

  /** Enum values written "Enum.MEMBER" are shown as their member names. */
  lemma CampaignRowEnums(c: CampaignResult, status: string, channel: string, bidding: string)
    requires c.status == Some(CampaignStatusPrefix + status) && !Contains(status, CampaignStatusPrefix)
    requires c.channelType == Some(ChannelTypePrefix + channel) && !Contains(channel, ChannelTypePrefix)
    requires c.biddingStrategyType == Some(BiddingStrategyTypePrefix + bidding)
    requires !Contains(bidding, BiddingStrategyTypePrefix)
    ensures ParseCampaignRow(c).status == status
    ensures ParseCampaignRow(c).campaignType == channel
    ensures ParseCampaignRow(c).biddingStrategy == bidding
  {
    StripEnumPrefix(CampaignStatusPrefix, status);
    StripEnumPrefix(ChannelTypePrefix, channel);
    StripEnumPrefix(BiddingStrategyTypePrefix, bidding);
  }
}
