/** The budget and bidding read tools: the campaign-budget, bidding-strategy,
    ad-group bidding and change-history GAQL builders, and the
    bidding-strategy row parser. */
module Budgets {
  import opened Wrappers
  import opened Text
  import opened QueryAssembly
  import opened Helpers

  /** The list-budgets query: a fixed text with no filter and no order. */
  const ListBudgetsQuery := "SELECT campaign_budget.id, campaign_budget.name, "
    + "campaign_budget.amount_micros, campaign_budget.delivery_method, "
    + "campaign_budget.status, campaign_budget.type, campaign_budget.explicitly_shared, "
    + "campaign_budget.total_amount_micros, campaign_budget.recommended_budget_amount_micros "
    + "FROM campaign_budget"

  const BiddingSelect := "SELECT campaign.id, campaign.name, campaign.bidding_strategy_type, "
    + "campaign.bidding_strategy, campaign.target_cpa.target_cpa_micros, "
    + "campaign.maximize_conversions.target_cpa_micros, campaign.target_roas.target_roas, "
    + "campaign.maximize_conversion_value.target_roas FROM campaign "
  const CampaignNotRemoved := "WHERE campaign.status != 'REMOVED'"
  const BiddingOrder := " ORDER BY campaign.name"

  const AdGroupBiddingSelect := "SELECT ad_group.id, ad_group.name, ad_group.cpc_bid_micros, "
    + "ad_group.target_cpa_micros, ad_group.effective_target_cpa_micros, "
    + "ad_group.effective_target_roas FROM ad_group "
  const AdGroupNotRemoved := "WHERE ad_group.status != 'REMOVED'"
  const AdGroupBiddingOrder := " ORDER BY ad_group.name"

  const ChangeHistoryBase := "SELECT change_status.resource_name, change_status.resource_type, "
    + "change_status.resource_status, change_status.last_change_date_time FROM change_status"
  const ChangeHistoryOrder := " ORDER BY change_status.last_change_date_time DESC"

  const BiddingStrategyTypePrefix := "BiddingStrategyType."
  const NoTarget := "-"

  /** The campaign bidding query: never removed campaigns, optionally one
      campaign, ordered by name. */
  method BiddingStrategiesQuery(campaignId: Option<string>) returns (query: string)
    ensures Truthy(campaignId) ==>
      query == BiddingSelect + CampaignNotRemoved + AndKeyword + IdClause("campaign.id", campaignId.value) + BiddingOrder
    ensures !Truthy(campaignId) ==> query == BiddingSelect + CampaignNotRemoved + BiddingOrder
    ensures StartsWith(query, BiddingSelect + CampaignNotRemoved) && EndsWith(query, BiddingOrder)
  {
    query := BiddingSelect + CampaignNotRemoved;
    if Truthy(campaignId) {
      query := query + AndKeyword + IdClause("campaign.id", campaignId.value);
    }
    ghost var filtered := query;
    query := query + BiddingOrder;
    assert query[..|filtered|] == filtered && query[|filtered|..] == BiddingOrder;
  }

  /** The ad-group bidding query: never removed ad groups, optionally one
      campaign, ordered by ad-group name. */
  method AdGroupBiddingQuery(campaignId: Option<string>) returns (query: string)
    ensures Truthy(campaignId) ==>
      query == AdGroupBiddingSelect + AdGroupNotRemoved + AndKeyword + IdClause("campaign.id", campaignId.value)
        + AdGroupBiddingOrder
    ensures !Truthy(campaignId) ==> query == AdGroupBiddingSelect + AdGroupNotRemoved + AdGroupBiddingOrder
    ensures StartsWith(query, AdGroupBiddingSelect + AdGroupNotRemoved) && EndsWith(query, AdGroupBiddingOrder)
  {
    query := AdGroupBiddingSelect + AdGroupNotRemoved;
    if Truthy(campaignId) {
      query := query + AndKeyword + IdClause("campaign.id", campaignId.value);
    }
    ghost var filtered := query;
    query := query + AdGroupBiddingOrder;
    assert query[..|filtered|] == filtered && query[|filtered|..] == AdGroupBiddingOrder;
  }

  /** The change-history query: WHERE only for a truthy resource type,
      which is single-quoted, and newest changes first. */
  method ChangeHistoryQuery(resourceType: Option<string>) returns (query: string)
    ensures Truthy(resourceType) ==>
      query == ChangeHistoryBase + WhereKeyword
        + QuotedClause("change_status.resource_type", resourceType.value) + ChangeHistoryOrder
    ensures !Truthy(resourceType) ==> query == ChangeHistoryBase + ChangeHistoryOrder
  {
    query := ChangeHistoryBase;
    var where: seq<string> := [];
    if Truthy(resourceType) {
      where := where + [QuotedClause("change_status.resource_type", resourceType.value)];
    }
    if where != [] {
      query := query + WhereKeyword + Join(AndKeyword, where);
    }
    query := query + ChangeHistoryOrder;
  }

  /** A campaign's bidding fields as the API returns them; the CPA targets
      are already `safe_int(... or 0)`. */
  datatype BiddingResult = BiddingResult(
    id: Option<string>, name: Option<string>, strategyType: Option<string>,
    strategy: Option<string>, targetCpaMicros: int, maxConversionsCpaMicros: int)

  datatype BiddingRow = BiddingRow(
    id: string, name: string, strategyType: string, strategy: string, targetCpa: string)

  /** Python's `target_cpa_micros or max_conv_cpa_micros`. */
  function EffectiveCpa(targetCpaMicros: int, maxConversionsCpaMicros: int): (m: int)
    ensures targetCpaMicros != 0 ==> m == targetCpaMicros
    ensures targetCpaMicros == 0 ==> m == maxConversionsCpaMicros
  {
    if targetCpaMicros != 0 then targetCpaMicros else maxConversionsCpaMicros
  }

  /** The display row of a campaign's bidding strategy; `currency` is the
      micros-to-currency formatter. */
  function ParseBiddingStrategyRow(c: BiddingResult, currency: int -> string): BiddingRow {
    var effective := EffectiveCpa(c.targetCpaMicros, c.maxConversionsCpaMicros);
    BiddingRow(SafeStr(c.id), SafeStr(c.name), RemoveAll(SafeStr(c.strategyType), BiddingStrategyTypePrefix),
      SafeStr(c.strategy), if effective != 0 then currency(effective) else NoTarget)
  }

  /** The target CPA shown is "-" exactly when neither CPA target is set
      (given a formatter that never yields "-" itself), and otherwise the
      target CPA wins over the maximize-conversions one. */
  lemma BiddingTargetCpa(c: BiddingResult, currency: int -> string)
    requires forall m :: currency(m) != NoTarget
    ensures ParseBiddingStrategyRow(c, currency).targetCpa == NoTarget
      <==> c.targetCpaMicros == 0 && c.maxConversionsCpaMicros == 0
    ensures c.targetCpaMicros != 0 ==>
      ParseBiddingStrategyRow(c, currency).targetCpa == currency(c.targetCpaMicros)
    ensures c.targetCpaMicros == 0 && c.maxConversionsCpaMicros != 0 ==>
      ParseBiddingStrategyRow(c, currency).targetCpa == currency(c.maxConversionsCpaMicros)
  {
    var effective := EffectiveCpa(c.targetCpaMicros, c.maxConversionsCpaMicros);
    if effective != 0 {
      assert ParseBiddingStrategyRow(c, currency).targetCpa == currency(effective);
    }
  }

  /** A strategy type written "BiddingStrategyType.MEMBER" is shown as MEMBER. */
  lemma BiddingStrategyTypeShown(c: BiddingResult, currency: int -> string, member: string)
    requires c.strategyType == Some(BiddingStrategyTypePrefix + member)
    requires !Contains(member, BiddingStrategyTypePrefix)
    ensures ParseBiddingStrategyRow(c, currency).strategyType == member
  {
    StripEnumPrefix(BiddingStrategyTypePrefix, member);
  }
}
