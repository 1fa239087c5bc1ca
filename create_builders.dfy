/** The builders of campaign and ad-group `CREATE` operations. */
module CreateBuilders {
  import opened Wrappers
  import opened Operations
  import opened UpdateBuilders

  /** The temporary name the budget is created under, which the campaign in
      the same batch refers to. */
  function TempBudgetName(customerId: string): string {
    ResourceName(customerId, "campaignBudgets", "-1")
  }

  /** The fields of a new campaign besides its bidding sub-object. */
  const CampaignBaseFields: set<string> :=
    {"name", "advertising_channel_type", "status", "campaign_budget", "start_date", "end_date"}

  /** The budget create that comes first in the batch. */
  ghost predicate IsTempBudget(op: MutateOperation, customerId: string, name: string, budgetAmountMicros: int) {
    op == Create(CampaignBudget, map[
      "name" := Str(name + " Budget"),
      "amount_micros" := Int(budgetAmountMicros),
      "delivery_method" := Int(BudgetDeliveryStandard),
      "resource_name" := Str(TempBudgetName(customerId))])
  }

  /** The campaign create that comes second: paused, pointing at the
      temporary budget, with only the chosen bidding sub-object written and
      the dates present exactly when given. */
  ghost predicate IsNewCampaign(op: MutateOperation, customerId: string, name: string, channelType: int,
                                 strategyField: string, biddingStrategyType: string,
                                 startDate: Option<string>, endDate: Option<string>,
                                 targetCpaMicros: Option<int>, targetRoas: Option<real>)
  {
    && op.Create? && op.resource == Campaign
    && "name" in op.payload && op.payload["name"] == Str(name)
    && "advertising_channel_type" in op.payload && op.payload["advertising_channel_type"] == Int(channelType)
    && "status" in op.payload && op.payload["status"] == Int(StatusToEnum["pause"])
    && "campaign_budget" in op.payload && op.payload["campaign_budget"] == Str(TempBudgetName(customerId))
    && ("start_date" in op.payload <==> startDate.Some?)
    && (startDate.Some? ==> op.payload["start_date"] == Str(startDate.value))
    && ("end_date" in op.payload <==> endDate.Some?)
    && (endDate.Some? ==> op.payload["end_date"] == Str(endDate.value))
    && BiddingFieldsWritten(op.payload, CampaignBaseFields, strategyField, biddingStrategyType,
                            targetCpaMicros, targetRoas)
  }

  /** Exactly two creates: the budget at the `-1` placeholder first, then the
      paused campaign whose budget reference is that same placeholder. The
      channel type is looked up before the bidding strategy. */
  method BuildCreateCampaignOperations(customerId: string, name: string, campaignType: string,
                                       biddingStrategyType: string, budgetAmountMicros: int,
                                       startDate: Option<string> := None, endDate: Option<string> := None,
                                       targetCpaMicros: Option<int> := None, targetRoas: Option<real> := None)
    returns (r: Result<seq<MutateOperation>, BuildError>)
    ensures r.Ok? <==> campaignType in CampaignTypeToEnum && biddingStrategyType in BiddingStrategyMap
    ensures campaignType !in CampaignTypeToEnum ==>
      r == Err(LookupFailure("CAMPAIGN_TYPE_TO_ENUM", campaignType))
    ensures campaignType in CampaignTypeToEnum && biddingStrategyType !in BiddingStrategyMap ==>
      r == Err(LookupFailure("BIDDING_STRATEGY_MAP", biddingStrategyType))
    ensures r.Ok? ==>
      && |r.value| == 2
      && IsTempBudget(r.value[0], customerId, name, budgetAmountMicros)
      && IsNewCampaign(r.value[1], customerId, name, CampaignTypeToEnum[campaignType],
                       BiddingStrategyMap[biddingStrategyType], biddingStrategyType,
                       startDate, endDate, targetCpaMicros, targetRoas)
      && r.value[1].payload["campaign_budget"] == r.value[0].payload["resource_name"]
  {
    var ops: seq<MutateOperation> := [];
    var budget := NewTempBudget(customerId, name, budgetAmountMicros);
    ops := ops + [budget];
    var channel :- Lookup(CampaignTypeToEnum, "CAMPAIGN_TYPE_TO_ENUM", campaignType);
    var strategyField :- Lookup(BiddingStrategyMap, "BIDDING_STRATEGY_MAP", biddingStrategyType);
    var campaign := NewCampaign(customerId, name, channel, strategyField, biddingStrategyType,
                                startDate, endDate, targetCpaMicros, targetRoas);
    CampaignPayloadFields(customerId, name, channel, strategyField, biddingStrategyType,
                          startDate, endDate, targetCpaMicros, targetRoas);
    ops := ops + [campaign];
    r := Ok(ops);
  }

  /** The budget half of the batch. */
  method NewTempBudget(customerId: string, name: string, budgetAmountMicros: int) returns (op: MutateOperation)
    ensures IsTempBudget(op, customerId, name, budgetAmountMicros)
  {
    var budget: Message := map[];
    budget := budget["name" := Str(name + " Budget")];
    budget := budget["amount_micros" := Int(budgetAmountMicros)];
    budget := budget["delivery_method" := Int(BudgetDeliveryStandard)];
    budget := budget["resource_name" := Str(TempBudgetName(customerId))];
    op := Create(CampaignBudget, budget);
  }

  /** The campaign payload: name, channel type, paused status and the
      temporary budget, then the chosen target, then the dates when given. */
  function CampaignPayload(customerId: string, name: string, channel: int, strategyField: string,
                           biddingStrategyType: string, startDate: Option<string>, endDate: Option<string>,
                           targetCpaMicros: Option<int>, targetRoas: Option<real>): Message
  {
    var campaign: Message := map[
      "name" := Str(name),
      "advertising_channel_type" := Int(channel),
      "status" := Int(StatusToEnum["pause"]),
      "campaign_budget" := Str(TempBudgetName(customerId))];
    var campaign :=
      if biddingStrategyType == "TARGET_CPA" && targetCpaMicros.Some? then
        campaign[strategyField + ".target_cpa_micros" := Int(targetCpaMicros.value)]
      else if biddingStrategyType == "TARGET_ROAS" && targetRoas.Some? then
        campaign[strategyField + ".target_roas" := Real(targetRoas.value)]
      else campaign;
    var campaign := if startDate.Some? then campaign["start_date" := Str(startDate.value)] else campaign;
    if endDate.Some? then campaign["end_date" := Str(endDate.value)] else campaign
  }

  /** The campaign create is paused, points at the temporary budget, writes
      only the chosen bidding target and holds the dates exactly when given. */
  lemma CampaignPayloadFields(customerId: string, name: string, channel: int, strategyField: string,
                              biddingStrategyType: string, startDate: Option<string>, endDate: Option<string>,
                              targetCpaMicros: Option<int>, targetRoas: Option<real>)
    ensures IsNewCampaign(Create(Campaign, CampaignPayload(customerId, name, channel, strategyField,
                            biddingStrategyType, startDate, endDate, targetCpaMicros, targetRoas)),
                          customerId, name, channel, strategyField, biddingStrategyType,
                          startDate, endDate, targetCpaMicros, targetRoas)
  {
    CampaignPayloadBase(customerId, name, channel, strategyField, biddingStrategyType,
                        startDate, endDate, targetCpaMicros, targetRoas);
    CampaignPayloadBidding(customerId, name, channel, strategyField, biddingStrategyType,
                           startDate, endDate, targetCpaMicros, targetRoas);
  }

  lemma CampaignPayloadBase(customerId: string, name: string, channel: int, strategyField: string,
                            biddingStrategyType: string, startDate: Option<string>, endDate: Option<string>,
                            targetCpaMicros: Option<int>, targetRoas: Option<real>)
    ensures var m := CampaignPayload(customerId, name, channel, strategyField, biddingStrategyType,
                                     startDate, endDate, targetCpaMicros, targetRoas);
      && "name" in m && m["name"] == Str(name)
      && "advertising_channel_type" in m && m["advertising_channel_type"] == Int(channel)
      && "status" in m && m["status"] == Int(StatusToEnum["pause"])
      && "campaign_budget" in m && m["campaign_budget"] == Str(TempBudgetName(customerId))
      && ("start_date" in m <==> startDate.Some?)
      && (startDate.Some? ==> m["start_date"] == Str(startDate.value))
      && ("end_date" in m <==> endDate.Some?)
      && (endDate.Some? ==> m["end_date"] == Str(endDate.value))
  {
    BiddingPathsAreNotBase(strategyField);
  }

  lemma CampaignPayloadBidding(customerId: string, name: string, channel: int, strategyField: string,
                               biddingStrategyType: string, startDate: Option<string>, endDate: Option<string>,
                               targetCpaMicros: Option<int>, targetRoas: Option<real>)
    ensures BiddingFieldsWritten(CampaignPayload(customerId, name, channel, strategyField, biddingStrategyType,
                                                 startDate, endDate, targetCpaMicros, targetRoas),
                                 CampaignBaseFields, strategyField, biddingStrategyType, targetCpaMicros, targetRoas)
  {
    BiddingPathsAreNotBase(strategyField);
    DottedNotPlain(strategyField, "start_date");
    DottedNotPlain(strategyField, "end_date");
  }

  /** The campaign half of the batch, once both enum lookups succeeded. */
  method NewCampaign(customerId: string, name: string, channel: int, strategyField: string,
                     biddingStrategyType: string, startDate: Option<string>, endDate: Option<string>,
                     targetCpaMicros: Option<int>, targetRoas: Option<real>)
    returns (op: MutateOperation)
    ensures op == Create(Campaign, CampaignPayload(customerId, name, channel, strategyField, biddingStrategyType,
                                                   startDate, endDate, targetCpaMicros, targetRoas))
  {
    var campaign: Message := map["name" := Str(name)];
    campaign := campaign["advertising_channel_type" := Int(channel)];
    campaign := campaign["status" := Int(StatusToEnum["pause"])];
    campaign := campaign["campaign_budget" := Str(TempBudgetName(customerId))];
    if biddingStrategyType == "TARGET_CPA" && targetCpaMicros.Some? {
      campaign := campaign[strategyField + ".target_cpa_micros" := Int(targetCpaMicros.value)];
    } else if biddingStrategyType == "TARGET_ROAS" && targetRoas.Some? {
      campaign := campaign[strategyField + ".target_roas" := Real(targetRoas.value)];
    }
    if startDate.Some? {
      campaign := campaign["start_date" := Str(startDate.value)];
    }
    if endDate.Some? {
      campaign := campaign["end_date" := Str(endDate.value)];
    }
    op := Create(Campaign, campaign);
  }

  /** A bidding sub-field path always contains a '.', which no base field does. */
  lemma BiddingPathsAreNotBase(field: string)
    ensures field + ".target_cpa_micros" !in CampaignBaseFields
    ensures field + ".target_roas" !in CampaignBaseFields
  {
    assert (field + ".target_cpa_micros")[|field|] == '.';
    assert (field + ".target_roas")[|field|] == '.';
  }

  /** A key without a '.' is neither a bidding sub-field nor below one. */
  lemma DottedNotPlain(field: string, k: string)
    requires '.' !in k
    ensures !(field + "." <= k)
    ensures field + ".target_cpa_micros" != k && field + ".target_roas" != k
  {
    if |field| < |k| {
      assert k[|field|] in k;
    }
    assert (field + ".target_cpa_micros")[|field|] == '.';
    assert (field + ".target_roas")[|field|] == '.';
  }

  /** The ad group is created enabled under its campaign; the CPC bid only
      when given. */
  method BuildCreateAdGroupOperation(customerId: string, campaignId: string, name: string,
                                     adGroupType: string, cpcBidMicros: Option<int> := None)
    returns (r: Result<MutateOperation, BuildError>)
    ensures r.Ok? <==> adGroupType in AdGroupTypeToEnum
    ensures r.Err? ==> r.error == LookupFailure("AD_GROUP_TYPE_TO_ENUM", adGroupType)
    ensures r.Ok? ==>
      var base := map[
        "name" := Str(name),
        "campaign" := Str(ResourceName(customerId, "campaigns", campaignId)),
        "type_" := Int(AdGroupTypeToEnum[adGroupType]),
        "status" := Int(StatusToEnum["enable"])];
      r.value == Create(AdGroup, if cpcBidMicros.Some? then base["cpc_bid_micros" := Int(cpcBidMicros.value)]
                                 else base)
  {
    var adGroup: Message := map[];
    adGroup := adGroup["name" := Str(name)];
    adGroup := adGroup["campaign" := Str(ResourceName(customerId, "campaigns", campaignId))];
    var groupType :- Lookup(AdGroupTypeToEnum, "AD_GROUP_TYPE_TO_ENUM", adGroupType);
    adGroup := adGroup["type_" := Int(groupType)];
    adGroup := adGroup["status" := Int(StatusToEnum["enable"])];
    if cpcBidMicros.Some? {
      adGroup := adGroup["cpc_bid_micros" := Int(cpcBidMicros.value)];
    }
    r := Ok(Create(AdGroup, adGroup));
  }
}
