/** The builders of `UPDATE` operations: status changes, campaign and keyword
    edits, budget amount, bidding strategy and the Merchant Center link. Each
    assigns fields one at a time and appends one mask path per field. */
module UpdateBuilders {
  import opened Wrappers
  import opened Text
  import opened Operations

  /** A payload whose fields are exactly the resource name and the mask paths
      satisfies both halves of mask/payload agreement. */
  lemma MaskMatchesKeys(payload: Message, mask: seq<string>)
    requires forall k :: k in payload <==> k == "resource_name" || k in mask
    ensures MaskCoversPayload(payload, mask) && MaskPathsSet(payload, mask)
  {
    forall k | k in payload && k != "resource_name"
      ensures exists p :: p in mask && UnderPath(k, p)
    {
      assert UnderPath(k, k);
    }
    forall p | p in mask
      ensures exists k :: k in payload && UnderPath(k, p)
    {
      assert UnderPath(p, p);
    }
  }

  /** The single update a status builder emits: the resource name, the status
      code, and the mask `["status"]`. */
  predicate IsStatusUpdate(op: MutateOperation, resource: Resource, name: string, code: int) {
    op == Update(resource, map["resource_name" := Str(name), "status" := Int(code)], ["status"])
  }

  /** A status update's mask names exactly the one field it sets. */
  lemma StatusUpdateAgrees(op: MutateOperation, resource: Resource, name: string, code: int)
    requires IsStatusUpdate(op, resource, name, code)
    ensures op.Update? && op.mask == ["status"]
    ensures MaskCoversPayload(op.payload, op.mask) && MaskPathsSet(op.payload, op.mask)
  {
    MaskMatchesKeys(op.payload, op.mask);
  }

  method BuildCampaignStatusOperation(customerId: string, campaignId: string, status: string)
    returns (r: Result<MutateOperation, BuildError>)
    ensures r.Ok? <==> status in StatusToEnum
    ensures r.Err? ==> r.error == LookupFailure("STATUS_TO_ENUM", status)
    ensures r.Ok? ==>
      IsStatusUpdate(r.value, Campaign, ResourceName(customerId, "campaigns", campaignId), StatusToEnum[status])
  {
    var campaign: Message := map["resource_name" := Str(ResourceName(customerId, "campaigns", campaignId))];
    var code :- Lookup(StatusToEnum, "STATUS_TO_ENUM", status);
    campaign := campaign["status" := Int(code)];
    var paths: seq<string> := [];
    paths := paths + ["status"];
    r := Ok(Update(Campaign, campaign, paths));
  }

  method BuildAdGroupStatusOperation(customerId: string, adGroupId: string, status: string)
    returns (r: Result<MutateOperation, BuildError>)
    ensures r.Ok? <==> status in StatusToEnum
    ensures r.Err? ==> r.error == LookupFailure("STATUS_TO_ENUM", status)
    ensures r.Ok? ==>
      IsStatusUpdate(r.value, AdGroup, ResourceName(customerId, "adGroups", adGroupId), StatusToEnum[status])
  {
    var adGroup: Message := map["resource_name" := Str(ResourceName(customerId, "adGroups", adGroupId))];
    var code :- Lookup(StatusToEnum, "STATUS_TO_ENUM", status);
    adGroup := adGroup["status" := Int(code)];
    var paths: seq<string> := [];
    paths := paths + ["status"];
    r := Ok(Update(AdGroup, adGroup, paths));
  }

  /** The ad is addressed by the composite id `{ad_group_id}~{ad_id}`. */
  method BuildAdStatusOperation(customerId: string, adGroupId: string, adId: string, status: string)
    returns (r: Result<MutateOperation, BuildError>)
    ensures r.Ok? <==> status in StatusToEnum
    ensures r.Err? ==> r.error == LookupFailure("STATUS_TO_ENUM", status)
    ensures r.Ok? ==>
      IsStatusUpdate(r.value, AdGroupAd, ResourceName(customerId, "adGroupAds", CompositeId(adGroupId, adId)),
                     StatusToEnum[status])
  {
    var adGroupAd: Message :=
      map["resource_name" := Str(ResourceName(customerId, "adGroupAds", adGroupId + "~" + adId))];
    var code :- Lookup(StatusToEnum, "STATUS_TO_ENUM", status);
    adGroupAd := adGroupAd["status" := Int(code)];
    var paths: seq<string> := [];
    paths := paths + ["status"];
    r := Ok(Update(AdGroupAd, adGroupAd, paths));
  }

  /** Only the arguments that are not None are written, and the mask lists
      exactly those, in the order name, start_date, end_date. */
  method BuildCampaignUpdateOperation(customerId: string, campaignId: string,
                                      name: Option<string> := None,
                                      startDate: Option<string> := None,
                                      endDate: Option<string> := None)
    returns (op: MutateOperation)
    ensures op.Update? && op.resource == Campaign
    ensures op.mask == SelectPaths(["name", "start_date", "end_date"],
                                   [name.Some?, startDate.Some?, endDate.Some?])
    ensures forall k :: k in op.payload <==> k == "resource_name" || k in op.mask
    ensures op.payload["resource_name"] == Str(ResourceName(customerId, "campaigns", campaignId))
    ensures name.Some? ==> "name" in op.payload && op.payload["name"] == Str(name.value)
    ensures startDate.Some? ==> "start_date" in op.payload && op.payload["start_date"] == Str(startDate.value)
    ensures endDate.Some? ==> "end_date" in op.payload && op.payload["end_date"] == Str(endDate.value)
    ensures MaskCoversPayload(op.payload, op.mask) && MaskPathsSet(op.payload, op.mask)
  {
    var campaign: Message := map["resource_name" := Str(ResourceName(customerId, "campaigns", campaignId))];
    var paths: seq<string> := [];
    if name.Some? {
      campaign := campaign["name" := Str(name.value)];
      paths := paths + ["name"];
    }
    if startDate.Some? {
      campaign := campaign["start_date" := Str(startDate.value)];
      paths := paths + ["start_date"];
    }
    if endDate.Some? {
      campaign := campaign["end_date" := Str(endDate.value)];
      paths := paths + ["end_date"];
    }
    SelectThreePaths("name", "start_date", "end_date", name.Some?, startDate.Some?, endDate.Some?);
    op := Update(Campaign, campaign, paths);
    MaskMatchesKeys(campaign, paths);
  }

  /** With every optional argument None the campaign update has an empty mask
      and sets only the resource name. */
  lemma CampaignUpdateEmptyMask()
    ensures SelectPaths(["name", "start_date", "end_date"], [false, false, false]) == []
  {
    SelectPathsSpec(["name", "start_date", "end_date"], [false, false, false]);
  }

  method BuildBudgetUpdateOperation(customerId: string, budgetId: string, amountMicros: int)
    returns (op: MutateOperation)
    ensures op == Update(CampaignBudget,
                         map["resource_name" := Str(ResourceName(customerId, "campaignBudgets", budgetId)),
                             "amount_micros" := Int(amountMicros)],
                         ["amount_micros"])
    ensures MaskCoversPayload(op.payload, op.mask) && MaskPathsSet(op.payload, op.mask)
  {
    var budget: Message := map["resource_name" := Str(ResourceName(customerId, "campaignBudgets", budgetId))];
    budget := budget["amount_micros" := Int(amountMicros)];
    var paths: seq<string> := [];
    paths := paths + ["amount_micros"];
    op := Update(CampaignBudget, budget, paths);
    MaskMatchesKeys(budget, paths);
  }

  /** The fields a bidding-strategy assignment writes into a campaign whose
      other fields are `others`: besides those, only the target CPA or the
      target ROAS of the sub-object `field` is set, the CPA exactly for
      TARGET_CPA with a value, the ROAS exactly for TARGET_ROAS with one. */
  predicate BiddingFieldsWritten(m: Message, others: set<string>, field: string, strategyType: string,
                                 targetCpaMicros: Option<int>, targetRoas: Option<real>)
  {
    && m.Keys <= others + {field + ".target_cpa_micros", field + ".target_roas"}
    && (field + ".target_cpa_micros" in m <==> strategyType == "TARGET_CPA" && targetCpaMicros.Some?)
    && (field + ".target_cpa_micros" in m ==> m[field + ".target_cpa_micros"] == Int(targetCpaMicros.value))
    && (field + ".target_roas" in m <==> strategyType == "TARGET_ROAS" && targetRoas.Some?)
    && (field + ".target_roas" in m ==> m[field + ".target_roas"] == Real(targetRoas.value))
  }

  /** The mask is exactly `[BIDDING_STRATEGY_MAP[strategy_type]]`. */
  method BuildBiddingStrategyOperation(customerId: string, campaignId: string, strategyType: string,
                                       targetCpaMicros: Option<int> := None,
                                       targetRoas: Option<real> := None)
    returns (r: Result<MutateOperation, BuildError>)
    ensures r.Ok? <==> strategyType in BiddingStrategyMap
    ensures r.Err? ==> r.error == LookupFailure("BIDDING_STRATEGY_MAP", strategyType)
    ensures r.Ok? ==>
      var op := r.value;
      var field := BiddingStrategyMap[strategyType];
      && op.Update? && op.resource == Campaign && op.mask == [field]
      && "resource_name" in op.payload
      && op.payload["resource_name"] == Str(ResourceName(customerId, "campaigns", campaignId))
      && BiddingFieldsWritten(op.payload, {"resource_name"}, field, strategyType, targetCpaMicros, targetRoas)
      && MaskCoversPayload(op.payload, op.mask)
  {
    var campaign: Message := map["resource_name" := Str(ResourceName(customerId, "campaigns", campaignId))];
    var field :- Lookup(BiddingStrategyMap, "BIDDING_STRATEGY_MAP", strategyType);
    assert field + ".target_cpa_micros" != "resource_name" by {
      assert (field + ".target_cpa_micros")[|field|] == '.';
    }
    assert field + ".target_roas" != "resource_name" by {
      assert (field + ".target_roas")[|field|] == '.';
    }
    if strategyType == "TARGET_CPA" && targetCpaMicros.Some? {
      campaign := campaign[field + ".target_cpa_micros" := Int(targetCpaMicros.value)];
    } else if strategyType == "TARGET_ROAS" && targetRoas.Some? {
      campaign := campaign[field + ".target_roas" := Real(targetRoas.value)];
    }
    var paths: seq<string> := [];
    paths := paths + [field];
    r := Ok(Update(Campaign, campaign, paths));
    forall k | k in campaign && k != "resource_name"
      ensures exists p :: p in paths && UnderPath(k, p)
    {
      assert UnderPath(k, field);
    }
  }

  /** The criterion is addressed by `{ad_group_id}~{criterion_id}`; the mask
      lists the non-None arguments in the order cpc_bid_micros, status. */
  method BuildUpdateKeywordOperation(customerId: string, adGroupId: string, criterionId: string,
                                     cpcBidMicros: Option<int> := None,
                                     status: Option<string> := None)
    returns (r: Result<MutateOperation, BuildError>)
    ensures r.Err? <==> status.Some? && status.value !in StatusToEnum
    ensures r.Err? ==> r.error == LookupFailure("STATUS_TO_ENUM", status.value)
    ensures r.Ok? ==>
      var op := r.value;
      && op.Update? && op.resource == AdGroupCriterion
      && op.mask == SelectPaths(["cpc_bid_micros", "status"], [cpcBidMicros.Some?, status.Some?])
      && (forall k :: k in op.payload <==> k == "resource_name" || k in op.mask)
      && "resource_name" in op.payload
      && op.payload["resource_name"]
         == Str(ResourceName(customerId, "adGroupCriteria", CompositeId(adGroupId, criterionId)))
      && (cpcBidMicros.Some? ==> "cpc_bid_micros" in op.payload
                                 && op.payload["cpc_bid_micros"] == Int(cpcBidMicros.value))
      && (status.Some? ==> "status" in op.payload && op.payload["status"] == Int(StatusToEnum[status.value]))
      && MaskCoversPayload(op.payload, op.mask) && MaskPathsSet(op.payload, op.mask)
  {
    var criterion: Message :=
      map["resource_name" := Str(ResourceName(customerId, "adGroupCriteria", adGroupId + "~" + criterionId))];
    var paths: seq<string> := [];
    if cpcBidMicros.Some? {
      criterion := criterion["cpc_bid_micros" := Int(cpcBidMicros.value)];
      paths := paths + ["cpc_bid_micros"];
    }
    if status.Some? {
      var code :- Lookup(StatusToEnum, "STATUS_TO_ENUM", status.value);
      criterion := criterion["status" := Int(code)];
      paths := paths + ["status"];
    }
    SelectTwoPaths("cpc_bid_micros", "status", cpcBidMicros.Some?, status.Some?);
    MaskMatchesKeys(criterion, paths);
    r := Ok(Update(AdGroupCriterion, criterion, paths));
  }

  /** The shape of a Merchant Center link: an update of the campaign whose
      mask starts with the merchant id, then names the feed label and the
      sales country only when those are non-empty, and sets exactly the
      fields its mask names. */
  ghost predicate IsMerchantLink(op: MutateOperation, customerId: string, campaignId: string, merchantId: int,
                           feedLabel: Option<string>, salesCountry: Option<string>)
  {
    && op.Update? && op.resource == Campaign
    && op.mask == ["shopping_setting.merchant_id"]
                  + (if Truthy(feedLabel) then ["shopping_setting.feed_label"] else [])
                  + (if Truthy(salesCountry) then ["shopping_setting.sales_country"] else [])
    && (forall k :: k in op.payload <==> k == "resource_name" || k in op.mask)
    && "resource_name" in op.payload && "shopping_setting.merchant_id" in op.payload
    && op.payload["resource_name"] == Str(ResourceName(customerId, "campaigns", campaignId))
    && op.payload["shopping_setting.merchant_id"] == Int(merchantId)
    && (Truthy(feedLabel) ==> "shopping_setting.feed_label" in op.payload
                              && op.payload["shopping_setting.feed_label"] == Str(feedLabel.value))
    && (Truthy(salesCountry) ==> "shopping_setting.sales_country" in op.payload
                                 && op.payload["shopping_setting.sales_country"] == Str(salesCountry.value))
  }

  /** A Merchant Center link's mask and payload agree. */
  lemma MerchantLinkAgrees(op: MutateOperation, customerId: string, campaignId: string, merchantId: int,
                           feedLabel: Option<string>, salesCountry: Option<string>)
    requires IsMerchantLink(op, customerId, campaignId, merchantId, feedLabel, salesCountry)
    ensures op.Update? && op.mask[0] == "shopping_setting.merchant_id"
    ensures MaskCoversPayload(op.payload, op.mask) && MaskPathsSet(op.payload, op.mask)
  {
    MaskMatchesKeys(op.payload, op.mask);
  }

  /** A merchant id `int()` refuses fails the builder. */
  method BuildMerchantCenterLinkOperation(customerId: string, campaignId: string, merchantId: string,
                                          feedLabel: Option<string> := None,
                                          salesCountry: Option<string> := None)
    returns (r: Result<MutateOperation, BuildError>)
    ensures r.Err? <==> ParseInt(merchantId).None?
    ensures r.Err? ==> r.error == NotAnInteger(merchantId)
    ensures r.Ok? ==>
      IsMerchantLink(r.value, customerId, campaignId, ParseInt(merchantId).value, feedLabel, salesCountry)
  {
    var parsed := ParseInt(merchantId);
    if parsed.None? {
      return Err(NotAnInteger(merchantId));
    }
    var op := LinkMerchant(customerId, campaignId, parsed.value, feedLabel, salesCountry);
    r := Ok(op);
  }

  /** The campaign update once `int(merchant_id)` has succeeded. */
  method LinkMerchant(customerId: string, campaignId: string, merchantId: int,
                      feedLabel: Option<string>, salesCountry: Option<string>)
    returns (op: MutateOperation)
    ensures IsMerchantLink(op, customerId, campaignId, merchantId, feedLabel, salesCountry)
  {
    var campaign: Message := map["resource_name" := Str(ResourceName(customerId, "campaigns", campaignId))];
    campaign := campaign["shopping_setting.merchant_id" := Int(merchantId)];
    var paths := ["shopping_setting.merchant_id"];
    if Truthy(feedLabel) {
      campaign := campaign["shopping_setting.feed_label" := Str(feedLabel.value)];
      paths := paths + ["shopping_setting.feed_label"];
    }
    if Truthy(salesCountry) {
      campaign := campaign["shopping_setting.sales_country" := Str(salesCountry.value)];
      paths := paths + ["shopping_setting.sales_country"];
    }
    op := Update(Campaign, campaign, paths);
  }
}
