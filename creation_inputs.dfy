/** The input models of the creation tools: the campaign, ad group,
    responsive search ad, keywords, bidding strategy, keyword update,
    extension and targeting inputs. Enum-typed fields hold the enum's value
    text; defaults are those of the models. */
module CreationInputs {
  import opened Wrappers
  import opened Common
  import opened Text
  import opened Validation

  // ---- CreateCampaignInput ----

  datatype CreateCampaignInput = CreateCampaignInput(
    customerId: string, name: string, campaignType: string, biddingStrategyType: string,
    budgetAmountMicros: int, startDate: Option<string> := None, endDate: Option<string> := None,
    targetCpaMicros: Option<int> := None, targetRoas: Option<real> := None)

  const CalendarDateMessage := "Date must be a valid calendar date in YYYY-MM-DD format"

  /** The `mode="before"` date check: None passes, any text must be a
      calendar date. */
  function CalendarDateErrors(loc: string, value: Option<string>): (r: seq<FieldError>)
    ensures r == [] <==> value.None? || IsIsoDate(value.value)
    ensures |r| <= 1
  {
    if value.Some? && !IsIsoDate(value.value) then [FieldError(loc, BadValue(CalendarDateMessage))] else []
  }

  function CreateCampaignFieldErrors(i: CreateCampaignInput): (r: seq<FieldError>)
    ensures r == [] <==>
      && ValidateCustomerId(i.customerId).Ok?
      && i.campaignType in CampaignTypeValues && i.biddingStrategyType in BiddingStrategyTypeValues
      && i.budgetAmountMicros > 0
      && (i.startDate.Some? ==> IsIsoDate(i.startDate.value))
      && (i.endDate.Some? ==> IsIsoDate(i.endDate.value))
      && (i.targetCpaMicros.Some? ==> i.targetCpaMicros.value > 0)
      && (i.targetRoas.Some? ==> i.targetRoas.value > 0.0)
  {
    CustomerIdErrors(i.customerId)
    + EnumErrors("campaign_type", i.campaignType, CampaignTypeValues)
    + EnumErrors("bidding_strategy_type", i.biddingStrategyType, BiddingStrategyTypeValues)
    + PositiveErrors("budget_amount_micros", Some(i.budgetAmountMicros))
    + CalendarDateErrors("start_date", i.startDate)
    + CalendarDateErrors("end_date", i.endDate)
    + PositiveErrors("target_cpa_micros", i.targetCpaMicros)
    + PositiveRealErrors("target_roas", i.targetRoas)
  }

  const CampaignCpaMessage := "target_cpa_micros is required when bidding_strategy_type=TARGET_CPA"
  const CampaignRoasMessage := "target_roas is required when bidding_strategy_type=TARGET_ROAS"
  const DateOrderMessage := "start_date must not be after end_date"

  /** The campaign rule: each bidding target its strategy needs, then the
      start date not after the end date when both are non-empty. */
  function CreateCampaignRule(i: CreateCampaignInput): (r: Option<string>)
    requires i.startDate.Some? ==> IsIsoDate(i.startDate.value)
    requires i.endDate.Some? ==> IsIsoDate(i.endDate.value)
    ensures r.None? <==>
      && (i.biddingStrategyType == "TARGET_CPA" ==> i.targetCpaMicros.Some?)
      && (i.biddingStrategyType == "TARGET_ROAS" ==> i.targetRoas.Some?)
      && (i.startDate.Some? && i.endDate.Some? ==>
            DateOrdinalKey(i.startDate.value) <= DateOrdinalKey(i.endDate.value))
    ensures i.biddingStrategyType == "TARGET_CPA" && i.targetCpaMicros.None? ==> r == Some(CampaignCpaMessage)
  {
    if i.biddingStrategyType == "TARGET_CPA" && i.targetCpaMicros.None? then Some(CampaignCpaMessage)
    else if i.biddingStrategyType == "TARGET_ROAS" && i.targetRoas.None? then Some(CampaignRoasMessage)
    else if i.startDate.Some? && i.startDate.value != "" && i.endDate.Some? && i.endDate.value != ""
            && DateOrdinalKey(i.startDate.value) > DateOrdinalKey(i.endDate.value) then Some(DateOrderMessage)
    else None
  }

  function ValidateCreateCampaign(raw: CreateCampaignInput): (r: Result<CreateCampaignInput, ValidationError>)
    ensures r.Ok? <==>
      && ValidateCustomerId(raw.customerId).Ok?
      && raw.campaignType in CampaignTypeValues && raw.biddingStrategyType in BiddingStrategyTypeValues
      && raw.budgetAmountMicros > 0
      && (raw.startDate.Some? ==> IsIsoDate(raw.startDate.value))
      && (raw.endDate.Some? ==> IsIsoDate(raw.endDate.value))
      && (raw.targetCpaMicros.Some? ==> raw.targetCpaMicros.value > 0)
      && (raw.targetRoas.Some? ==> raw.targetRoas.value > 0.0)
      && (raw.biddingStrategyType == "TARGET_CPA" ==> raw.targetCpaMicros.Some?)
      && (raw.biddingStrategyType == "TARGET_ROAS" ==> raw.targetRoas.Some?)
      && (raw.startDate.Some? && raw.endDate.Some? ==>
            DateOrdinalKey(raw.startDate.value) <= DateOrdinalKey(raw.endDate.value))
    ensures r.Ok? ==> r.value == raw.(customerId := CleanCustomerId(raw.customerId))
    ensures CreateCampaignFieldErrors(raw) != [] ==> r == Err(FieldErrors(CreateCampaignFieldErrors(raw)))
    ensures (CreateCampaignFieldErrors(raw) == [] && raw.biddingStrategyType == "TARGET_CPA"
             && raw.targetCpaMicros.None?) ==> r == Err(ModelError(CampaignCpaMessage))
  {
    var errors := CreateCampaignFieldErrors(raw);
    var v := raw.(customerId := CleanCustomerId(raw.customerId));
    Finish(errors, if errors == [] then CreateCampaignRule(v) else None, v)
  }

  // ---- CreateAdGroupInput ----

  datatype CreateAdGroupInput = CreateAdGroupInput(
    customerId: string, campaignId: string, name: string, adGroupType: string,
    cpcBidMicros: Option<int> := None)

  function ValidateCreateAdGroup(raw: CreateAdGroupInput): (r: Result<CreateAdGroupInput, ValidationError>)
    ensures r.Ok? <==>
      && ValidateCustomerId(raw.customerId).Ok?
      && raw.adGroupType in AdGroupTypeValues
      && (raw.cpcBidMicros.Some? ==> raw.cpcBidMicros.value > 0)
    ensures r.Ok? ==> r.value == raw.(customerId := CleanCustomerId(raw.customerId))
  {
    var errors := CustomerIdErrors(raw.customerId)
      + EnumErrors("ad_group_type", raw.adGroupType, AdGroupTypeValues)
      + PositiveErrors("cpc_bid_micros", raw.cpcBidMicros);
    Finish(errors, None, raw.(customerId := CleanCustomerId(raw.customerId)))
  }

  // ---- CreateResponsiveSearchAdInput ----

  datatype CreateResponsiveSearchAdInput = CreateResponsiveSearchAdInput(
    customerId: string, adGroupId: string, headlines: seq<string>, descriptions: seq<string>,
    finalUrls: seq<string>, path1: Option<string> := None, path2: Option<string> := None)

  /** 3 to 15 headlines, 2 to 4 descriptions, at least one final URL. */
  function ValidateCreateResponsiveSearchAd(raw: CreateResponsiveSearchAdInput)
    : (r: Result<CreateResponsiveSearchAdInput, ValidationError>)
    ensures r.Ok? <==>
      && ValidateCustomerId(raw.customerId).Ok?
      && 3 <= |raw.headlines| <= 15 && 2 <= |raw.descriptions| <= 4 && |raw.finalUrls| >= 1
    ensures r.Ok? ==> r.value == raw.(customerId := CleanCustomerId(raw.customerId))
  {
    var errors := CustomerIdErrors(raw.customerId)
      + LengthErrors("headlines", |raw.headlines|, 3, Some(15))
      + LengthErrors("descriptions", |raw.descriptions|, 2, Some(4))
      + LengthErrors("final_urls", |raw.finalUrls|, 1, None);
    Finish(errors, None, raw.(customerId := CleanCustomerId(raw.customerId)))
  }

  // ---- AddKeywordsInput ----

  datatype AddKeywordsInput = AddKeywordsInput(
    customerId: string, adGroupId: string, keywords: seq<string>, matchType: string := "broad",
    cpcBidMicros: Option<int> := None)

  /** 1 to 20 keywords; the match type defaults to broad. */
  function ValidateAddKeywords(raw: AddKeywordsInput): (r: Result<AddKeywordsInput, ValidationError>)
    ensures r.Ok? <==>
      && ValidateCustomerId(raw.customerId).Ok?
      && 1 <= |raw.keywords| <= 20 && raw.matchType in MatchTypeValues
      && (raw.cpcBidMicros.Some? ==> raw.cpcBidMicros.value > 0)
    ensures r.Ok? ==> r.value == raw.(customerId := CleanCustomerId(raw.customerId))
  {
    var errors := CustomerIdErrors(raw.customerId)
      + LengthErrors("keywords", |raw.keywords|, 1, Some(20))
      + EnumErrors("match_type", raw.matchType, MatchTypeValues)
      + PositiveErrors("cpc_bid_micros", raw.cpcBidMicros);
    Finish(errors, None, raw.(customerId := CleanCustomerId(raw.customerId)))
  }

  lemma AddKeywordsDefaultMatch(customerId: string, adGroupId: string, keywords: seq<string>)
    ensures AddKeywordsInput(customerId, adGroupId, keywords).matchType == "broad"
  {
  }

  // ---- SetBiddingStrategyInput ----

  datatype SetBiddingStrategyInput = SetBiddingStrategyInput(
    customerId: string, campaignId: string, strategyType: string,
    targetCpaMicros: Option<int> := None, targetRoas: Option<real> := None)

  const StrategyCpaMessage := "target_cpa_micros is required when strategy_type=TARGET_CPA"
  const StrategyRoasMessage := "target_roas is required when strategy_type=TARGET_ROAS"

  function SetBiddingStrategyFieldErrors(i: SetBiddingStrategyInput): (r: seq<FieldError>)
    ensures r == [] <==>
      && ValidateCustomerId(i.customerId).Ok?
      && i.strategyType in BiddingStrategyTypeValues
      && (i.targetCpaMicros.Some? ==> i.targetCpaMicros.value > 0)
      && (i.targetRoas.Some? ==> i.targetRoas.value > 0.0)
  {
    CustomerIdErrors(i.customerId)
    + EnumErrors("strategy_type", i.strategyType, BiddingStrategyTypeValues)
    + PositiveErrors("target_cpa_micros", i.targetCpaMicros)
    + PositiveRealErrors("target_roas", i.targetRoas)
  }

  function SetBiddingStrategyRule(i: SetBiddingStrategyInput): (r: Option<string>)
    ensures r.None? <==>
      (i.strategyType == "TARGET_CPA" ==> i.targetCpaMicros.Some?)
      && (i.strategyType == "TARGET_ROAS" ==> i.targetRoas.Some?)
  {
    if i.strategyType == "TARGET_CPA" && i.targetCpaMicros.None? then Some(StrategyCpaMessage)
    else if i.strategyType == "TARGET_ROAS" && i.targetRoas.None? then Some(StrategyRoasMessage)
    else None
  }

  /** A target-CPA strategy needs its CPA, a target-ROAS one its ROAS. */
  function ValidateSetBiddingStrategy(raw: SetBiddingStrategyInput)
    : (r: Result<SetBiddingStrategyInput, ValidationError>)
    ensures r.Ok? <==>
      && ValidateCustomerId(raw.customerId).Ok?
      && raw.strategyType in BiddingStrategyTypeValues
      && (raw.targetCpaMicros.Some? ==> raw.targetCpaMicros.value > 0)
      && (raw.targetRoas.Some? ==> raw.targetRoas.value > 0.0)
      && (raw.strategyType == "TARGET_CPA" ==> raw.targetCpaMicros.Some?)
      && (raw.strategyType == "TARGET_ROAS" ==> raw.targetRoas.Some?)
    ensures r.Ok? ==> r.value == raw.(customerId := CleanCustomerId(raw.customerId))
    ensures (SetBiddingStrategyFieldErrors(raw) == [] && raw.strategyType == "TARGET_ROAS"
             && raw.targetRoas.None?) ==> r == Err(ModelError(StrategyRoasMessage))
  {
    var errors := SetBiddingStrategyFieldErrors(raw);
    var v := raw.(customerId := CleanCustomerId(raw.customerId));
    Finish(errors, SetBiddingStrategyRule(v), v)
  }

  // ---- UpdateKeywordInput ----

  datatype UpdateKeywordInput = UpdateKeywordInput(
    customerId: string, adGroupId: string, criterionId: string,
    cpcBidMicros: Option<int> := None, status: Option<string> := None)

  const KeywordChangeMessage := "At least one of cpc_bid_micros or status must be provided"

  /** At least one of the bid and the status must be given. */
  function ValidateUpdateKeyword(raw: UpdateKeywordInput): (r: Result<UpdateKeywordInput, ValidationError>)
    ensures r.Ok? <==>
      && ValidateCustomerId(raw.customerId).Ok?
      && (raw.cpcBidMicros.Some? ==> raw.cpcBidMicros.value > 0)
      && (raw.status.Some? ==> raw.status.value in StatusActionValues)
      && (raw.cpcBidMicros.Some? || raw.status.Some?)
    ensures r.Ok? ==> r.value == raw.(customerId := CleanCustomerId(raw.customerId))
    ensures ValidateCustomerId(raw.customerId).Ok? && raw.cpcBidMicros.None? && raw.status.None? ==>
      r == Err(ModelError(KeywordChangeMessage))
  {
    var errors := CustomerIdErrors(raw.customerId)
      + PositiveErrors("cpc_bid_micros", raw.cpcBidMicros)
      + OptEnumErrors("status", raw.status, StatusActionValues);
    var v := raw.(customerId := CleanCustomerId(raw.customerId));
    Finish(errors, if v.cpcBidMicros.None? && v.status.None? then Some(KeywordChangeMessage) else None, v)
  }

  // ---- CreateAdExtensionInput ----

  datatype CreateAdExtensionInput = CreateAdExtensionInput(
    customerId: string, campaignId: string, extensionType: string,
    linkText: Option<string> := None, finalUrls: Option<seq<string>> := None,
    description1: Option<string> := None, description2: Option<string> := None,
    calloutText: Option<string> := None, phoneNumber: Option<string> := None,
    countryCode: Option<string> := None, snippetHeader: Option<string> := None,
    snippetValues: Option<seq<string>> := None)

  /** The first missing or empty field the extension type needs, in the
      order the rule checks them. */
  function ExtensionRule(i: CreateAdExtensionInput): (r: Option<string>)
    ensures r.None? <==>
      && (i.extensionType == "SITELINK" ==> Truthy(i.linkText) && TruthyList(i.finalUrls))
      && (i.extensionType == "CALLOUT" ==> Truthy(i.calloutText))
      && (i.extensionType == "CALL" ==> Truthy(i.phoneNumber) && Truthy(i.countryCode))
      && (i.extensionType == "STRUCTURED_SNIPPET" ==> Truthy(i.snippetHeader) && TruthyList(i.snippetValues))
    ensures (i.extensionType == "SITELINK" && !Truthy(i.linkText)) ==>
      r == Some("link_text is required for SITELINK extensions")
  {
    match i.extensionType
    case "SITELINK" =>
      if !Truthy(i.linkText) then Some("link_text is required for SITELINK extensions")
      else if !TruthyList(i.finalUrls) then Some("final_urls is required for SITELINK extensions")
      else None
    case "CALLOUT" =>
      if !Truthy(i.calloutText) then Some("callout_text is required for CALLOUT extensions") else None
    case "CALL" =>
      if !Truthy(i.phoneNumber) then Some("phone_number is required for CALL extensions")
      else if !Truthy(i.countryCode) then Some("country_code is required for CALL extensions")
      else None
    case "STRUCTURED_SNIPPET" =>
      if !Truthy(i.snippetHeader) then Some("snippet_header is required for STRUCTURED_SNIPPET extensions")
      else if !TruthyList(i.snippetValues) then Some("snippet_values is required for STRUCTURED_SNIPPET extensions")
      else None
    case _ => None
  }

  /** Each extension type needs its own non-empty fields. */
  function ValidateCreateAdExtension(raw: CreateAdExtensionInput)
    : (r: Result<CreateAdExtensionInput, ValidationError>)
    ensures r.Ok? <==>
      && ValidateCustomerId(raw.customerId).Ok?
      && raw.extensionType in ExtensionTypeValues
      && (raw.extensionType == "SITELINK" ==> Truthy(raw.linkText) && TruthyList(raw.finalUrls))
      && (raw.extensionType == "CALLOUT" ==> Truthy(raw.calloutText))
      && (raw.extensionType == "CALL" ==> Truthy(raw.phoneNumber) && Truthy(raw.countryCode))
      && (raw.extensionType == "STRUCTURED_SNIPPET" ==> Truthy(raw.snippetHeader) && TruthyList(raw.snippetValues))
    ensures r.Ok? ==> r.value == raw.(customerId := CleanCustomerId(raw.customerId))
    ensures (ValidateCustomerId(raw.customerId).Ok? && raw.extensionType == "SITELINK"
             && !Truthy(raw.linkText)) ==> r == Err(ModelError("link_text is required for SITELINK extensions"))
  {
    var errors := CustomerIdErrors(raw.customerId)
      + EnumErrors("extension_type", raw.extensionType, ExtensionTypeValues);
    var v := raw.(customerId := CleanCustomerId(raw.customerId));
    Finish(errors, ExtensionRule(v), v)
  }

  // ---- Targeting inputs ----

  datatype SetDeviceTargetingInput = SetDeviceTargetingInput(
    customerId: string, campaignId: string, device: string, bidModifier: real)

  function ValidateSetDeviceTargeting(raw: SetDeviceTargetingInput)
    : (r: Result<SetDeviceTargetingInput, ValidationError>)
    ensures r.Ok? <==>
      ValidateCustomerId(raw.customerId).Ok? && raw.device in DeviceTypeValues && raw.bidModifier >= 0.0
    ensures r.Ok? ==> r.value == raw.(customerId := CleanCustomerId(raw.customerId))
  {
    var errors := CustomerIdErrors(raw.customerId)
      + EnumErrors("device", raw.device, DeviceTypeValues)
      + NonNegativeRealErrors("bid_modifier", Some(raw.bidModifier));
    Finish(errors, None, raw.(customerId := CleanCustomerId(raw.customerId)))
  }

  datatype SetDemographicTargetingInput = SetDemographicTargetingInput(
    customerId: string, campaignId: string, dimension: string, values: seq<string>,
    bidModifier: Option<real> := None)

  /** At least one demographic value. */
  function ValidateSetDemographicTargeting(raw: SetDemographicTargetingInput)
    : (r: Result<SetDemographicTargetingInput, ValidationError>)
    ensures r.Ok? <==>
      && ValidateCustomerId(raw.customerId).Ok?
      && raw.dimension in DemographicDimensionValues && |raw.values| >= 1
      && (raw.bidModifier.Some? ==> raw.bidModifier.value >= 0.0)
    ensures r.Ok? ==> r.value == raw.(customerId := CleanCustomerId(raw.customerId))
  {
    var errors := CustomerIdErrors(raw.customerId)
      + EnumErrors("dimension", raw.dimension, DemographicDimensionValues)
      + LengthErrors("values", |raw.values|, 1, None)
      + NonNegativeRealErrors("bid_modifier", raw.bidModifier);
    Finish(errors, None, raw.(customerId := CleanCustomerId(raw.customerId)))
  }

  datatype CreateAudienceSegmentInput = CreateAudienceSegmentInput(
    customerId: string, campaignId: string, audienceType: string, audienceId: string,
    bidModifier: Option<real> := None)

  function ValidateCreateAudienceSegment(raw: CreateAudienceSegmentInput)
    : (r: Result<CreateAudienceSegmentInput, ValidationError>)
    ensures r.Ok? <==>
      && ValidateCustomerId(raw.customerId).Ok?
      && raw.audienceType in AudienceTypeValues
      && (raw.bidModifier.Some? ==> raw.bidModifier.value >= 0.0)
    ensures r.Ok? ==> r.value == raw.(customerId := CleanCustomerId(raw.customerId))
  {
    var errors := CustomerIdErrors(raw.customerId)
      + EnumErrors("audience_type", raw.audienceType, AudienceTypeValues)
      + NonNegativeRealErrors("bid_modifier", raw.bidModifier);
    Finish(errors, None, raw.(customerId := CleanCustomerId(raw.customerId)))
  }
}
