/** The input models of the mutation tools: status changes, the campaign
    update, the budget update, negative keywords, and location and language
    targeting. */
module MutationInputs {
  import opened Wrappers
  import opened Text
  import opened Common
  import opened Validation

  /** The three status inputs share their only rule: the status must be
      one of enable, pause, remove. */
  datatype SetCampaignStatusInput = SetCampaignStatusInput(customerId: string, campaignId: string, status: string)

  function ValidateSetCampaignStatus(raw: SetCampaignStatusInput)
    : (r: Result<SetCampaignStatusInput, ValidationError>)
    ensures r.Ok? <==> ValidateCustomerId(raw.customerId).Ok? && raw.status in StatusActionValues
    ensures r.Ok? ==> r.value == raw.(customerId := CleanCustomerId(raw.customerId))
  {
    var errors := CustomerIdErrors(raw.customerId) + EnumErrors("status", raw.status, StatusActionValues);
    Finish(errors, None, raw.(customerId := CleanCustomerId(raw.customerId)))
  }

  datatype SetAdGroupStatusInput = SetAdGroupStatusInput(customerId: string, adGroupId: string, status: string)

  function ValidateSetAdGroupStatus(raw: SetAdGroupStatusInput)
    : (r: Result<SetAdGroupStatusInput, ValidationError>)
    ensures r.Ok? <==> ValidateCustomerId(raw.customerId).Ok? && raw.status in StatusActionValues
    ensures r.Ok? ==> r.value == raw.(customerId := CleanCustomerId(raw.customerId))
  {
    var errors := CustomerIdErrors(raw.customerId) + EnumErrors("status", raw.status, StatusActionValues);
    Finish(errors, None, raw.(customerId := CleanCustomerId(raw.customerId)))
  }

  datatype SetAdStatusInput = SetAdStatusInput(customerId: string, adGroupId: string, adId: string, status: string)

  function ValidateSetAdStatus(raw: SetAdStatusInput): (r: Result<SetAdStatusInput, ValidationError>)
    ensures r.Ok? <==> ValidateCustomerId(raw.customerId).Ok? && raw.status in StatusActionValues
    ensures r.Ok? ==> r.value == raw.(customerId := CleanCustomerId(raw.customerId))
  {
    var errors := CustomerIdErrors(raw.customerId) + EnumErrors("status", raw.status, StatusActionValues);
    Finish(errors, None, raw.(customerId := CleanCustomerId(raw.customerId)))
  }

  // ---- UpdateCampaignInput ----

  datatype UpdateCampaignInput = UpdateCampaignInput(
    customerId: string, campaignId: string, name: Option<string> := None,
    startDate: Option<string> := None, endDate: Option<string> := None)

  const DateFormatMessage := "Date must be in YYYY-MM-DD format"
  const CampaignChangeMessage := "At least one of name, start_date, or end_date must be provided"

  /** The `mode='before'` regex check: None passes, any text must have the
      date shape; the calendar is not consulted. */
  function DatePatternErrors(loc: string, value: Option<string>): (r: seq<FieldError>)
    ensures r == [] <==> value.None? || MatchesDatePattern(value.value)
    ensures |r| <= 1
  {
    if value.Some? && !MatchesDatePattern(value.value) then [FieldError(loc, BadValue(DateFormatMessage))] else []
  }

  /** Dates need only the YYYY-MM-DD shape; at least one field must change. */
  function ValidateUpdateCampaign(raw: UpdateCampaignInput): (r: Result<UpdateCampaignInput, ValidationError>)
    ensures r.Ok? <==>
      && ValidateCustomerId(raw.customerId).Ok?
      && (raw.startDate.Some? ==> MatchesDatePattern(raw.startDate.value))
      && (raw.endDate.Some? ==> MatchesDatePattern(raw.endDate.value))
      && (raw.name.Some? || raw.startDate.Some? || raw.endDate.Some?)
    ensures r.Ok? ==> r.value == raw.(customerId := CleanCustomerId(raw.customerId))
    ensures (ValidateCustomerId(raw.customerId).Ok? && raw.name.None? && raw.startDate.None?
             && raw.endDate.None?) ==> r == Err(ModelError(CampaignChangeMessage))
  {
    var errors := CustomerIdErrors(raw.customerId)
      + DatePatternErrors("start_date", raw.startDate)
      + DatePatternErrors("end_date", raw.endDate);
    var v := raw.(customerId := CleanCustomerId(raw.customerId));
    Finish(errors, if v.name.None? && v.startDate.None? && v.endDate.None? then Some(CampaignChangeMessage) else None, v)
  }

  /** A date that does not exist passes the update check, although the
      creation check refuses it. */
  lemma UpdateAcceptsImpossibleDate(customerId: string, campaignId: string)
    requires ValidateCustomerId(customerId).Ok?
    ensures ValidateUpdateCampaign(UpdateCampaignInput(customerId, campaignId, startDate := Some("2026-02-31"))).Ok?
  {
    PatternWithoutCalendar();
  }

  // ---- UpdateBudgetInput ----

  datatype UpdateBudgetInput = UpdateBudgetInput(customerId: string, budgetId: string, amountMicros: int)

  function ValidateUpdateBudget(raw: UpdateBudgetInput): (r: Result<UpdateBudgetInput, ValidationError>)
    ensures r.Ok? <==> ValidateCustomerId(raw.customerId).Ok? && raw.amountMicros > 0
    ensures r.Ok? ==> r.value == raw.(customerId := CleanCustomerId(raw.customerId))
  {
    var errors := CustomerIdErrors(raw.customerId) + PositiveErrors("amount_micros", Some(raw.amountMicros));
    Finish(errors, None, raw.(customerId := CleanCustomerId(raw.customerId)))
  }

  // ---- AddNegativeKeywordsInput ----

  datatype AddNegativeKeywordsInput = AddNegativeKeywordsInput(
    customerId: string, level: string, keywords: seq<string>, campaignId: Option<string> := None,
    adGroupId: Option<string> := None, matchType: string := "exact")

  const CampaignLevelMessage := "campaign_id is required when level=campaign"
  const AdGroupLevelMessage := "ad_group_id is required when level=ad_group"

  /** 1 to 20 keywords, the match type defaulting to exact; the level's own
      id must be non-empty. */
  function ValidateAddNegativeKeywords(raw: AddNegativeKeywordsInput)
    : (r: Result<AddNegativeKeywordsInput, ValidationError>)
    ensures r.Ok? <==>
      && ValidateCustomerId(raw.customerId).Ok?
      && raw.level in NegativeKeywordLevelValues
      && 1 <= |raw.keywords| <= 20 && raw.matchType in MatchTypeValues
      && (raw.level == "campaign" ==> Truthy(raw.campaignId))
      && (raw.level == "ad_group" ==> Truthy(raw.adGroupId))
    ensures r.Ok? ==> r.value == raw.(customerId := CleanCustomerId(raw.customerId))
  {
    var errors := CustomerIdErrors(raw.customerId)
      + EnumErrors("level", raw.level, NegativeKeywordLevelValues)
      + LengthErrors("keywords", |raw.keywords|, 1, Some(20))
      + EnumErrors("match_type", raw.matchType, MatchTypeValues);
    var v := raw.(customerId := CleanCustomerId(raw.customerId));
    var rule := if v.level == "campaign" && !Truthy(v.campaignId) then Some(CampaignLevelMessage)
                else if v.level == "ad_group" && !Truthy(v.adGroupId) then Some(AdGroupLevelMessage)
                else None;
    Finish(errors, rule, v)
  }

  lemma NegativeKeywordsDefaultMatch(customerId: string, level: string, keywords: seq<string>)
    ensures AddNegativeKeywordsInput(customerId, level, keywords).matchType == "exact"
  {
  }

  // ---- Location and language targeting ----

  datatype SetLocationTargetingInput = SetLocationTargetingInput(
    customerId: string, campaignId: string, locationIds: seq<int>, exclude: bool := false)

  function ValidateSetLocationTargeting(raw: SetLocationTargetingInput)
    : (r: Result<SetLocationTargetingInput, ValidationError>)
    ensures r.Ok? <==> ValidateCustomerId(raw.customerId).Ok? && |raw.locationIds| >= 1
    ensures r.Ok? ==> r.value == raw.(customerId := CleanCustomerId(raw.customerId))
  {
    var errors := CustomerIdErrors(raw.customerId) + LengthErrors("location_ids", |raw.locationIds|, 1, None);
    Finish(errors, None, raw.(customerId := CleanCustomerId(raw.customerId)))
  }

  datatype SetLanguageTargetingInput = SetLanguageTargetingInput(
    customerId: string, campaignId: string, languageIds: seq<int>)

  function ValidateSetLanguageTargeting(raw: SetLanguageTargetingInput)
    : (r: Result<SetLanguageTargetingInput, ValidationError>)
    ensures r.Ok? <==> ValidateCustomerId(raw.customerId).Ok? && |raw.languageIds| >= 1
    ensures r.Ok? ==> r.value == raw.(customerId := CleanCustomerId(raw.customerId))
  {
    var errors := CustomerIdErrors(raw.customerId) + LengthErrors("language_ids", |raw.languageIds|, 1, None);
    Finish(errors, None, raw.(customerId := CleanCustomerId(raw.customerId)))
  }
}
