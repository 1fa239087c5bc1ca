/** The builders of campaign and ad-group criterion creates: negative and
    positive keywords, locations, languages, devices, demographics,
    audiences, and the links of assets to an asset group. Each list builder
    returns one operation per input item, in input order. */
module CriterionBuilders {
  import opened Wrappers
  import opened Text
  import opened Operations

  /** One negative keyword, attached to the campaign when the level is
      "campaign" and to the ad group for every other level. */
  function NegativeKeywordOp(customerId: string, level: string, parentId: string,
                             text: string, matchType: int): (op: MutateOperation)
    ensures op.Create? && "negative" in op.payload && op.payload["negative"] == Bool(true)
    ensures "keyword.text" in op.payload && op.payload["keyword.text"] == Str(text)
    ensures "keyword.match_type" in op.payload && op.payload["keyword.match_type"] == Int(matchType)
    ensures op.resource == CampaignCriterion <==> level == "campaign"
    ensures op.resource != CampaignCriterion ==>
      op.resource == AdGroupCriterion && "campaign" !in op.payload
      && "ad_group" in op.payload && op.payload["ad_group"] == Str(ResourceName(customerId, "adGroups", parentId))
    ensures op.resource == CampaignCriterion ==>
      "ad_group" !in op.payload && "campaign" in op.payload && op.payload["campaign"] == Str(ResourceName(customerId, "campaigns", parentId))
  {
    var keyword := map["negative" := Bool(true), "keyword.text" := Str(text),
                       "keyword.match_type" := Int(matchType)];
    if level == "campaign" then
      Create(CampaignCriterion, keyword["campaign" := Str(ResourceName(customerId, "campaigns", parentId))])
    else
      Create(AdGroupCriterion, keyword["ad_group" := Str(ResourceName(customerId, "adGroups", parentId))])
  }

  /** The match type is resolved once, before the loop, so an unknown match
      type fails even for an empty keyword list. */
  method BuildNegativeKeywordOperations(customerId: string, level: string, parentId: string,
                                        keywords: seq<string>, matchType: string)
    returns (r: Result<seq<MutateOperation>, BuildError>)
    ensures r.Ok? <==> matchType in MatchTypeToEnum
    ensures r.Err? ==> r.error == LookupFailure("MATCH_TYPE_TO_ENUM", matchType)
    ensures r.Ok? ==>
      && |r.value| == |keywords|
      && forall i :: 0 <= i < |keywords| ==>
           r.value[i] == NegativeKeywordOp(customerId, level, parentId, keywords[i], MatchTypeToEnum[matchType])
  {
    var mt :- Lookup(MatchTypeToEnum, "MATCH_TYPE_TO_ENUM", matchType);
    var ops: seq<MutateOperation> := [];
    var i := 0;
    while i < |keywords|
      invariant 0 <= i <= |keywords| && |ops| == i
      invariant forall j :: 0 <= j < i ==> ops[j] == NegativeKeywordOp(customerId, level, parentId, keywords[j], mt)
    {
      ops := ops + [NegativeKeywordOp(customerId, level, parentId, keywords[i], mt)];
      i := i + 1;
    }
    r := Ok(ops);
  }

  /** One positive keyword in the ad group, with the CPC bid when given. */
  function KeywordOp(customerId: string, adGroupId: string, text: string, matchType: int,
                     cpcBidMicros: Option<int>): (op: MutateOperation)
    ensures op.Create? && op.resource == AdGroupCriterion && "negative" !in op.payload
    ensures "ad_group" in op.payload && op.payload["ad_group"] == Str(ResourceName(customerId, "adGroups", adGroupId))
    ensures "keyword.text" in op.payload && op.payload["keyword.text"] == Str(text)
    ensures "keyword.match_type" in op.payload && op.payload["keyword.match_type"] == Int(matchType)
    ensures "cpc_bid_micros" in op.payload <==> cpcBidMicros.Some?
    ensures cpcBidMicros.Some? ==> "cpc_bid_micros" in op.payload && op.payload["cpc_bid_micros"] == Int(cpcBidMicros.value)
  {
    var m := map["ad_group" := Str(ResourceName(customerId, "adGroups", adGroupId)),
                 "keyword.text" := Str(text), "keyword.match_type" := Int(matchType)];
    Create(AdGroupCriterion, if cpcBidMicros.Some? then m["cpc_bid_micros" := Int(cpcBidMicros.value)] else m)
  }

  method BuildAddKeywordsOperations(customerId: string, adGroupId: string, keywords: seq<string>,
                                    matchType: string, cpcBidMicros: Option<int> := None)
    returns (r: Result<seq<MutateOperation>, BuildError>)
    ensures r.Ok? <==> matchType in MatchTypeToEnum
    ensures r.Err? ==> r.error == LookupFailure("MATCH_TYPE_TO_ENUM", matchType)
    ensures r.Ok? ==>
      && |r.value| == |keywords|
      && forall i :: 0 <= i < |keywords| ==>
           r.value[i] == KeywordOp(customerId, adGroupId, keywords[i], MatchTypeToEnum[matchType], cpcBidMicros)
  {
    var mt :- Lookup(MatchTypeToEnum, "MATCH_TYPE_TO_ENUM", matchType);
    var ops: seq<MutateOperation> := [];
    var i := 0;
    while i < |keywords|
      invariant 0 <= i <= |keywords| && |ops| == i
      invariant forall j :: 0 <= j < i ==> ops[j] == KeywordOp(customerId, adGroupId, keywords[j], mt, cpcBidMicros)
    {
      ops := ops + [KeywordOp(customerId, adGroupId, keywords[i], mt, cpcBidMicros)];
      i := i + 1;
    }
    r := Ok(ops);
  }

  /** One geo target on the campaign. */
  function LocationOp(customerId: string, campaignId: string, locationId: int, exclude: bool): MutateOperation {
    var m := map["campaign" := Str(ResourceName(customerId, "campaigns", campaignId)),
                 "location.geo_target_constant" := Str("geoTargetConstants/" + IntToString(locationId))];
    Create(CampaignCriterion, if exclude then m["negative" := Bool(true)] else m)
  }

  /** A geo target names the campaign and the geo target constant, and is
      negative exactly when excluding. */
  lemma LocationOpPayload(customerId: string, campaignId: string, locationId: int, exclude: bool)
    ensures var op := LocationOp(customerId, campaignId, locationId, exclude);
      && op.Create? && op.resource == CampaignCriterion
      && "campaign" in op.payload && op.payload["campaign"] == Str(ResourceName(customerId, "campaigns", campaignId))
      && "location.geo_target_constant" in op.payload
      && op.payload["location.geo_target_constant"] == Str("geoTargetConstants/" + IntToString(locationId))
      && ("negative" in op.payload <==> exclude)
      && (exclude ==> "negative" in op.payload && op.payload["negative"] == Bool(true))
  {
  }

  method BuildLocationCriterionOperations(customerId: string, campaignId: string,
                                          locationIds: seq<int>, exclude: bool)
    returns (ops: seq<MutateOperation>)
    ensures |ops| == |locationIds|
    ensures forall i :: 0 <= i < |locationIds| ==>
      ops[i] == LocationOp(customerId, campaignId, locationIds[i], exclude)
  {
    ops := [];
    var i := 0;
    while i < |locationIds|
      invariant 0 <= i <= |locationIds| && |ops| == i
      invariant forall j :: 0 <= j < i ==> ops[j] == LocationOp(customerId, campaignId, locationIds[j], exclude)
    {
      var op := LocationOp(customerId, campaignId, locationIds[i], exclude);
      ops := ops + [op];
      i := i + 1;
    }
  }

  /** One language target on the campaign. */
  function LanguageOp(customerId: string, campaignId: string, languageId: int): MutateOperation {
    Create(CampaignCriterion, map[
      "campaign" := Str(ResourceName(customerId, "campaigns", campaignId)),
      "language.language_constant" := Str("languageConstants/" + IntToString(languageId))])
  }

  /** A language target names the campaign and the language constant and
      nothing else. */
  lemma LanguageOpPayload(customerId: string, campaignId: string, languageId: int)
    ensures var op := LanguageOp(customerId, campaignId, languageId);
      && op.Create? && op.resource == CampaignCriterion
      && op.payload.Keys == {"campaign", "language.language_constant"}
      && op.payload["campaign"] == Str(ResourceName(customerId, "campaigns", campaignId))
      && op.payload["language.language_constant"] == Str("languageConstants/" + IntToString(languageId))
  {
  }

  method BuildLanguageCriterionOperations(customerId: string, campaignId: string, languageIds: seq<int>)
    returns (ops: seq<MutateOperation>)
    ensures |ops| == |languageIds|
    ensures forall i :: 0 <= i < |languageIds| ==> ops[i] == LanguageOp(customerId, campaignId, languageIds[i])
  {
    ops := [];
    var i := 0;
    while i < |languageIds|
      invariant 0 <= i <= |languageIds| && |ops| == i
      invariant forall j :: 0 <= j < i ==> ops[j] == LanguageOp(customerId, campaignId, languageIds[j])
    {
      var op := LanguageOp(customerId, campaignId, languageIds[i]);
      ops := ops + [op];
      i := i + 1;
    }
  }

  /** A device bid adjustment on the campaign. */
  method BuildDeviceTargetingOperation(customerId: string, campaignId: string, device: string, bidModifier: real)
    returns (r: Result<MutateOperation, BuildError>)
    ensures r.Ok? <==> device in DeviceTypeToCriterion
    ensures r.Err? ==> r.error == LookupFailure("DEVICE_TYPE_TO_CRITERION", device)
    ensures r.Ok? ==> r.value == Create(CampaignCriterion, map[
      "campaign" := Str(ResourceName(customerId, "campaigns", campaignId)),
      "device.type_" := Int(DeviceTypeToCriterion[device]),
      "bid_modifier" := Real(bidModifier)])
  {
    var criterion: Message := map[];
    criterion := criterion["campaign" := Str(ResourceName(customerId, "campaigns", campaignId))];
    var deviceType :- Lookup(DeviceTypeToCriterion, "DEVICE_TYPE_TO_CRITERION", device);
    criterion := criterion["device.type_" := Int(deviceType)];
    criterion := criterion["bid_modifier" := Real(bidModifier)];
    r := Ok(Create(CampaignCriterion, criterion));
  }

  /** The criterion field a demographic dimension writes; an unknown
      dimension writes none. */
  function DemographicField(dimension: string): Option<string> {
    match dimension
    case "AGE" => Some("age_range.type_")
    case "GENDER" => Some("gender.type_")
    case "PARENTAL_STATUS" => Some("parental_status.type_")
    case "INCOME" => Some("income_range.type_")
    case _ => None
  }

  /** One demographic value on the campaign; the value is passed through by
      name, and the bid modifier only when given. */
  function DemographicOp(customerId: string, campaignId: string, dimension: string, value: string,
                         bidModifier: Option<real>): (op: MutateOperation)
    ensures op.Create? && op.resource == CampaignCriterion
    ensures "campaign" in op.payload && op.payload["campaign"] == Str(ResourceName(customerId, "campaigns", campaignId))
    ensures forall k :: k in op.payload ==>
      k == "campaign" || k == "bid_modifier" || Some(k) == DemographicField(dimension)
    ensures DemographicField(dimension).Some? ==>
      var field := DemographicField(dimension).value;
      field in op.payload && op.payload[field] == Str(value)
    ensures "bid_modifier" in op.payload <==> bidModifier.Some?
    ensures bidModifier.Some? ==> "bid_modifier" in op.payload && op.payload["bid_modifier"] == Real(bidModifier.value)
  {
    var m := map["campaign" := Str(ResourceName(customerId, "campaigns", campaignId))];
    var m := if DemographicField(dimension).Some? then m[DemographicField(dimension).value := Str(value)] else m;
    Create(CampaignCriterion, if bidModifier.Some? then m["bid_modifier" := Real(bidModifier.value)] else m)
  }

  method BuildDemographicTargetingOperations(customerId: string, campaignId: string, dimension: string,
                                             values: seq<string>, bidModifier: Option<real> := None)
    returns (ops: seq<MutateOperation>)
    ensures |ops| == |values|
    ensures forall i :: 0 <= i < |values| ==>
      ops[i] == DemographicOp(customerId, campaignId, dimension, values[i], bidModifier)
  {
    ops := [];
    var i := 0;
    while i < |values|
      invariant 0 <= i <= |values| && |ops| == i
      invariant forall j :: 0 <= j < i ==> ops[j] == DemographicOp(customerId, campaignId, dimension, values[j], bidModifier)
    {
      ops := ops + [DemographicOp(customerId, campaignId, dimension, values[i], bidModifier)];
      i := i + 1;
    }
  }

  /** Interest-based audience types reference a user-interest category,
      remarketing a user list; any other type references nothing. */
  method BuildAudienceSegmentOperation(customerId: string, campaignId: string, audienceType: string,
                                       audienceId: string, bidModifier: Option<real> := None)
    returns (op: MutateOperation)
    ensures op.Create? && op.resource == CampaignCriterion
    ensures "campaign" in op.payload && op.payload["campaign"] == Str(ResourceName(customerId, "campaigns", campaignId))
    ensures "user_interest.user_interest_category" in op.payload <==>
      audienceType in {"IN_MARKET", "AFFINITY", "CUSTOM_INTENT"}
    ensures "user_interest.user_interest_category" in op.payload ==>
      "user_interest.user_interest_category" in op.payload && op.payload["user_interest.user_interest_category"] == Str(ResourceName(customerId, "userInterests", audienceId))
    ensures "user_list.user_list" in op.payload <==> audienceType == "REMARKETING"
    ensures "user_list.user_list" in op.payload ==>
      "user_list.user_list" in op.payload && op.payload["user_list.user_list"] == Str(ResourceName(customerId, "userLists", audienceId))
    ensures "bid_modifier" in op.payload <==> bidModifier.Some?
    ensures bidModifier.Some? ==> "bid_modifier" in op.payload && op.payload["bid_modifier"] == Real(bidModifier.value)
    ensures forall k :: k in op.payload ==>
      k in {"campaign", "user_interest.user_interest_category", "user_list.user_list", "bid_modifier"}
  {
    var criterion: Message := map[];
    criterion := criterion["campaign" := Str(ResourceName(customerId, "campaigns", campaignId))];
    if audienceType in {"IN_MARKET", "AFFINITY", "CUSTOM_INTENT"} {
      criterion := criterion["user_interest.user_interest_category" :=
                               Str(ResourceName(customerId, "userInterests", audienceId))];
    } else if audienceType == "REMARKETING" {
      criterion := criterion["user_list.user_list" := Str(ResourceName(customerId, "userLists", audienceId))];
    }
    if bidModifier.Some? {
      criterion := criterion["bid_modifier" := Real(bidModifier.value)];
    }
    op := Create(CampaignCriterion, criterion);
  }

  /** The link of one asset to the asset group, or the first key that fails:
      the assignment's "asset_id", its "field_type", then the field-type
      table. */
  function AssetGroupAssetOp(customerId: string, assetGroupId: string, assignment: map<string, string>)
    : (r: Result<MutateOperation, BuildError>)
    ensures r.Ok? <==> "asset_id" in assignment && "field_type" in assignment
                       && assignment["field_type"] in AssetFieldTypeToEnum
    ensures "asset_id" !in assignment ==> r == Err(LookupFailure("assignment", "asset_id"))
    ensures r.Ok? ==> r.value == Create(AssetGroupAsset, map[
      "asset_group" := Str(ResourceName(customerId, "assetGroups", assetGroupId)),
      "asset" := Str(ResourceName(customerId, "assets", assignment["asset_id"])),
      "field_type" := Int(AssetFieldTypeToEnum[assignment["field_type"]])])
  {
    var assetId :- Lookup(assignment, "assignment", "asset_id");
    var fieldTypeName :- Lookup(assignment, "assignment", "field_type");
    var fieldType :- Lookup(AssetFieldTypeToEnum, "ASSET_FIELD_TYPE_TO_ENUM", fieldTypeName);
    Ok(Create(AssetGroupAsset, map[
      "asset_group" := Str(ResourceName(customerId, "assetGroups", assetGroupId)),
      "asset" := Str(ResourceName(customerId, "assets", assetId)),
      "field_type" := Int(fieldType)]))
  }

  /** The first assignment that fails aborts the whole list. */
  method BuildAssetGroupAssetOperations(customerId: string, assetGroupId: string,
                                        assets: seq<map<string, string>>)
    returns (r: Result<seq<MutateOperation>, BuildError>)
    ensures r.Ok? <==> forall i :: 0 <= i < |assets| ==> AssetGroupAssetOp(customerId, assetGroupId, assets[i]).Ok?
    ensures r.Ok? ==>
      && |r.value| == |assets|
      && forall i :: 0 <= i < |assets| ==> Ok(r.value[i]) == AssetGroupAssetOp(customerId, assetGroupId, assets[i])
    ensures r.Err? ==>
      exists i :: (0 <= i < |assets| &&
                   (forall j :: 0 <= j < i ==> AssetGroupAssetOp(customerId, assetGroupId, assets[j]).Ok?) &&
                   AssetGroupAssetOp(customerId, assetGroupId, assets[i]) == Err(r.error))
  {
    var ops: seq<MutateOperation> := [];
    var i := 0;
    while i < |assets|
      invariant 0 <= i <= |assets| && |ops| == i
      invariant forall j :: 0 <= j < i ==> Ok(ops[j]) == AssetGroupAssetOp(customerId, assetGroupId, assets[j])
    {
      var step := AssetGroupAssetOp(customerId, assetGroupId, assets[i]);
      if step.Err? {
        return Err(step.error);
      }
      ops := ops + [step.value];
      i := i + 1;
    }
    r := Ok(ops);
  }
}
