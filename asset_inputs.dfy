/** The input models of the asset tools: assets, asset groups and their
    asset links, display, video and Demand Gen ads, listing group filters
    and Merchant Center links. */
module AssetInputs {
  import opened Wrappers
  import opened Text
  import opened Common
  import opened Validation

  // ---- CreateAssetInput ----

  datatype CreateAssetInput = CreateAssetInput(
    customerId: string, assetType: string, name: string, textContent: Option<string> := None,
    imageUrl: Option<string> := None, youtubeVideoId: Option<string> := None,
    callToActionType: Option<string> := None)

  const TextRequiredMessage := "text_content is required for TEXT assets"
  const ImageRequiredMessage := "image_url is required for IMAGE assets"
  const ImageHttpsMessage := "image_url must be an HTTPS URL"
  const VideoRequiredMessage := "youtube_video_id is required for YOUTUBE_VIDEO assets"
  const VideoIdMessage := "youtube_video_id must be exactly 11 alphanumeric characters"
  const CallToActionRequiredMessage := "call_to_action_type is required for CALL_TO_ACTION assets"

  /** The type-specific rule: each type needs its own content field, an
      image an https URL and a video an 11-character id; MEDIA_BUNDLE needs
      nothing. */
  function CreateAssetRule(v: CreateAssetInput): (r: Option<string>)
    ensures r.None? <==>
      && (v.assetType == "TEXT" ==> Truthy(v.textContent))
      && (v.assetType == "IMAGE" ==> Truthy(v.imageUrl) && StartsWith(v.imageUrl.value, "https://"))
      && (v.assetType == "YOUTUBE_VIDEO" ==>
            Truthy(v.youtubeVideoId) && MatchesVideoIdPattern(v.youtubeVideoId.value))
      && (v.assetType == "CALL_TO_ACTION" ==> Truthy(v.callToActionType))
    ensures (v.assetType == "IMAGE" && !Truthy(v.imageUrl)) ==> r == Some(ImageRequiredMessage)
    ensures (v.assetType == "YOUTUBE_VIDEO" && !Truthy(v.youtubeVideoId)) ==> r == Some(VideoRequiredMessage)
  {
    if v.assetType == "TEXT" then
      if !Truthy(v.textContent) then Some(TextRequiredMessage) else None
    else if v.assetType == "IMAGE" then
      if !Truthy(v.imageUrl) then Some(ImageRequiredMessage)
      else if !StartsWith(v.imageUrl.value, "https://") then Some(ImageHttpsMessage)
      else None
    else if v.assetType == "YOUTUBE_VIDEO" then
      if !Truthy(v.youtubeVideoId) then Some(VideoRequiredMessage)
      else if !MatchesVideoIdPattern(v.youtubeVideoId.value) then Some(VideoIdMessage)
      else None
    else if v.assetType == "CALL_TO_ACTION" then
      if !Truthy(v.callToActionType) then Some(CallToActionRequiredMessage) else None
    else None
  }

  function ValidateCreateAsset(raw: CreateAssetInput): (r: Result<CreateAssetInput, ValidationError>)
    ensures r.Ok? <==>
      && ValidateCustomerId(raw.customerId).Ok? && raw.assetType in AssetTypeValues
      && CreateAssetRule(raw).None?
    ensures r.Ok? ==> r.value == raw.(customerId := CleanCustomerId(raw.customerId))
  {
    var errors := CustomerIdErrors(raw.customerId) + EnumErrors("asset_type", raw.assetType, AssetTypeValues);
    var v := raw.(customerId := CleanCustomerId(raw.customerId));
    Finish(errors, CreateAssetRule(v), v)
  }

  /** An image whose URL is present but not https is refused with the https
      message once the customer id is valid. */
  lemma NonHttpsImageRejected(raw: CreateAssetInput)
    requires ValidateCustomerId(raw.customerId).Ok? && raw.assetType == "IMAGE"
    requires Truthy(raw.imageUrl) && !StartsWith(raw.imageUrl.value, "https://")
    ensures ValidateCreateAsset(raw) == Err(ModelError(ImageHttpsMessage))
  {
    var errors := CustomerIdErrors(raw.customerId) + EnumErrors("asset_type", raw.assetType, AssetTypeValues);
    assert errors == [] by {
      assert "IMAGE" in AssetTypeValues;
    }
    var v := raw.(customerId := CleanCustomerId(raw.customerId));
    assert CreateAssetRule(v) == Some(ImageHttpsMessage) by {
      assert v.assetType == "IMAGE" && v.imageUrl == raw.imageUrl;
    }
  }

  /** A URL with the http scheme does not have the https prefix. */
  lemma HttpSchemeIsNotHttps(url: string)
    requires StartsWith(url, "http://")
    ensures !StartsWith(url, "https://")
  {
    assert url[4] == "http://"[4] == ':' && "https://"[4] == 's';
  }

  /** Every plain-http image URL is refused with the https message. */
  lemma HttpImageRejected(raw: CreateAssetInput)
    requires ValidateCustomerId(raw.customerId).Ok? && raw.assetType == "IMAGE"
    requires raw.imageUrl.Some? && StartsWith(raw.imageUrl.value, "http://")
    ensures ValidateCreateAsset(raw) == Err(ModelError(ImageHttpsMessage))
  {
    HttpSchemeIsNotHttps(raw.imageUrl.value);
    NonHttpsImageRejected(raw);
  }

  // ---- Asset groups and their assets ----

  datatype CreateAssetGroupInput = CreateAssetGroupInput(
    customerId: string, campaignId: string, name: string, finalUrls: seq<string>,
    finalMobileUrls: Option<seq<string>> := None, path1: Option<string> := None,
    path2: Option<string> := None)

  function ValidateCreateAssetGroup(raw: CreateAssetGroupInput)
    : (r: Result<CreateAssetGroupInput, ValidationError>)
    ensures r.Ok? <==> ValidateCustomerId(raw.customerId).Ok? && |raw.finalUrls| >= 1
    ensures r.Ok? ==> r.value == raw.(customerId := CleanCustomerId(raw.customerId))
  {
    var errors := CustomerIdErrors(raw.customerId) + LengthErrors("final_urls", |raw.finalUrls|, 1, None);
    Finish(errors, None, raw.(customerId := CleanCustomerId(raw.customerId)))
  }

  /** One asset link; a plain model with no customer id of its own. */
  datatype AssetAssignment = AssetAssignment(assetId: string, fieldType: string)

  /** The field-type errors of the assignments, located by list position. */
  function AssignmentErrors(assets: seq<AssetAssignment>, offset: nat): (r: seq<FieldError>)
    ensures r == [] <==> forall i :: 0 <= i < |assets| ==> assets[i].fieldType in AssetFieldTypeValues
    ensures |r| <= |assets|
  {
    if assets == [] then []
    else
      EnumErrors("assets." + IntToString(offset) + ".field_type", assets[0].fieldType, AssetFieldTypeValues)
      + AssignmentErrors(assets[1..], offset + 1)
  }

  datatype AddAssetGroupAssetsInput = AddAssetGroupAssetsInput(
    customerId: string, assetGroupId: string, assets: seq<AssetAssignment>)

  /** The errors of the `assets` list (`min_length=1, max_length=20`): past
      the maximum the list validator stops with one too_long error and the
      item errors are not reported; otherwise the item errors. */
  function AssetListErrors(assets: seq<AssetAssignment>): (r: seq<FieldError>)
    ensures r == [] <==>
      1 <= |assets| <= 20 && forall i :: 0 <= i < |assets| ==> assets[i].fieldType in AssetFieldTypeValues
    ensures |assets| > 20 ==> r == [FieldError("assets", TooLong(20))]
    ensures assets == [] ==> r == [FieldError("assets", TooShort(1))]
    ensures 1 <= |assets| <= 20 ==> r == AssignmentErrors(assets, 0)
  {
    if |assets| > 20 then [FieldError("assets", TooLong(20))]
    else AssignmentErrors(assets, 0) + LengthErrors("assets", |assets|, 1, Some(20))
  }

  function ValidateAddAssetGroupAssets(raw: AddAssetGroupAssetsInput)
    : (r: Result<AddAssetGroupAssetsInput, ValidationError>)
    ensures r.Ok? <==>
      && ValidateCustomerId(raw.customerId).Ok? && 1 <= |raw.assets| <= 20
      && forall i :: 0 <= i < |raw.assets| ==> raw.assets[i].fieldType in AssetFieldTypeValues
    ensures r.Ok? ==> r.value == raw.(customerId := CleanCustomerId(raw.customerId))
    ensures |raw.assets| > 20 ==>
      r == Err(FieldErrors(CustomerIdErrors(raw.customerId) + [FieldError("assets", TooLong(20))]))
    ensures raw.assets == [] ==>
      r == Err(FieldErrors(CustomerIdErrors(raw.customerId) + [FieldError("assets", TooShort(1))]))
    ensures 1 <= |raw.assets| <= 20 && r.Err? ==>
      r == Err(FieldErrors(CustomerIdErrors(raw.customerId) + AssignmentErrors(raw.assets, 0)))
  {
    var errors := CustomerIdErrors(raw.customerId) + AssetListErrors(raw.assets);
    Finish(errors, None, raw.(customerId := CleanCustomerId(raw.customerId)))
  }

  // ---- Ads ----

  datatype CreateResponsiveDisplayAdInput = CreateResponsiveDisplayAdInput(
    customerId: string, adGroupId: string, marketingImageAssetIds: seq<string>, headlines: seq<string>,
    longHeadline: string, descriptions: seq<string>, businessName: string, finalUrls: seq<string>,
    logoAssetIds: Option<seq<string>> := None, squareImageAssetIds: Option<seq<string>> := None)

  function ValidateCreateResponsiveDisplayAd(raw: CreateResponsiveDisplayAdInput)
    : (r: Result<CreateResponsiveDisplayAdInput, ValidationError>)
    ensures r.Ok? <==>
      && ValidateCustomerId(raw.customerId).Ok? && |raw.marketingImageAssetIds| >= 1
      && 1 <= |raw.headlines| <= 5 && 1 <= |raw.descriptions| <= 5 && |raw.finalUrls| >= 1
    ensures r.Ok? ==> r.value == raw.(customerId := CleanCustomerId(raw.customerId))
  {
    var errors := CustomerIdErrors(raw.customerId)
      + LengthErrors("marketing_image_asset_ids", |raw.marketingImageAssetIds|, 1, None)
      + LengthErrors("headlines", |raw.headlines|, 1, Some(5))
      + LengthErrors("descriptions", |raw.descriptions|, 1, Some(5))
      + LengthErrors("final_urls", |raw.finalUrls|, 1, None);
    Finish(errors, None, raw.(customerId := CleanCustomerId(raw.customerId)))
  }

  datatype CreateVideoAdInput = CreateVideoAdInput(
    customerId: string, adGroupId: string, videoAssetId: string, adFormat: string,
    headline: Option<string> := None, description: Option<string> := None,
    finalUrl: Option<string> := None, displayUrl: Option<string> := None,
    companionBannerAssetId: Option<string> := None)

  const HeadlineRequiredMessage := "headline is required for IN_STREAM ad formats"
  const FinalUrlRequiredMessage := "final_url is required for IN_STREAM ad formats"

  predicate IsInStreamFormat(format: string) {
    format == "IN_STREAM_SKIPPABLE" || format == "IN_STREAM_NON_SKIPPABLE"
  }

  /** Both in-stream formats are members of the format enum. */
  lemma InStreamFormatAllowed(format: string)
    requires IsInStreamFormat(format)
    ensures format in VideoAdFormatValues
  {
  }

  /** The video ad rule: in-stream formats need a headline and a final URL,
      the headline checked first; the other formats need neither. */
  function VideoAdRule(i: CreateVideoAdInput): (r: Option<string>)
    ensures r.None? <==> (IsInStreamFormat(i.adFormat) ==> Truthy(i.headline) && Truthy(i.finalUrl))
    ensures IsInStreamFormat(i.adFormat) && !Truthy(i.headline) ==> r == Some(HeadlineRequiredMessage)
    ensures IsInStreamFormat(i.adFormat) && Truthy(i.headline) && !Truthy(i.finalUrl)
            ==> r == Some(FinalUrlRequiredMessage)
  {
    if IsInStreamFormat(i.adFormat) && !Truthy(i.headline) then Some(HeadlineRequiredMessage)
    else if IsInStreamFormat(i.adFormat) && !Truthy(i.finalUrl) then Some(FinalUrlRequiredMessage)
    else None
  }

  function ValidateCreateVideoAd(raw: CreateVideoAdInput): (r: Result<CreateVideoAdInput, ValidationError>)
    ensures r.Ok? <==>
      && ValidateCustomerId(raw.customerId).Ok? && raw.adFormat in VideoAdFormatValues
      && (IsInStreamFormat(raw.adFormat) ==> Truthy(raw.headline) && Truthy(raw.finalUrl))
    ensures r.Ok? ==> r.value == raw.(customerId := CleanCustomerId(raw.customerId))
    ensures (ValidateCustomerId(raw.customerId).Ok? && IsInStreamFormat(raw.adFormat) && !Truthy(raw.headline))
            ==> r == Err(ModelError(HeadlineRequiredMessage))
    ensures (ValidateCustomerId(raw.customerId).Ok? && IsInStreamFormat(raw.adFormat) && Truthy(raw.headline)
             && !Truthy(raw.finalUrl)) ==> r == Err(ModelError(FinalUrlRequiredMessage))
  {
    var errors := CustomerIdErrors(raw.customerId) + EnumErrors("ad_format", raw.adFormat, VideoAdFormatValues);
    var v := raw.(customerId := CleanCustomerId(raw.customerId));
    if IsInStreamFormat(raw.adFormat) then InStreamFormatAllowed(raw.adFormat); Finish(errors, VideoAdRule(v), v)
    else Finish(errors, VideoAdRule(v), v)
  }

  datatype CreateDemandGenAdInput = CreateDemandGenAdInput(
    customerId: string, adGroupId: string, headlines: seq<string>, descriptions: seq<string>,
    marketingImageAssetIds: seq<string>, logoAssetId: string, businessName: string,
    finalUrls: seq<string>, callToAction: Option<string> := None)

  function ValidateCreateDemandGenAd(raw: CreateDemandGenAdInput)
    : (r: Result<CreateDemandGenAdInput, ValidationError>)
    ensures r.Ok? <==>
      && ValidateCustomerId(raw.customerId).Ok?
      && 1 <= |raw.headlines| <= 5 && 1 <= |raw.descriptions| <= 5
      && |raw.marketingImageAssetIds| >= 1 && |raw.finalUrls| >= 1
    ensures r.Ok? ==> r.value == raw.(customerId := CleanCustomerId(raw.customerId))
  {
    var errors := CustomerIdErrors(raw.customerId)
      + LengthErrors("headlines", |raw.headlines|, 1, Some(5))
      + LengthErrors("descriptions", |raw.descriptions|, 1, Some(5))
      + LengthErrors("marketing_image_asset_ids", |raw.marketingImageAssetIds|, 1, None)
      + LengthErrors("final_urls", |raw.finalUrls|, 1, None);
    Finish(errors, None, raw.(customerId := CleanCustomerId(raw.customerId)))
  }

  // ---- Shopping ----

  /** The filter type is free text here; only the dimension is an enum. */
  datatype SetListingGroupFilterInput = SetListingGroupFilterInput(
    customerId: string, assetGroupId: string, filterType: string, dimension: string,
    value: Option<string> := None, parentFilterId: Option<string> := None)

  function ValidateSetListingGroupFilter(raw: SetListingGroupFilterInput)
    : (r: Result<SetListingGroupFilterInput, ValidationError>)
    ensures r.Ok? <==> ValidateCustomerId(raw.customerId).Ok? && raw.dimension in ListingGroupDimensionValues
    ensures r.Ok? ==> r.value == raw.(customerId := CleanCustomerId(raw.customerId))
  {
    var errors := CustomerIdErrors(raw.customerId)
      + EnumErrors("dimension", raw.dimension, ListingGroupDimensionValues);
    Finish(errors, None, raw.(customerId := CleanCustomerId(raw.customerId)))
  }

  datatype LinkMerchantCenterInput = LinkMerchantCenterInput(
    customerId: string, campaignId: string, merchantId: string, feedLabel: Option<string> := None,
    salesCountry: Option<string> := None)

  function ValidateLinkMerchantCenter(raw: LinkMerchantCenterInput)
    : (r: Result<LinkMerchantCenterInput, ValidationError>)
    ensures r.Ok? <==> ValidateCustomerId(raw.customerId).Ok?
    ensures r.Ok? ==> r.value == raw.(customerId := CleanCustomerId(raw.customerId))
    ensures r.Err? ==> r.error.FieldErrors? && |r.error.errors| == 1 && r.error.errors[0].loc == "customer_id"
  {
    var errors := CustomerIdErrors(raw.customerId);
    Finish(errors, None, raw.(customerId := CleanCustomerId(raw.customerId)))
  }
}
