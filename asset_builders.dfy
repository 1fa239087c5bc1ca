/** The builders of asset, asset-group, extension-asset and listing-group
    filter creates. */
module AssetBuilders {
  import opened Wrappers
  import opened Text
  import opened Operations

  /** The content field an asset type writes, or None for a type that
      writes no content. */
  function AssetContentField(assetType: string): Option<string> {
    match assetType
    case "TEXT" => Some("text_asset.text")
    case "YOUTUBE_VIDEO" => Some("youtube_video_asset.youtube_video_id")
    case "CALL_TO_ACTION" => Some("call_to_action_asset.call_to_action")
    case _ => None
  }

  /** The content argument an asset type reads. */
  function ContentOf(assetType: string, textContent: Option<string>, youtubeVideoId: Option<string>,
                     callToActionType: Option<string>): Option<string>
  {
    match assetType
    case "TEXT" => textContent
    case "YOUTUBE_VIDEO" => youtubeVideoId
    case _ => callToActionType
  }

  /** What a created asset holds: its name and type enum, then the content
      matching its type, an absent content leaving the field unset; an
      image records its bytes and their size, 0 when there are none. */
  ghost predicate IsAssetPayload(m: Message, assetType: string, assetEnum: int, name: string,
                                 textContent: Option<string>, imageData: Option<seq<bv8>>,
                                 youtubeVideoId: Option<string>, callToActionType: Option<string>)
  {
    && Holds(m, "name", Str(name))
    && Holds(m, "type_", Int(assetEnum))
    && (AssetContentField(assetType).Some? ==>
          var content := ContentOf(assetType, textContent, youtubeVideoId, callToActionType);
          m == map["name" := Str(name), "type_" := Int(assetEnum)]
               + (if content.Some? then map[AssetContentField(assetType).value := Str(content.value)] else map[]))
    && (assetType == "IMAGE" ==>
          && Holds(m, "image_asset.file_size", Int(if imageData.Some? then |imageData.value| else 0))
          && ("image_asset.data" in m <==> imageData.Some?)
          && (imageData.Some? ==> m["image_asset.data"] == Bytes(imageData.value))
          && m.Keys <= {"name", "type_", "image_asset.data", "image_asset.file_size"})
    && (assetType != "IMAGE" && AssetContentField(assetType).None? ==> m.Keys == {"name", "type_"})
  }

  /** The asset message once its type enum is known. */
  method BuildAssetPayload(assetType: string, assetEnum: int, name: string, textContent: Option<string>,
                           imageData: Option<seq<bv8>>, youtubeVideoId: Option<string>,
                           callToActionType: Option<string>)
    returns (asset: Message)
    ensures IsAssetPayload(asset, assetType, assetEnum, name, textContent, imageData, youtubeVideoId,
                           callToActionType)
  {
    asset := map[];
    asset := asset["name" := Str(name)];
    asset := asset["type_" := Int(assetEnum)];
    ghost var base := asset;
    if assetType == "TEXT" {
      asset := WriteContent(asset, "text_asset.text", textContent);
      ContentTypePayload(asset, base, assetType, assetEnum, name, textContent, imageData, youtubeVideoId,
                         callToActionType);
    } else if assetType == "IMAGE" {
      asset := WriteImage(asset, imageData);
    } else if assetType == "YOUTUBE_VIDEO" {
      asset := WriteContent(asset, "youtube_video_asset.youtube_video_id", youtubeVideoId);
      ContentTypePayload(asset, base, assetType, assetEnum, name, textContent, imageData, youtubeVideoId,
                         callToActionType);
    } else if assetType == "CALL_TO_ACTION" {
      asset := WriteContent(asset, "call_to_action_asset.call_to_action", callToActionType);
      ContentTypePayload(asset, base, assetType, assetEnum, name, textContent, imageData, youtubeVideoId,
                         callToActionType);
    }
  }

  /** A content-type asset is the name and type plus its one content field. */
  lemma ContentTypePayload(m: Message, base: Message, assetType: string, assetEnum: int, name: string,
                           textContent: Option<string>, imageData: Option<seq<bv8>>,
                           youtubeVideoId: Option<string>, callToActionType: Option<string>)
    requires AssetContentField(assetType).Some?
    requires base == map["name" := Str(name), "type_" := Int(assetEnum)]
    requires var content := ContentOf(assetType, textContent, youtubeVideoId, callToActionType);
      m == base + (if content.Some? then map[AssetContentField(assetType).value := Str(content.value)] else map[])
    ensures IsAssetPayload(m, assetType, assetEnum, name, textContent, imageData, youtubeVideoId, callToActionType)
  {
    var field := AssetContentField(assetType).value;
    assert field != "name" && field != "type_";
  }

  /** One optional string content field written onto a fresh asset. */
  method WriteContent(asset: Message, field: string, content: Option<string>) returns (asset': Message)
    requires field !in asset
    ensures asset' == asset + (if content.Some? then map[field := Str(content.value)] else map[])
  {
    asset' := Assign(asset, field, OptStr(content));
  }

  /** The image branch: the bytes when given, then their size. */
  method WriteImage(asset: Message, imageData: Option<seq<bv8>>) returns (asset': Message)
    requires "image_asset.data" !in asset
    ensures Holds(asset', "image_asset.file_size", Int(if imageData.Some? then |imageData.value| else 0))
    ensures "image_asset.data" in asset' <==> imageData.Some?
    ensures imageData.Some? ==> asset'["image_asset.data"] == Bytes(imageData.value)
    ensures asset'.Keys == asset.Keys + {"image_asset.file_size"}
                           + (if imageData.Some? then {"image_asset.data"} else {})
    ensures forall k :: k in asset && k != "image_asset.file_size" ==> asset'[k] == asset[k]
  {
    asset' := Assign(asset, "image_asset.data", if imageData.Some? then Some(Bytes(imageData.value)) else None);
    asset' := asset'["image_asset.file_size" := Int(if imageData.Some? && |imageData.value| > 0
                                                   then |imageData.value| else 0)];
  }

  /** An asset create for a known asset type; an unknown type fails the
      ASSET_TYPE_TO_ENUM lookup. */
  method BuildCreateAssetOperation(customerId: string, assetType: string, name: string,
                                   textContent: Option<string> := None, imageData: Option<seq<bv8>> := None,
                                   youtubeVideoId: Option<string> := None,
                                   callToActionType: Option<string> := None)
    returns (r: Result<MutateOperation, BuildError>)
    ensures r.Ok? <==> assetType in AssetTypeToEnum
    ensures r.Err? ==> r.error == LookupFailure("ASSET_TYPE_TO_ENUM", assetType)
    ensures r.Ok? ==> r.value.Create? && r.value.resource == Asset
    ensures r.Ok? ==> IsAssetPayload(r.value.payload, assetType, AssetTypeToEnum[assetType], name, textContent,
                                     imageData, youtubeVideoId, callToActionType)
  {
    var assetEnum :- Lookup(AssetTypeToEnum, "ASSET_TYPE_TO_ENUM", assetType);
    var asset := BuildAssetPayload(assetType, assetEnum, name, textContent, imageData, youtubeVideoId,
                                   callToActionType);
    r := Ok(Create(Asset, asset));
  }

  const AssetGroupFields: set<string> := {"name", "campaign", "final_urls", "status"}

  /** The asset group is created enabled; mobile URLs only when the list is
      non-empty, the paths whenever given. */
  method BuildCreateAssetGroupOperation(customerId: string, campaignId: string, name: string,
                                        finalUrls: seq<string>, finalMobileUrls: Option<seq<string>> := None,
                                        path1: Option<string> := None, path2: Option<string> := None)
    returns (op: MutateOperation)
    ensures op.Create? && op.resource == AssetGroup
    ensures op.payload.Keys == AssetGroupFields
      + (if TruthyList(finalMobileUrls) then {"final_mobile_urls"} else {})
      + (if path1.Some? then {"path1"} else {})
      + (if path2.Some? then {"path2"} else {})
    ensures Holds(op.payload, "name", Str(name))
    ensures Holds(op.payload, "campaign", Str(ResourceName(customerId, "campaigns", campaignId)))
    ensures Holds(op.payload, "final_urls", StrList(finalUrls))
    ensures Holds(op.payload, "status", Int(StatusToEnum["enable"]))
    ensures TruthyList(finalMobileUrls) ==> Holds(op.payload, "final_mobile_urls", StrList(finalMobileUrls.value))
    ensures path1.Some? ==> Holds(op.payload, "path1", Str(path1.value))
    ensures path2.Some? ==> Holds(op.payload, "path2", Str(path2.value))
  {
    var group: Message := map[];
    group := group["name" := Str(name)];
    group := group["campaign" := Str(ResourceName(customerId, "campaigns", campaignId))];
    group := group["final_urls" := StrList(finalUrls)];
    group := group["status" := Int(StatusToEnum["enable"])];
    if TruthyList(finalMobileUrls) {
      group := group["final_mobile_urls" := StrList(finalMobileUrls.value)];
    }
    if path1.Some? {
      group := group["path1" := Str(path1.value)];
    }
    if path2.Some? {
      group := group["path2" := Str(path2.value)];
    }
    op := Create(AssetGroup, group);
  }

  /** The arguments of an extension asset, of which each type reads some. */
  datatype ExtensionArgs = ExtensionArgs(
    linkText: Option<string>, finalUrls: Option<seq<string>>,
    description1: Option<string>, description2: Option<string>,
    calloutText: Option<string>, phoneNumber: Option<string>, countryCode: Option<string>,
    snippetHeader: Option<string>, snippetValues: Option<seq<string>>)

  /** The prefix of every field an extension type writes. */
  function ExtensionPrefix(extensionType: string): Option<string> {
    match extensionType
    case "SITELINK" => Some("sitelink_asset.")
    case "CALLOUT" => Some("callout_asset.")
    case "CALL" => Some("call_asset.")
    case "STRUCTURED_SNIPPET" => Some("structured_snippet_asset.")
    case _ => None
  }

  /** The asset carries only the fields of its own extension type; for an
      unknown type it is empty. The customer and campaign arguments are not
      used: the asset is not linked to the campaign. */
  method BuildCreateExtensionOperation(customerId: string, campaignId: string, extensionType: string,
                                       args: ExtensionArgs)
    returns (op: MutateOperation)
    ensures op.Create? && op.resource == Asset
    ensures ExtensionPrefix(extensionType).None? ==> op.payload == map[]
    ensures extensionType == "SITELINK" ==>
      && op.payload.Keys == (if args.linkText.Some? then {"sitelink_asset.link_text"} else {})
                            + {"sitelink_asset.final_urls"}
                            + (if Truthy(args.description1) then {"sitelink_asset.description1"} else {})
                            + (if Truthy(args.description2) then {"sitelink_asset.description2"} else {})
      && (args.linkText.Some? ==> op.payload["sitelink_asset.link_text"] == Str(args.linkText.value))
      && op.payload["sitelink_asset.final_urls"] == StrList(args.finalUrls.GetOr([]))
      && (Truthy(args.description1) ==> op.payload["sitelink_asset.description1"] == Str(args.description1.value))
      && (Truthy(args.description2) ==> op.payload["sitelink_asset.description2"] == Str(args.description2.value))
    ensures extensionType == "CALLOUT" ==>
      op.payload == Assign(map[], "callout_asset.callout_text", OptStr(args.calloutText))
    ensures extensionType == "CALL" ==>
      op.payload == Assign(Assign(map[], "call_asset.phone_number", OptStr(args.phoneNumber)),
                           "call_asset.country_code", OptStr(args.countryCode))
    ensures extensionType == "STRUCTURED_SNIPPET" ==>
      op.payload == Assign(map[], "structured_snippet_asset.header", OptStr(args.snippetHeader))
                      ["structured_snippet_asset.values" := StrList(args.snippetValues.GetOr([]))]
  {
    var asset: Message := map[];
    if extensionType == "SITELINK" {
      asset := Assign(asset, "sitelink_asset.link_text", OptStr(args.linkText));
      asset := asset["sitelink_asset.final_urls" := StrList(args.finalUrls.GetOr([]))];
      if Truthy(args.description1) {
        asset := asset["sitelink_asset.description1" := Str(args.description1.value)];
      }
      if Truthy(args.description2) {
        asset := asset["sitelink_asset.description2" := Str(args.description2.value)];
      }
    } else if extensionType == "CALLOUT" {
      asset := Assign(asset, "callout_asset.callout_text", OptStr(args.calloutText));
    } else if extensionType == "CALL" {
      asset := Assign(asset, "call_asset.phone_number", OptStr(args.phoneNumber));
      asset := Assign(asset, "call_asset.country_code", OptStr(args.countryCode));
    } else if extensionType == "STRUCTURED_SNIPPET" {
      asset := Assign(asset, "structured_snippet_asset.header", OptStr(args.snippetHeader));
      asset := asset["structured_snippet_asset.values" := StrList(args.snippetValues.GetOr([]))];
    }
    op := Create(Asset, asset);
  }

  /** Python's `int(value) if value.isdigit() else 0` for the category id. */
  function CategoryId(value: string): (id: nat)
    ensures !AllDigits(value) ==> id == 0
  {
    if AllDigits(value) then DigitsValue(value) else 0
  }

  /** A category id written in decimal is read back as itself. */
  lemma CategoryIdRoundTrip(n: nat)
    ensures CategoryId(NatToString(n)) == n
  {
    NatToStringRoundTrip(n);
  }

  /** The case-value fields a dimension writes for a given value: the
      product-category, product-type and custom-label dimensions are matched
      by prefix and record the dimension itself as the level or index. */
  function CaseValueFields(dimension: string, value: string): (m: Message)
    ensures StartsWith(dimension, "CATEGORY") ==>
      m == map["case_value.product_category.category_id" := Int(CategoryId(value)),
               "case_value.product_category.level" := Str(dimension)]
    ensures !StartsWith(dimension, "CATEGORY") && StartsWith(dimension, "PRODUCT_TYPE") ==>
      m == map["case_value.product_type.value" := Str(value), "case_value.product_type.level" := Str(dimension)]
    ensures !StartsWith(dimension, "CATEGORY") && !StartsWith(dimension, "PRODUCT_TYPE")
            && StartsWith(dimension, "CUSTOM_LABEL") ==>
      m == map["case_value.product_custom_attribute.value" := Str(value),
               "case_value.product_custom_attribute.index" := Str(dimension)]
    ensures dimension == "BRAND" ==> m == map["case_value.product_brand.value" := Str(value)]
    ensures dimension == "ITEM_ID" ==> m == map["case_value.product_item_id.value" := Str(value)]
    ensures dimension == "CONDITION" ==> m == map["case_value.product_condition.condition" := Str(value)]
    ensures (!StartsWith(dimension, "CATEGORY") && !StartsWith(dimension, "PRODUCT_TYPE")
             && !StartsWith(dimension, "CUSTOM_LABEL") && dimension !in {"BRAND", "ITEM_ID", "CONDITION"})
            ==> m == map[]
  {
    assert !StartsWith("CONDITION", "CATEGORY") by {
      assert "CONDITION"[1] != "CATEGORY"[1];
    }
    if StartsWith(dimension, "CATEGORY") then
      map["case_value.product_category.category_id" := Int(CategoryId(value)),
          "case_value.product_category.level" := Str(dimension)]
    else if StartsWith(dimension, "PRODUCT_TYPE") then
      map["case_value.product_type.value" := Str(value), "case_value.product_type.level" := Str(dimension)]
    else if StartsWith(dimension, "CUSTOM_LABEL") then
      map["case_value.product_custom_attribute.value" := Str(value),
          "case_value.product_custom_attribute.index" := Str(dimension)]
    else if dimension == "BRAND" then map["case_value.product_brand.value" := Str(value)]
    else if dimension == "ITEM_ID" then map["case_value.product_item_id.value" := Str(value)]
    else if dimension == "CONDITION" then map["case_value.product_condition.condition" := Str(value)]
    else map[]
  }

  /** The filter belongs to the asset group and has the looked-up type; it
      names its parent only for a non-empty parent id, and carries a case
      value only when a value is given. */
  method BuildListingGroupFilterOperation(customerId: string, assetGroupId: string, filterType: string,
                                          dimension: string, value: Option<string> := None,
                                          parentFilterId: Option<string> := None)
    returns (r: Result<MutateOperation, BuildError>)
    ensures r.Ok? <==> filterType in ListingGroupFilterTypeToEnum
    ensures r.Err? ==> r.error == LookupFailure("LISTING_GROUP_FILTER_TYPE_TO_ENUM", filterType)
    ensures r.Ok? ==>
      var base := map[
        "asset_group" := Str(ResourceName(customerId, "assetGroups", assetGroupId)),
        "type_" := Int(ListingGroupFilterTypeToEnum[filterType])];
      var withParent := if Truthy(parentFilterId) then
                          base["parent_listing_group_filter" :=
                                 Str(ResourceName(customerId, "assetGroupListingGroupFilters", parentFilterId.value))]
                        else base;
      r.value == Create(AssetGroupListingGroupFilter,
                        if value.Some? then withParent + CaseValueFields(dimension, value.value) else withParent)
  {
    var filter: Message := map[];
    filter := filter["asset_group" := Str(ResourceName(customerId, "assetGroups", assetGroupId))];
    var filterEnum :- Lookup(ListingGroupFilterTypeToEnum, "LISTING_GROUP_FILTER_TYPE_TO_ENUM", filterType);
    filter := filter["type_" := Int(filterEnum)];
    if Truthy(parentFilterId) {
      filter := filter["parent_listing_group_filter" :=
                         Str(ResourceName(customerId, "assetGroupListingGroupFilters", parentFilterId.value))];
    }
    if value.Some? {
      filter := filter + CaseValueFields(dimension, value.value);
    }
    r := Ok(Create(AssetGroupListingGroupFilter, filter));
  }
}
