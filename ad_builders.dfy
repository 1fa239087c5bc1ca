/** The builders of ad creates: responsive search, responsive display,
    video and Demand Gen ads. Every ad is created enabled in its ad group;
    nested text and image assets are lists of small messages in input
    order. */
module AdBuilders {
  import opened Wrappers
  import opened Text
  import opened Operations

  /** One AdTextAsset per text. */
  function TextAssets(texts: seq<string>): seq<Message> {
    seq(|texts|, i requires 0 <= i < |texts| => TextAsset(texts[i]))
  }

  /** One AdImageAsset per asset id, each naming the asset resource. */
  function ImageAssets(customerId: string, ids: seq<string>): seq<Message> {
    seq(|ids|, i requires 0 <= i < |ids| => ImageAsset(ResourceName(customerId, "assets", ids[i])))
  }

  /** Reads the texts back out of a list of AdTextAssets; None when one of
      them has no text. */
  function Texts(assets: seq<Message>): (r: Option<seq<string>>)
    ensures r.Some? ==> |r.value| == |assets|
  {
    if assets == [] then Some([])
    else if "text" in assets[0] && assets[0]["text"].Str? then
      match Texts(assets[1..])
      case Some(rest) => Some([assets[0]["text"].s] + rest)
      case None => None
    else None
  }

  /** The text assets keep every text, in order. */
  lemma {:induction false} TextAssetsRoundTrip(texts: seq<string>)
    ensures Texts(TextAssets(texts)) == Some(texts)
  {
    if texts != [] {
      var assets := TextAssets(texts);
      TextAssetsRoundTrip(texts[1..]);
      assert assets[0] == TextAsset(texts[0]);
      assert assets[1..] == TextAssets(texts[1..]);
      assert [texts[0]] + texts[1..] == texts;
    }
  }

  /** The loop that appends one AdTextAsset per text. */
  method CollectTextAssets(texts: seq<string>) returns (assets: seq<Message>)
    ensures assets == TextAssets(texts)
  {
    assets := [];
    var i := 0;
    while i < |texts|
      invariant 0 <= i <= |texts| && |assets| == i
      invariant forall j :: 0 <= j < i ==> assets[j] == TextAsset(texts[j])
    {
      assets := assets + [TextAsset(texts[i])];
      i := i + 1;
    }
  }

  /** The loop that appends one AdImageAsset per asset id. */
  method CollectImageAssets(customerId: string, ids: seq<string>) returns (assets: seq<Message>)
    ensures assets == ImageAssets(customerId, ids)
  {
    assets := [];
    var i := 0;
    while i < |ids|
      invariant 0 <= i <= |ids| && |assets| == i
      invariant forall j :: 0 <= j < i ==> assets[j] == ImageAsset(ResourceName(customerId, "assets", ids[j]))
    {
      assets := assets + [ImageAsset(ResourceName(customerId, "assets", ids[i]))];
      i := i + 1;
    }
  }

  /** The fields every ad create starts with. */
  predicate EnabledIn(m: Message, customerId: string, adGroupId: string) {
    && Holds(m, "ad_group", Str(ResourceName(customerId, "adGroups", adGroupId)))
    && Holds(m, "status", Int(StatusToEnum["enable"]))
  }

  const RsaFields: set<string> := {
    "ad_group", "status", "ad.final_urls",
    "ad.responsive_search_ad.headlines", "ad.responsive_search_ad.descriptions"}

  method BuildCreateRsaOperation(customerId: string, adGroupId: string, headlines: seq<string>,
                                 descriptions: seq<string>, finalUrls: seq<string>,
                                 path1: Option<string> := None, path2: Option<string> := None)
    returns (op: MutateOperation)
    ensures op.Create? && op.resource == AdGroupAd
    ensures op.payload.Keys == RsaFields
      + (if path1.Some? then {"ad.responsive_search_ad.path1"} else {})
      + (if path2.Some? then {"ad.responsive_search_ad.path2"} else {})
    ensures EnabledIn(op.payload, customerId, adGroupId)
    ensures Holds(op.payload, "ad.final_urls", StrList(finalUrls))
    ensures Holds(op.payload, "ad.responsive_search_ad.headlines", MsgList(TextAssets(headlines)))
    ensures Holds(op.payload, "ad.responsive_search_ad.descriptions", MsgList(TextAssets(descriptions)))
    ensures path1.Some? ==> Holds(op.payload, "ad.responsive_search_ad.path1", Str(path1.value))
    ensures path2.Some? ==> Holds(op.payload, "ad.responsive_search_ad.path2", Str(path2.value))
  {
    var ad: Message := map[];
    ad := ad["ad_group" := Str(ResourceName(customerId, "adGroups", adGroupId))];
    ad := ad["status" := Int(StatusToEnum["enable"])];
    ad := ad["ad.final_urls" := StrList(finalUrls)];
    var headlineAssets := CollectTextAssets(headlines);
    ad := ad["ad.responsive_search_ad.headlines" := MsgList(headlineAssets)];
    var descriptionAssets := CollectTextAssets(descriptions);
    ad := ad["ad.responsive_search_ad.descriptions" := MsgList(descriptionAssets)];
    if path1.Some? {
      ad := ad["ad.responsive_search_ad.path1" := Str(path1.value)];
    }
    if path2.Some? {
      ad := ad["ad.responsive_search_ad.path2" := Str(path2.value)];
    }
    op := Create(AdGroupAd, ad);
  }

  const RdaFields: set<string> := {
    "ad_group", "status", "ad.final_urls", "ad.responsive_display_ad.marketing_images",
    "ad.responsive_display_ad.headlines", "ad.responsive_display_ad.long_headline.text",
    "ad.responsive_display_ad.descriptions", "ad.responsive_display_ad.business_name"}

  /** The payload of a responsive display ad: the common fields, the
      marketing images, the square images and logos when their lists are
      non-empty, then the text fields. */
  function DisplayAdPayload(customerId: string, adGroupId: string, marketingImageAssetIds: seq<string>,
                            headlines: seq<string>, longHeadline: string, descriptions: seq<string>,
                            businessName: string, finalUrls: seq<string>, logoAssetIds: Option<seq<string>>,
                            squareImageAssetIds: Option<seq<string>>): Message
  {
    var ad: Message := map[
      "ad_group" := Str(ResourceName(customerId, "adGroups", adGroupId)),
      "status" := Int(StatusToEnum["enable"]),
      "ad.final_urls" := StrList(finalUrls),
      "ad.responsive_display_ad.marketing_images" := MsgList(ImageAssets(customerId, marketingImageAssetIds))];
    var ad := if TruthyList(squareImageAssetIds) then
      ad["ad.responsive_display_ad.square_marketing_images" := MsgList(ImageAssets(customerId, squareImageAssetIds.value))]
      else ad;
    var ad := if TruthyList(logoAssetIds) then
      ad["ad.responsive_display_ad.logo_images" := MsgList(ImageAssets(customerId, logoAssetIds.value))]
      else ad;
    ad["ad.responsive_display_ad.headlines" := MsgList(TextAssets(headlines))]
      ["ad.responsive_display_ad.long_headline.text" := Str(longHeadline)]
      ["ad.responsive_display_ad.descriptions" := MsgList(TextAssets(descriptions))]
      ["ad.responsive_display_ad.business_name" := Str(businessName)]
  }

  /** The display ad holds its eight fixed fields, plus square images and
      logos exactly when their lists are non-empty. */
  lemma DisplayAdKeys(customerId: string, adGroupId: string, marketingImageAssetIds: seq<string>,
                      headlines: seq<string>, longHeadline: string, descriptions: seq<string>,
                      businessName: string, finalUrls: seq<string>, logoAssetIds: Option<seq<string>>,
                      squareImageAssetIds: Option<seq<string>>)
    ensures DisplayAdPayload(customerId, adGroupId, marketingImageAssetIds, headlines, longHeadline, descriptions,
                             businessName, finalUrls, logoAssetIds, squareImageAssetIds).Keys
      == RdaFields
      + (if TruthyList(squareImageAssetIds) then {"ad.responsive_display_ad.square_marketing_images"} else {})
      + (if TruthyList(logoAssetIds) then {"ad.responsive_display_ad.logo_images"} else {})
  {
  }

  /** The display ad is enabled in its ad group and carries the final URLs. */
  lemma DisplayAdEnabled(customerId: string, adGroupId: string, marketingImageAssetIds: seq<string>,
                         headlines: seq<string>, longHeadline: string, descriptions: seq<string>,
                         businessName: string, finalUrls: seq<string>, logoAssetIds: Option<seq<string>>,
                         squareImageAssetIds: Option<seq<string>>)
    ensures var m := DisplayAdPayload(customerId, adGroupId, marketingImageAssetIds, headlines, longHeadline,
                                      descriptions, businessName, finalUrls, logoAssetIds, squareImageAssetIds);
      EnabledIn(m, customerId, adGroupId) && Holds(m, "ad.final_urls", StrList(finalUrls))
  {
  }

  /** The display ad carries one image asset per id in each image list, in
      order. */
  lemma DisplayAdImages(customerId: string, adGroupId: string, marketingImageAssetIds: seq<string>,
                        headlines: seq<string>, longHeadline: string, descriptions: seq<string>,
                        businessName: string, finalUrls: seq<string>, logoAssetIds: Option<seq<string>>,
                        squareImageAssetIds: Option<seq<string>>)
    ensures var m := DisplayAdPayload(customerId, adGroupId, marketingImageAssetIds, headlines, longHeadline,
                                      descriptions, businessName, finalUrls, logoAssetIds, squareImageAssetIds);
      && Holds(m, "ad.responsive_display_ad.marketing_images", MsgList(ImageAssets(customerId, marketingImageAssetIds)))
      && (TruthyList(squareImageAssetIds) ==>
            Holds(m, "ad.responsive_display_ad.square_marketing_images",
                  MsgList(ImageAssets(customerId, squareImageAssetIds.value))))
      && (TruthyList(logoAssetIds) ==>
            Holds(m, "ad.responsive_display_ad.logo_images", MsgList(ImageAssets(customerId, logoAssetIds.value))))
  {
  }

  /** The display ad carries one text asset per headline and per
      description, in order, and the long headline and business name. */
  lemma DisplayAdTexts(customerId: string, adGroupId: string, marketingImageAssetIds: seq<string>,
                       headlines: seq<string>, longHeadline: string, descriptions: seq<string>,
                       businessName: string, finalUrls: seq<string>, logoAssetIds: Option<seq<string>>,
                       squareImageAssetIds: Option<seq<string>>)
    ensures var m := DisplayAdPayload(customerId, adGroupId, marketingImageAssetIds, headlines, longHeadline,
                                      descriptions, businessName, finalUrls, logoAssetIds, squareImageAssetIds);
      && Holds(m, "ad.responsive_display_ad.headlines", MsgList(TextAssets(headlines)))
      && Holds(m, "ad.responsive_display_ad.long_headline.text", Str(longHeadline))
      && Holds(m, "ad.responsive_display_ad.descriptions", MsgList(TextAssets(descriptions)))
      && Holds(m, "ad.responsive_display_ad.business_name", Str(businessName))
  {
  }

  /** Square images and logos are written only when the lists are non-empty. */
  method BuildResponsiveDisplayAdOperation(customerId: string, adGroupId: string,
                                           marketingImageAssetIds: seq<string>, headlines: seq<string>,
                                           longHeadline: string, descriptions: seq<string>,
                                           businessName: string, finalUrls: seq<string>,
                                           logoAssetIds: Option<seq<string>> := None,
                                           squareImageAssetIds: Option<seq<string>> := None)
    returns (op: MutateOperation)
    ensures op == Create(AdGroupAd, DisplayAdPayload(customerId, adGroupId, marketingImageAssetIds, headlines,
      longHeadline, descriptions, businessName, finalUrls, logoAssetIds, squareImageAssetIds))
  {
    var ad: Message := map[];
    ad := ad["ad_group" := Str(ResourceName(customerId, "adGroups", adGroupId))];
    ad := ad["status" := Int(StatusToEnum["enable"])];
    ad := ad["ad.final_urls" := StrList(finalUrls)];
    var images := CollectImageAssets(customerId, marketingImageAssetIds);
    ad := ad["ad.responsive_display_ad.marketing_images" := MsgList(images)];
    if TruthyList(squareImageAssetIds) {
      var squares := CollectImageAssets(customerId, squareImageAssetIds.value);
      ad := ad["ad.responsive_display_ad.square_marketing_images" := MsgList(squares)];
    }
    if TruthyList(logoAssetIds) {
      var logos := CollectImageAssets(customerId, logoAssetIds.value);
      ad := ad["ad.responsive_display_ad.logo_images" := MsgList(logos)];
    }
    var headlineAssets := CollectTextAssets(headlines);
    ad := ad["ad.responsive_display_ad.headlines" := MsgList(headlineAssets)];
    ad := ad["ad.responsive_display_ad.long_headline.text" := Str(longHeadline)];
    var descriptionAssets := CollectTextAssets(descriptions);
    ad := ad["ad.responsive_display_ad.descriptions" := MsgList(descriptionAssets)];
    ad := ad["ad.responsive_display_ad.business_name" := Str(businessName)];
    op := Create(AdGroupAd, ad);
  }

  predicate IsInStream(adFormat: string) {
    adFormat == "IN_STREAM_SKIPPABLE" || adFormat == "IN_STREAM_NON_SKIPPABLE"
  }

  /** The fields specific to the ad format: in-stream formats always carry
      an action headline and a companion banner when one is given; responsive
      video carries the headline and description as one-element lists when
      they are non-empty; bumper and unknown formats carry none. */
  ghost predicate VideoFormatFields(m: Message, customerId: string, adFormat: string, headline: Option<string>,
                                    description: Option<string>, companionBannerAssetId: Option<string>)
  {
    && ("ad.video_ad.in_stream.action_headline" in m <==> IsInStream(adFormat))
    && ("ad.video_ad.in_stream.action_headline" in m ==>
          m["ad.video_ad.in_stream.action_headline"] == Str(headline.GetOr("")))
    && ("ad.video_ad.in_stream.companion_banner.asset" in m <==> IsInStream(adFormat) && Truthy(companionBannerAssetId))
    && ("ad.video_ad.in_stream.companion_banner.asset" in m ==>
          m["ad.video_ad.in_stream.companion_banner.asset"]
          == Str(ResourceName(customerId, "assets", companionBannerAssetId.value)))
    && ("ad.video_responsive_ad.headlines" in m <==> adFormat == "VIDEO_RESPONSIVE" && Truthy(headline))
    && ("ad.video_responsive_ad.headlines" in m ==>
          m["ad.video_responsive_ad.headlines"] == MsgList([TextAsset(headline.value)]))
    && ("ad.video_responsive_ad.long_headlines" in m <==> adFormat == "VIDEO_RESPONSIVE" && Truthy(description))
    && ("ad.video_responsive_ad.long_headlines" in m ==>
          m["ad.video_responsive_ad.long_headlines"] == MsgList([TextAsset(description.value)]))
  }

  const VideoBaseKeys: set<string> := {"ad_group", "status", "ad.final_urls", "ad.display_url", "ad.video_ad.video.asset"}

  const VideoFormatKeys: set<string> := {
    "ad.video_ad.in_stream.action_headline", "ad.video_ad.in_stream.companion_banner.asset",
    "ad.video_responsive_ad.headlines", "ad.video_responsive_ad.long_headlines"}

  /** The branch on the ad format: an in-stream format writes the action
      headline and, when given, the companion banner; responsive video writes
      the non-empty headline and description; bumper and unknown formats
      write nothing. */
  function WithVideoFormat(ad: Message, customerId: string, adFormat: string, headline: Option<string>,
                           description: Option<string>, companionBannerAssetId: Option<string>): Message
  {
    if IsInStream(adFormat) then
      var ad := ad["ad.video_ad.in_stream.action_headline" := Str(headline.GetOr(""))];
      if Truthy(companionBannerAssetId) then
        ad["ad.video_ad.in_stream.companion_banner.asset" :=
           Str(ResourceName(customerId, "assets", companionBannerAssetId.value))]
      else ad
    else if adFormat == "VIDEO_RESPONSIVE" then
      var ad := if Truthy(headline) then ad["ad.video_responsive_ad.headlines" := MsgList([TextAsset(headline.value)])]
        else ad;
      if Truthy(description) then ad["ad.video_responsive_ad.long_headlines" := MsgList([TextAsset(description.value)])]
      else ad
    else ad
  }

  /** The format branch writes only format-specific fields, keeps every
      field already written, and leaves the format fields as the format
      demands. */
  lemma VideoFormatWrites(ad: Message, customerId: string, adFormat: string, headline: Option<string>,
                          description: Option<string>, companionBannerAssetId: Option<string>)
    requires forall k :: k in VideoFormatKeys ==> k !in ad
    ensures var ad' := WithVideoFormat(ad, customerId, adFormat, headline, description, companionBannerAssetId);
      && (forall k :: k in ad ==> k in ad' && ad'[k] == ad[k])
      && ad'.Keys <= ad.Keys + VideoFormatKeys
      && VideoFormatFields(ad', customerId, adFormat, headline, description, companionBannerAssetId)
  {
  }

  /** The branch on the ad format, as the builder runs it. */
  method SetVideoFormat(ad: Message, customerId: string, adFormat: string, headline: Option<string>,
                        description: Option<string>, companionBannerAssetId: Option<string>)
    returns (ad': Message)
    ensures ad' == WithVideoFormat(ad, customerId, adFormat, headline, description, companionBannerAssetId)
  {
    ad' := ad;
    if IsInStream(adFormat) {
      ad' := ad'["ad.video_ad.in_stream.action_headline" := Str(headline.GetOr(""))];
      if Truthy(companionBannerAssetId) {
        ad' := ad'["ad.video_ad.in_stream.companion_banner.asset" :=
                   Str(ResourceName(customerId, "assets", companionBannerAssetId.value))];
      }
    } else if adFormat == "BUMPER" {
      // a bumper ad has no format-specific field to write
    } else if adFormat == "VIDEO_RESPONSIVE" {
      if Truthy(headline) {
        ad' := ad'["ad.video_responsive_ad.headlines" := MsgList([TextAsset(headline.value)])];
      }
      if Truthy(description) {
        ad' := ad'["ad.video_responsive_ad.long_headlines" := MsgList([TextAsset(description.value)])];
      }
    }
  }

  /** Writing a field outside the format-specific ones keeps them as they are. */
  lemma VideoFormatFieldsFrame(m: Message, key: string, v: Value, customerId: string, adFormat: string,
                               headline: Option<string>, description: Option<string>,
                               companionBannerAssetId: Option<string>)
    requires key !in VideoFormatKeys
    requires VideoFormatFields(m, customerId, adFormat, headline, description, companionBannerAssetId)
    ensures VideoFormatFields(m[key := v], customerId, adFormat, headline, description, companionBannerAssetId)
  {
  }

  /** The fields a video ad gets before the format branch: the ad group and
      status, and the final URL and display URL when non-empty. */
  function VideoAdBase(customerId: string, adGroupId: string, finalUrl: Option<string>,
                       displayUrl: Option<string>): Message
  {
    var ad: Message := map[
      "ad_group" := Str(ResourceName(customerId, "adGroups", adGroupId)),
      "status" := Int(StatusToEnum["enable"])];
    var ad := if Truthy(finalUrl) then ad["ad.final_urls" := StrList([finalUrl.value])] else ad;
    if Truthy(displayUrl) then ad["ad.display_url" := Str(displayUrl.value)] else ad
  }

  /** The payload of a video ad: the base fields, the format-specific
      fields, then the video asset. */
  function VideoAdPayload(customerId: string, adGroupId: string, videoAssetId: string, adFormat: string,
                          headline: Option<string>, description: Option<string>, finalUrl: Option<string>,
                          displayUrl: Option<string>, companionBannerAssetId: Option<string>): Message
  {
    WithVideoFormat(VideoAdBase(customerId, adGroupId, finalUrl, displayUrl), customerId, adFormat, headline,
                    description, companionBannerAssetId)
      ["ad.video_ad.video.asset" := Str(ResourceName(customerId, "assets", videoAssetId))]
  }

  /** The base fields before the format branch: the ad group and status
      always, the final URL and display URL exactly when non-empty, and no
      format field. */
  lemma VideoAdBaseFields(customerId: string, adGroupId: string, finalUrl: Option<string>, displayUrl: Option<string>)
    ensures var m := VideoAdBase(customerId, adGroupId, finalUrl, displayUrl);
      && EnabledIn(m, customerId, adGroupId)
      && ("ad.final_urls" in m <==> Truthy(finalUrl))
      && (Truthy(finalUrl) ==> m["ad.final_urls"] == StrList([finalUrl.value]))
      && ("ad.display_url" in m <==> Truthy(displayUrl))
      && (Truthy(displayUrl) ==> m["ad.display_url"] == Str(displayUrl.value))
      && m.Keys <= VideoBaseKeys - {"ad.video_ad.video.asset"}
  {
  }

  /** The video asset is always referenced, and the final URL and display
      URL only when non-empty. */
  lemma VideoAdFields(customerId: string, adGroupId: string, videoAssetId: string, adFormat: string,
                      headline: Option<string>, description: Option<string>, finalUrl: Option<string>,
                      displayUrl: Option<string>, companionBannerAssetId: Option<string>)
    ensures var m := VideoAdPayload(customerId, adGroupId, videoAssetId, adFormat, headline, description,
                                    finalUrl, displayUrl, companionBannerAssetId);
      && EnabledIn(m, customerId, adGroupId)
      && Holds(m, "ad.video_ad.video.asset", Str(ResourceName(customerId, "assets", videoAssetId)))
      && ("ad.final_urls" in m <==> Truthy(finalUrl))
      && (Truthy(finalUrl) ==> m["ad.final_urls"] == StrList([finalUrl.value]))
      && ("ad.display_url" in m <==> Truthy(displayUrl))
      && (Truthy(displayUrl) ==> m["ad.display_url"] == Str(displayUrl.value))
  {
    var base := VideoAdBase(customerId, adGroupId, finalUrl, displayUrl);
    VideoAdBaseFields(customerId, adGroupId, finalUrl, displayUrl);
    VideoFormatWrites(base, customerId, adFormat, headline, description, companionBannerAssetId);
  }

  /** The format fields are as the format demands, and no field outside the
      base and format fields is written. */
  lemma VideoAdFormat(customerId: string, adGroupId: string, videoAssetId: string, adFormat: string,
                      headline: Option<string>, description: Option<string>, finalUrl: Option<string>,
                      displayUrl: Option<string>, companionBannerAssetId: Option<string>)
    ensures var m := VideoAdPayload(customerId, adGroupId, videoAssetId, adFormat, headline, description,
                                    finalUrl, displayUrl, companionBannerAssetId);
      && VideoFormatFields(m, customerId, adFormat, headline, description, companionBannerAssetId)
      && m.Keys <= VideoBaseKeys + VideoFormatKeys
  {
    var base := VideoAdBase(customerId, adGroupId, finalUrl, displayUrl);
    VideoAdBaseFields(customerId, adGroupId, finalUrl, displayUrl);
    VideoFormatWrites(base, customerId, adFormat, headline, description, companionBannerAssetId);
    var formatted := WithVideoFormat(base, customerId, adFormat, headline, description, companionBannerAssetId);
    VideoFormatFieldsFrame(formatted, "ad.video_ad.video.asset", Str(ResourceName(customerId, "assets", videoAssetId)),
                           customerId, adFormat, headline, description, companionBannerAssetId);
  }

  method BuildVideoAdOperation(customerId: string, adGroupId: string, videoAssetId: string, adFormat: string,
                               headline: Option<string> := None, description: Option<string> := None,
                               finalUrl: Option<string> := None, displayUrl: Option<string> := None,
                               companionBannerAssetId: Option<string> := None)
    returns (op: MutateOperation)
    ensures op == Create(AdGroupAd, VideoAdPayload(customerId, adGroupId, videoAssetId, adFormat, headline,
      description, finalUrl, displayUrl, companionBannerAssetId))
  {
    var ad: Message := map[];
    ad := ad["ad_group" := Str(ResourceName(customerId, "adGroups", adGroupId))];
    ad := ad["status" := Int(StatusToEnum["enable"])];
    if Truthy(finalUrl) {
      ad := ad["ad.final_urls" := StrList([finalUrl.value])];
    }
    if Truthy(displayUrl) {
      ad := ad["ad.display_url" := Str(displayUrl.value)];
    }
    var videoResource := ResourceName(customerId, "assets", videoAssetId);
    ad := SetVideoFormat(ad, customerId, adFormat, headline, description, companionBannerAssetId);
    ad := ad["ad.video_ad.video.asset" := Str(videoResource)];
    op := Create(AdGroupAd, ad);
  }

  const DemandGenFields: set<string> := {
    "ad_group", "status", "ad.final_urls",
    "ad.demand_gen_multi_asset_ad.headlines", "ad.demand_gen_multi_asset_ad.descriptions",
    "ad.demand_gen_multi_asset_ad.marketing_images", "ad.demand_gen_multi_asset_ad.logo_images",
    "ad.demand_gen_multi_asset_ad.business_name"}

  /** The single logo becomes a one-element logo list; the call to action is
      written only when non-empty. */
  method BuildDemandGenAdOperation(customerId: string, adGroupId: string, headlines: seq<string>,
                                   descriptions: seq<string>, marketingImageAssetIds: seq<string>,
                                   logoAssetId: string, businessName: string, finalUrls: seq<string>,
                                   callToAction: Option<string> := None)
    returns (op: MutateOperation)
    ensures op.Create? && op.resource == AdGroupAd
    ensures op.payload.Keys == DemandGenFields
      + (if Truthy(callToAction) then {"ad.demand_gen_multi_asset_ad.call_to_action_text"} else {})
    ensures EnabledIn(op.payload, customerId, adGroupId)
    ensures Holds(op.payload, "ad.final_urls", StrList(finalUrls))
    ensures Holds(op.payload, "ad.demand_gen_multi_asset_ad.headlines", MsgList(TextAssets(headlines)))
    ensures Holds(op.payload, "ad.demand_gen_multi_asset_ad.descriptions", MsgList(TextAssets(descriptions)))
    ensures Holds(op.payload, "ad.demand_gen_multi_asset_ad.marketing_images",
                  MsgList(ImageAssets(customerId, marketingImageAssetIds)))
    ensures Holds(op.payload, "ad.demand_gen_multi_asset_ad.logo_images",
                  MsgList([ImageAsset(ResourceName(customerId, "assets", logoAssetId))]))
    ensures Holds(op.payload, "ad.demand_gen_multi_asset_ad.business_name", Str(businessName))
    ensures Truthy(callToAction) ==>
      Holds(op.payload, "ad.demand_gen_multi_asset_ad.call_to_action_text", Str(callToAction.value))
  {
    var ad: Message := map[];
    ad := ad["ad_group" := Str(ResourceName(customerId, "adGroups", adGroupId))];
    ad := ad["status" := Int(StatusToEnum["enable"])];
    ad := ad["ad.final_urls" := StrList(finalUrls)];
    var headlineAssets := CollectTextAssets(headlines);
    ad := ad["ad.demand_gen_multi_asset_ad.headlines" := MsgList(headlineAssets)];
    var descriptionAssets := CollectTextAssets(descriptions);
    ad := ad["ad.demand_gen_multi_asset_ad.descriptions" := MsgList(descriptionAssets)];
    var images := CollectImageAssets(customerId, marketingImageAssetIds);
    ad := ad["ad.demand_gen_multi_asset_ad.marketing_images" := MsgList(images)];
    ad := ad["ad.demand_gen_multi_asset_ad.logo_images" :=
               MsgList([ImageAsset(ResourceName(customerId, "assets", logoAssetId))])];
    ad := ad["ad.demand_gen_multi_asset_ad.business_name" := Str(businessName)];
    if Truthy(callToAction) {
      ad := ad["ad.demand_gen_multi_asset_ad.call_to_action_text" := Str(callToAction.value)];
    }
    op := Create(AdGroupAd, ad);
  }
}
