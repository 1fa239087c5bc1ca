# Google Ads MCP server: a verified model of its deterministic core

The server lets an agent read and change a Google Ads account. To do that it:

- validates tool inputs with Pydantic models;
- turns them into Google Ads API mutate operations;
- sends those operations through a client wrapper that retries transient failures with exponential backoff;
- assembles GAQL report queries from optional filters;
- renders the returned rows as Markdown or JSON.

This project models that core in Dafny and proves its contracts. Most modules model one source file each. The exception is `builders/operations.py`, which is split into six modules: `Operations`, `UpdateBuilders`, `CreateBuilders`, `CriterionBuilders`, `AdBuilders` and `AssetBuilders`. Five more modules are shared:

- `Wrappers`: `Option` and `Result`.
- `Validation`: the shape of a Pydantic validation failure and the per-field checks that the input models share.
- `Text`: Python string built-ins over `seq<char>`, such as `strip`, `upper`, `split`, `replace` and `int()`.
- `Dicts`: insertion-ordered Python dicts as a sequence of entries.
- `QueryAssembly`: the WHERE / AND / ORDER BY assembly that all the read tools share.

The main modelling choices:

- **Operations.** A protobuf operation is a datatype, `Create(resource, payload)` or `Update(resource, payload, mask)`.
  - The payload is a map from the dotted field path to the value assigned.
  - Only assigned fields are present, so assigning `None` leaves a field absent.
- **Enum tables.** Each table is a constant map. A missing key is a `LookupFailure(table, key)` error, not a precondition.
- **Input models.** Each Pydantic input model is a validation function.
  - It returns the record, with its customer id sanitised, or the error list.
  - Pydantic collects every field error. The model-level validator runs only when all fields pass, and it raises its first failing rule.
- **Client.** The client is a class with `maxRetries` and `baseDelay` fields.
  - The transport is a script from attempt number to outcome.
  - Sleeps are recorded as a list of delays, and each call records the request it sends.
- **Read tools.** The query builders are methods that build the clause list and join it, as the source does. Each row parser is a function, with lemmas about the enum prefixes it strips.

## Model

| member | source | states |
|---|---|---|
| Operations.Lookup | google_ads_mcp/builders/operations.py:15-85 | an enum-table lookup succeeds exactly for the table's keys, returns the mapped value, and otherwise fails naming the table and the key |
| Operations.CompositeId | google_ads_mcp/builders/operations.py:171-173 | the composite id is the ad-group id, a `~`, then the other id, both recoverable from it |
| Operations.ResourceNameSegments | google_ads_mcp/builders/operations.py:88-90 | a resource name splits on `/` into exactly `customers`, the customer id, the collection and the id, and its last segment is the id |
| Operations.SplitAfterSegment | google_ads_mcp/builders/operations.py:88-90 | splitting a name whose first segment holds no separator yields that segment, then the split of the rest |
| Operations.SplitWithoutSeparator | google_ads_mcp/builders/operations.py:88-90 | a segment without the separator splits into itself alone |
| Operations.SelectPaths | google_ads_mcp/builders/operations.py:125-138 | the mask chosen from candidate paths is never longer than the candidate list |
| Operations.SelectPathsSpec | google_ads_mcp/builders/operations.py:125-138 | the mask is a subsequence of the candidate paths in declaration order, is empty when no argument is given, and, for distinct paths, contains a path exactly when its argument is given |
| Operations.SelectTwoPaths | google_ads_mcp/builders/operations.py:452-462 | with two candidate paths, the mask is the present ones in order |
| Operations.SelectThreePaths | google_ads_mcp/builders/operations.py:125-138 | with three candidate paths, the mask is the present ones in order |
| Operations.NotSelected | google_ads_mcp/builders/operations.py:125-138 | a path that is not a candidate never appears in the mask |
| Operations.Assign | google_ads_mcp/builders/operations.py:466-502 | assigning a value sets that key; assigning `None` leaves the key absent and every other field unchanged |
| UpdateBuilders.MaskMatchesKeys | google_ads_mcp/builders/operations.py:111-139 | a payload whose fields are exactly the resource name plus the mask paths has a mask that covers it and a field set at every mask path |
| UpdateBuilders.StatusUpdateAgrees | google_ads_mcp/builders/operations.py:93-178 | every status update has the mask `["status"]`, and that mask and its payload agree |
| UpdateBuilders.BuildCampaignStatusOperation | google_ads_mcp/builders/operations.py:93-108 | it succeeds exactly for enable/pause/remove, giving a campaign update of `customers/{cid}/campaigns/{id}` with `status = STATUS_TO_ENUM[status]` and mask `["status"]`; any other status is a lookup failure |
| UpdateBuilders.BuildAdGroupStatusOperation | google_ads_mcp/builders/operations.py:142-157 | the same as the campaign builder, for an ad-group update of `adGroups/{id}` |
| UpdateBuilders.BuildAdStatusOperation | google_ads_mcp/builders/operations.py:160-178 | the same as the campaign builder, for an ad-group-ad update named `adGroupAds/{ad_group_id}~{ad_id}` |
| UpdateBuilders.BuildCampaignUpdateOperation | google_ads_mcp/builders/operations.py:111-139 | the mask is the subsequence of name/start_date/end_date given; the payload holds exactly the resource name and those fields, with their values; the mask and payload agree |
| UpdateBuilders.CampaignUpdateEmptyMask | google_ads_mcp/builders/operations.py:125-138 | with no optional argument given, the campaign-update mask is empty |
| UpdateBuilders.BuildBudgetUpdateOperation | google_ads_mcp/builders/operations.py:181-196 | a budget update has exactly the resource name and `amount_micros`, with mask `["amount_micros"]` |
| UpdateBuilders.BuildBiddingStrategyOperation | google_ads_mcp/builders/operations.py:409-433 | an unknown strategy is a lookup failure; otherwise the payload holds the resource name and at most one more field: `{strategy_field}.target_cpa_micros`, exactly for TARGET_CPA with a value, or `{strategy_field}.target_roas`, exactly for TARGET_ROAS with a value; the mask is `[strategy_field]` |
| UpdateBuilders.BuildUpdateKeywordOperation | google_ads_mcp/builders/operations.py:436-463 | it fails exactly for a given status outside the table; the mask is the subsequence of cpc_bid_micros/status given, the payload holds exactly those fields plus the name `adGroupCriteria/{ad_group_id}~{criterion_id}`, and the mask and payload agree |
| UpdateBuilders.MerchantLinkAgrees | google_ads_mcp/builders/operations.py:875-887 | a merchant link's mask starts with `shopping_setting.merchant_id`, and the mask and payload agree |
| UpdateBuilders.LinkMerchant | google_ads_mcp/builders/operations.py:861-888 | the link sets the merchant id, adds feed_label then sales_country only when each is truthy, and lists exactly those paths in that order |
| UpdateBuilders.BuildMerchantCenterLinkOperation | google_ads_mcp/builders/operations.py:861-888 | it fails exactly when `int(merchant_id)` would raise on the ASCII text (surrounding whitespace, an optional sign, digits with single underscores between them); otherwise it gives the link of the parsed id |
| CreateBuilders.BuildCreateCampaignOperations | google_ads_mcp/builders/operations.py:277-323 | unknown campaign types, then unknown strategies, are lookup failures; otherwise exactly two operations: the budget create first, then the campaign create, whose `campaign_budget` equals the budget's resource name |
| CreateBuilders.NewTempBudget | google_ads_mcp/builders/operations.py:290-298 | the budget is named `"{name} Budget"`, has delivery 2, the given amount, and resource name `customers/{cid}/campaignBudgets/-1` |
| CreateBuilders.NewCampaign | google_ads_mcp/builders/operations.py:299-323 | the campaign create is exactly the campaign payload of its arguments |
| CreateBuilders.CampaignPayloadFields | google_ads_mcp/builders/operations.py:299-323 | the campaign payload is a new PAUSED campaign, with the bidding fields shown in the next two rows |
| CreateBuilders.CampaignPayloadBase | google_ads_mcp/builders/operations.py:299-309 | the payload has the name, the channel enum, status 3 and the `-1` budget reference; start and end dates are present exactly when given |
| CreateBuilders.CampaignPayloadBidding | google_ads_mcp/builders/operations.py:310-315 | beyond the base fields, only the strategy sub-object's target CPA (exactly for TARGET_CPA with a value) or target ROAS (exactly for TARGET_ROAS with a value) is set |
| CreateBuilders.BiddingPathsAreNotBase | google_ads_mcp/builders/operations.py:310-315 | the bidding target paths never collide with a base campaign field |
| CreateBuilders.DottedNotPlain | google_ads_mcp/builders/operations.py:310-315 | a dotted sub-object path never equals an undotted field |
| CreateBuilders.BuildCreateAdGroupOperation | google_ads_mcp/builders/operations.py:326-343 | an unknown ad-group type is a lookup failure; otherwise it gives the ad group under `campaigns/{id}` with type enum and status ENABLED, and `cpc_bid_micros` only when given |
| CriterionBuilders.NegativeKeywordOp | google_ads_mcp/builders/operations.py:214-227 | every negative keyword has `negative = true`, the text and the match type; it is a campaign criterion under `campaigns/{id}` exactly when level is "campaign", otherwise an ad-group criterion under `adGroups/{id}` |
| CriterionBuilders.BuildNegativeKeywordOperations | google_ads_mcp/builders/operations.py:199-231 | the match type is checked before the loop, so a bad one fails even for no keywords; otherwise one operation per keyword, in input order |
| CriterionBuilders.KeywordOp | google_ads_mcp/builders/operations.py:383-406 | each keyword is a positive ad-group criterion with the text, the match type, and a CPC bid exactly when one is given |
| CriterionBuilders.BuildAddKeywordsOperations | google_ads_mcp/builders/operations.py:383-406 | the match type is checked once, up front; otherwise one keyword operation per input item, in order |
| CriterionBuilders.LocationOpPayload | google_ads_mcp/builders/operations.py:234-254 | a location criterion references `geoTargetConstants/{id}` for the campaign, and is negative exactly when `exclude` is true |
| CriterionBuilders.BuildLocationCriterionOperations | google_ads_mcp/builders/operations.py:234-254 | one location criterion per id, in input order |
| CriterionBuilders.LanguageOpPayload | google_ads_mcp/builders/operations.py:257-274 | a language criterion has exactly the campaign and `languageConstants/{id}` |
| CriterionBuilders.BuildLanguageCriterionOperations | google_ads_mcp/builders/operations.py:257-274 | one language criterion per id, in input order |
| CriterionBuilders.BuildDeviceTargetingOperation | google_ads_mcp/builders/operations.py:505-519 | an unknown device is a lookup failure; otherwise exactly the campaign, the device criterion id and the bid modifier |
| CriterionBuilders.DemographicOp | google_ads_mcp/builders/operations.py:522-553 | the dimension fills at most one field (age range, gender, parental status or income range) with the value; there is a bid modifier exactly when one is given; no other field is set |
| CriterionBuilders.BuildDemographicTargetingOperations | google_ads_mcp/builders/operations.py:522-553 | one demographic criterion per value, in input order |
| CriterionBuilders.BuildAudienceSegmentOperation | google_ads_mcp/builders/operations.py:556-582 | a user-interest category is set exactly for IN_MARKET/AFFINITY/CUSTOM_INTENT, and a user list exactly for REMARKETING; a bid modifier is set exactly when given; no other field is set |
| CriterionBuilders.AssetGroupAssetOp | google_ads_mcp/builders/operations.py:642-659 | an assignment succeeds exactly when it has an asset id and a known field type, and then links `assets/{id}` to the asset group |
| CriterionBuilders.BuildAssetGroupAssetOperations | google_ads_mcp/builders/operations.py:642-659 | one link per assignment, in order, or the error of the first bad assignment |
| AdBuilders.Texts | google_ads_mcp/builders/operations.py:346-380 | reading texts back from text assets gives one text per asset |
| AdBuilders.TextAssetsRoundTrip | google_ads_mcp/builders/operations.py:346-380 | the text assets built from a list of texts hold exactly those texts, in order |
| AdBuilders.CollectTextAssets | google_ads_mcp/builders/operations.py:357-366 | the loop builds one text asset per text, in order |
| AdBuilders.CollectImageAssets | google_ads_mcp/builders/operations.py:680-690 | the loop builds one image asset per id, each referencing `assets/{id}` |
| AdBuilders.BuildCreateRsaOperation | google_ads_mcp/builders/operations.py:346-380 | the RSA has exactly the enabled ad-group fields, final URLs, headline and description assets, and path1/path2 exactly when given |
| AdBuilders.DisplayAdKeys | google_ads_mcp/builders/operations.py:662-719 | a display ad has exactly the mandatory fields, plus square images and logos only when those lists are truthy |
| AdBuilders.DisplayAdEnabled | google_ads_mcp/builders/operations.py:662-719 | a display ad is ENABLED under its ad group and carries the final URLs |
| AdBuilders.DisplayAdImages | google_ads_mcp/builders/operations.py:680-705 | the marketing, square and logo images reference `assets/{id}` in input order |
| AdBuilders.DisplayAdTexts | google_ads_mcp/builders/operations.py:706-717 | the headlines, descriptions, long headline and business name are copied |
| AdBuilders.BuildResponsiveDisplayAdOperation | google_ads_mcp/builders/operations.py:662-719 | the step-by-step builder yields exactly the display-ad payload of the four lemmas above |
| AdBuilders.VideoFormatWrites | google_ads_mcp/builders/operations.py:744-764 | the format branch keeps the earlier fields, writes only format fields, and sets the in-stream or responsive fields according to the format; the bumper branch writes no field |
| AdBuilders.SetVideoFormat | google_ads_mcp/builders/operations.py:744-764 | the step-by-step format branch equals its specification |
| AdBuilders.VideoFormatFieldsFrame | google_ads_mcp/builders/operations.py:744-767 | writing a non-format field keeps the format fields |
| AdBuilders.VideoAdBaseFields | google_ads_mcp/builders/operations.py:735-743 | a video ad is ENABLED; final_urls holds `[final_url]` and display_url is set, each exactly when truthy |
| AdBuilders.VideoAdFields | google_ads_mcp/builders/operations.py:722-768 | the video ad also references `assets/{video_asset_id}`, and its base fields survive the format branch |
| AdBuilders.VideoAdFormat | google_ads_mcp/builders/operations.py:722-768 | the finished video ad holds the format fields, and no field outside the base and format fields |
| AdBuilders.BuildVideoAdOperation | google_ads_mcp/builders/operations.py:722-768 | the builder yields exactly the video-ad payload of the lemmas above |
| AdBuilders.BuildDemandGenAdOperation | google_ads_mcp/builders/operations.py:771-818 | a demand-gen ad has exactly its mandatory fields, one logo asset and the copied texts and images, plus a call to action only when truthy |
| AssetBuilders.BuildAssetPayload | google_ads_mcp/builders/operations.py:593-611 | an asset has its name and type; TEXT, YOUTUBE_VIDEO and CALL_TO_ACTION write their one content field when given; IMAGE always writes file_size (0 without data) and data only when given |
| AssetBuilders.ContentTypePayload | google_ads_mcp/builders/operations.py:597-611 | for the three content-field types, the payload is the base plus that one field when its content is given |
| AssetBuilders.WriteContent | google_ads_mcp/builders/operations.py:597-611 | the content field is added only when content is given |
| AssetBuilders.WriteImage | google_ads_mcp/builders/operations.py:600-605 | file_size is the data length or 0, data is present exactly when given, and nothing else changes |
| AssetBuilders.BuildCreateAssetOperation | google_ads_mcp/builders/operations.py:585-611 | an unknown asset type is a lookup failure; otherwise the asset payload above |
| AssetBuilders.BuildCreateAssetGroupOperation | google_ads_mcp/builders/operations.py:614-639 | an asset group has name, campaign, final URLs and ENABLED status, plus mobile URLs when truthy and path1/path2 when given, and nothing else |
| AssetBuilders.BuildCreateExtensionOperation | google_ads_mcp/builders/operations.py:466-502 | one branch per extension type fills only that type's asset fields; an unknown type gives an empty asset |
| AssetBuilders.CategoryId | google_ads_mcp/builders/operations.py:843 | a category value that is not all digits gives category id 0 |
| AssetBuilders.CategoryIdRoundTrip | google_ads_mcp/builders/operations.py:843 | a decimal category value gives back its number |
| AssetBuilders.CaseValueFields | google_ads_mcp/builders/operations.py:841-856 | CATEGORY, PRODUCT_TYPE and CUSTOM_LABEL prefixes, then BRAND, ITEM_ID and CONDITION exactly, in that priority, each give exactly the fields of their one sub-message (the category id and level, the type value and level, the attribute value and index, or the single value); any other dimension sets nothing |
| AssetBuilders.BuildListingGroupFilterOperation | google_ads_mcp/builders/operations.py:821-858 | an unknown filter type is a lookup failure; a parent is set only when truthy; the case value is set only when the value is not None |
| Client.Pow2Increasing | google_ads_mcp/client.py:128 | the backoff factor `2**attempt` strictly grows with the attempt |
| Client.DelayGrows | google_ads_mcp/client.py:128 | a later attempt's delay `base_delay * 2**attempt` is never shorter, and strictly longer for a positive base delay |
| Client.Backoff | google_ads_mcp/client.py:128-137 | the first k sleeps are `base_delay * 2**j` for j below k |
| Client.BackoffFrom | google_ads_mcp/client.py:128-137 | the sleeps from attempt k to n number n - k |
| Client.BackoffSplit | google_ads_mcp/client.py:128-137 | the sleeps from attempt 0 are the backoff list |
| Client.BackoffFromAt | google_ads_mcp/client.py:128 | the sleep after attempt j is `base_delay * 2**j` |
| Client.BackoffAppend | google_ads_mcp/client.py:128-137 | each retry appends exactly the next delay |
| Client.Categorize | google_ads_mcp/client.py:153-167 | a lower-cased code name with authentication/authorization is an auth error; otherwise quota/rate is a quota error; otherwise not_found is a not-found error, in that priority |
| Client.CategoryError | google_ads_mcp/client.py:155-167 | an auth match gives AuthenticationError, a quota match QuotaExhaustedError with retry_after 60, a not-found match ResourceNotFoundError |
| Client.ClassifyFirstMatch | google_ads_mcp/client.py:149-167 | the first sub-error that matches decides the raised error |
| Client.ClassifyNoMatch | google_ads_mcp/client.py:169-171 | with no matching sub-error, including none at all, the error is a base error with the REQUEST_ERROR message of the exception text |
| Client.RetryBounds | google_ads_mcp/client.py:121-145 | with R retries the operation runs between 1 and R + 1 times, sleeping one time fewer; with R < 0 it never runs |
| Client.RetryFirstSuccessFrom | google_ads_mcp/client.py:121-137 | from attempt k, the first success at s returns its value after s - k + 1 calls and the sleeps for attempts k..s-1 |
| Client.RetryFirstSuccess | google_ads_mcp/client.py:121-137 | a first success on attempt s returns its value after s + 1 calls and sleeps `[base·2^0, …, base·2^(s-1)]` |
| Client.RetryAllTransientFrom | google_ads_mcp/client.py:126-141 | from attempt k, if all remaining attempts fail transiently, the exhausted error names R + 1 attempts |
| Client.RetryAllTransient | google_ads_mcp/client.py:126-141 | if every attempt fails transiently, the client raises after exactly R + 1 calls and R sleeps |
| Client.RetryNotRetriedFrom | google_ads_mcp/client.py:124-125 | from attempt k, a non-transient failure stops the loop on that attempt |
| Client.RetryNotRetried | google_ads_mcp/client.py:124-125 | a Google Ads exception is classified and raised on the attempt where it occurs; any other exception propagates unchanged; neither is retried |
| Client.RetryNegative | google_ads_mcp/client.py:143-145 | with negative max_retries the operation is never called and the client raises the unexpected error |
| Client.GoogleAdsClientWrapper.constructor | google_ads_mcp/client.py:29-37 | it stores max_retries and base_delay, defaulting to 3 and 1 |
| Client.GoogleAdsClientWrapper.HandleGoogleAdsException | google_ads_mcp/client.py:147-171 | the loop over sub-errors computes the first-match classification |
| Client.GoogleAdsClientWrapper.ExecuteWithRetry | google_ads_mcp/client.py:117-145 | the retry loop's result, call count and sleeps are those of the retry specification, and each call sends the same request |
| Client.GoogleAdsClientWrapper.Query | google_ads_mcp/client.py:43-71 | a query whose stripped, upper-cased text does not start with SELECT is rejected before any call; otherwise the stripped query is sent with the page size through the retry loop |
| Client.GoogleAdsClientWrapper.Mutate | google_ads_mcp/client.py:73-91 | the operations and the partial_failure flag (default false) are sent through the retry loop |
| Errors.NewMcpError | google_ads_mcp/utils/errors.py:8-14 | the base error keeps its message verbatim and its details |
| Errors.NewAuthenticationError | google_ads_mcp/utils/errors.py:17-18 | an authentication error is a base error of that kind |
| Errors.NewQuotaExhaustedError | google_ads_mcp/utils/errors.py:21-32 | a quota error records retry_after_seconds |
| Errors.NewResourceNotFoundError | google_ads_mcp/utils/errors.py:35-48 | a not-found error records the resource type and id |
| Errors.NewInvalidInputError | google_ads_mcp/utils/errors.py:51-62 | an invalid-input error records the field |
| Errors.ConstructorDefaults | google_ads_mcp/utils/errors.py:11-62 | the defaults are retry_after 0, empty resource type and id, empty field and empty details |
| Errors.BaseMessage | google_ads_mcp/utils/errors.py:65-95 | the six known codes give their table message; any other code gives `Errore Google Ads ({code})` |
| Errors.FormatGoogleAdsError | google_ads_mcp/utils/errors.py:84-95 | the message starts with the base message and ends with the detail, with the 12 characters of ` Dettaglio: ` between |
| Errors.FormatShape | google_ads_mcp/utils/errors.py:94-95 | the message is never empty, ends with the detail, and names an unknown code |
| Pagination.ToDict | google_ads_mcp/utils/pagination.py:21-28 | the dict has exactly the five fields, with their values |
| Pagination.SliceBound | google_ads_mcp/utils/pagination.py:46-47 | a slice bound is clamped into 0..len |
| Pagination.PySlice | google_ads_mcp/utils/pagination.py:46-47 | a Python slice is never longer than the list |
| Pagination.Paginate | google_ads_mcp/utils/pagination.py:31-57 | total is the list length, count the page length; offset and limit are recorded; has_more holds exactly when offset + limit < total |
| Pagination.PageIsWindow | google_ads_mcp/utils/pagination.py:46-47 | the page is `items[offset..min(offset+limit, len)]`, is empty when offset is past the end, and holds at most `limit` items |
| Pagination.ConsecutivePages | google_ads_mcp/utils/pagination.py:46-47 | two consecutive full pages together are the corresponding window |
| Common.CleanCustomerId | google_ads_mcp/models/common.py:186 | a cleaned id has no `-` |
| Common.CleanDropsSpaceAndDashes | google_ads_mcp/models/common.py:186 | cleaning a text between runs of whitespace gives that text with exactly its dashes removed, the other characters kept in order |
| Common.DashedIdSanitised | google_ads_mcp/models/common.py:186-191 | digit groups joined by dashes, ten digits in all, sanitise to the digits alone |
| Common.PaddedIdSanitised | google_ads_mcp/models/common.py:186-191 | a ten-digit id between runs of whitespace sanitises to the id |
| Common.DashedExample | tests/test_models_common.py:31 | `"123-456-7890"` sanitises to `"1234567890"` |
| Common.PaddedExample | tests/test_models_common.py:37 | `"  1234567890  "` sanitises to `"1234567890"` |
| Common.SanitizeCustomerId | google_ads_mcp/models/common.py:172-191 | the result succeeds exactly when stripping and removing dashes leaves ten digits; a non-digit result (even empty) fails as not numeric, checked before the length |
| Common.SanitizeIdempotent | google_ads_mcp/models/common.py:186-191 | every success is ten digits, and sanitising it again returns it unchanged |
| Common.DigitsClean | google_ads_mcp/models/common.py:186 | an all-digit id is unchanged by cleaning |
| Common.CleanStripped | google_ads_mcp/models/common.py:186 | cleaning ignores surrounding whitespace |
| Common.ValidateCustomerId | google_ads_mcp/models/common.py:194-207 | the mixin stores the cleaned ten-digit id, and a not-numeric error names the stripped input |
| Validation.CustomerIdErrors | google_ads_mcp/models/common.py:194-207 | the customer_id field reports an error exactly when sanitising fails |
| Validation.EnumErrors | google_ads_mcp/models/common.py:16-169 | an enum field reports an error exactly when the value is not a member |
| Validation.OptEnumErrors | google_ads_mcp/models/creation_inputs.py:145-161 | an optional enum field errs only for a given non-member |
| Validation.PositiveErrors | google_ads_mcp/models/creation_inputs.py:31-38 | a `gt=0` integer field errs exactly for a given value that is not positive |
| Validation.PositiveRealErrors | google_ads_mcp/models/creation_inputs.py:31-38 | a `gt=0` float field errs exactly for a given value that is not positive |
| Validation.NonNegativeRealErrors | google_ads_mcp/models/creation_inputs.py:207-214 | a `ge=0` float field errs exactly for a given negative value |
| Validation.LengthErrors | google_ads_mcp/models/creation_inputs.py:87-97 | a list field errs exactly when its length is outside its bounds |
| Validation.Finish | google_ads_mcp/models/creation_inputs.py:54-69 | field errors come first; a model rule runs only on valid fields; the value is returned only when neither fails |
| Validation.IsoDateMatchesPattern | google_ads_mcp/models/mutation_inputs.py:32-39 | every valid calendar date also matches the format-only pattern |
| Validation.PatternWithoutCalendar | google_ads_mcp/models/mutation_inputs.py:32-39 | "2026-02-31" matches the pattern but is not a calendar date |
| Validation.DayFirstRejected | google_ads_mcp/models/creation_inputs.py:43-52 | "01-03-2026" is rejected by both date checks |
| CreationInputs.CalendarDateErrors | google_ads_mcp/models/creation_inputs.py:43-52 | a date field errs exactly when a given date is not a valid YYYY-MM-DD calendar date |
| CreationInputs.CreateCampaignFieldErrors | google_ads_mcp/models/creation_inputs.py:23-52 | the campaign fields pass exactly when the id, enums, budget > 0, dates and positive targets are valid |
| CreationInputs.CreateCampaignRule | google_ads_mcp/models/creation_inputs.py:54-69 | the rule passes exactly when TARGET_CPA has its CPA, TARGET_ROAS has its ROAS, and start is not after end; a missing CPA is reported first |
| CreationInputs.ValidateCreateCampaign | google_ads_mcp/models/creation_inputs.py:23-69 | a campaign input is accepted exactly when all field and cross-field rules hold, and the stored id is sanitised |
| CreationInputs.ValidateCreateAdGroup | google_ads_mcp/models/creation_inputs.py:72-80 | accepted exactly for a valid id, a known ad-group type and a positive bid when given |
| CreationInputs.ValidateCreateResponsiveSearchAd | google_ads_mcp/models/creation_inputs.py:83-99 | accepted exactly for 3–15 headlines, 2–4 descriptions and at least one final URL |
| CreationInputs.ValidateAddKeywords | google_ads_mcp/models/creation_inputs.py:102-115 | accepted exactly for 1–20 keywords, a known match type and a positive bid when given |
| CreationInputs.AddKeywordsDefaultMatch | google_ads_mcp/models/creation_inputs.py:106-112 | the match type defaults to broad |
| CreationInputs.SetBiddingStrategyFieldErrors | google_ads_mcp/models/creation_inputs.py:118-129 | the bidding fields pass exactly for a valid id, known type and positive targets |
| CreationInputs.SetBiddingStrategyRule | google_ads_mcp/models/creation_inputs.py:130-142 | the rule passes exactly when TARGET_CPA has its CPA and TARGET_ROAS its ROAS |
| CreationInputs.ValidateSetBiddingStrategy | google_ads_mcp/models/creation_inputs.py:118-142 | accepted exactly when the fields and the target rule hold; TARGET_ROAS without a target gives its message |
| CreationInputs.ValidateUpdateKeyword | google_ads_mcp/models/creation_inputs.py:145-161 | accepted exactly when at least one of bid and status is given and each is valid |
| CreationInputs.ExtensionRule | google_ads_mcp/models/creation_inputs.py:183-204 | each extension type demands its truthy fields, checked in declared order, with link text first for SITELINK |
| CreationInputs.ValidateCreateAdExtension | google_ads_mcp/models/creation_inputs.py:164-204 | accepted exactly for a known type whose required fields are truthy |
| CreationInputs.ValidateSetDeviceTargeting | google_ads_mcp/models/creation_inputs.py:207-214 | accepted exactly for a known device and a non-negative modifier |
| CreationInputs.ValidateSetDemographicTargeting | google_ads_mcp/models/creation_inputs.py:217-227 | accepted exactly for a known dimension, at least one value and a non-negative modifier when given |
| CreationInputs.ValidateCreateAudienceSegment | google_ads_mcp/models/creation_inputs.py:230-238 | accepted exactly for a known audience type and a non-negative modifier when given |
| MutationInputs.ValidateSetCampaignStatus | google_ads_mcp/models/mutation_inputs.py:17-21 | accepted exactly for a valid id and enable/pause/remove |
| MutationInputs.ValidateSetAdGroupStatus | google_ads_mcp/models/mutation_inputs.py:48-52 | accepted exactly for a valid id and enable/pause/remove |
| MutationInputs.ValidateSetAdStatus | google_ads_mcp/models/mutation_inputs.py:55-60 | accepted exactly for a valid id and enable/pause/remove |
| MutationInputs.DatePatternErrors | google_ads_mcp/models/mutation_inputs.py:32-39 | a date field errs exactly when a given date does not match `^\d{4}-\d{2}-\d{2}$` |
| MutationInputs.ValidateUpdateCampaign | google_ads_mcp/models/mutation_inputs.py:24-45 | accepted exactly for pattern-matching dates and at least one of name/start/end; with none, the change message |
| MutationInputs.UpdateAcceptsImpossibleDate | google_ads_mcp/models/mutation_inputs.py:32-39 | an update accepts the impossible date "2026-02-31", since there is no calendar check |
| MutationInputs.ValidateUpdateBudget | google_ads_mcp/models/mutation_inputs.py:63-69 | accepted exactly for a positive amount |
| MutationInputs.ValidateAddNegativeKeywords | google_ads_mcp/models/mutation_inputs.py:72-96 | accepted exactly for 1–20 keywords, a known level and match type, and a truthy id for the chosen level |
| MutationInputs.NegativeKeywordsDefaultMatch | google_ads_mcp/models/mutation_inputs.py:82-88 | the match type defaults to exact |
| MutationInputs.ValidateSetLocationTargeting | google_ads_mcp/models/mutation_inputs.py:99-107 | accepted exactly for at least one location id |
| MutationInputs.ValidateSetLanguageTargeting | google_ads_mcp/models/mutation_inputs.py:110-117 | accepted exactly for at least one language id |
| AssetInputs.CreateAssetRule | google_ads_mcp/models/asset_inputs.py:32-51 | TEXT needs text, IMAGE an https URL, YOUTUBE_VIDEO an 11-character id, CALL_TO_ACTION a type; MEDIA_BUNDLE needs nothing |
| AssetInputs.ValidateCreateAsset | google_ads_mcp/models/asset_inputs.py:18-51 | accepted exactly for a valid id, a known type and a passing type rule |
| AssetInputs.NonHttpsImageRejected | google_ads_mcp/models/asset_inputs.py:38-42 | an IMAGE whose URL does not start with https:// gets the HTTPS message |
| AssetInputs.HttpImageRejected | google_ads_mcp/models/asset_inputs.py:38-42 | with a valid customer id, every image URL with the `http://` scheme is rejected with the HTTPS message |
| AssetInputs.ValidateCreateAssetGroup | google_ads_mcp/models/asset_inputs.py:54-62 | accepted exactly for at least one final URL |
| AssetInputs.AssignmentErrors | google_ads_mcp/models/asset_inputs.py:65-69 | assignments err exactly when some field type is unknown |
| AssetInputs.AssetListErrors | google_ads_mcp/models/asset_inputs.py:76-79 | no error exactly for 1–20 assignments with known field types; more than 20 give the one `too_long` error without item errors, an empty list the one `too_short` error, and otherwise the item errors |
| AssetInputs.ValidateAddAssetGroupAssets | google_ads_mcp/models/asset_inputs.py:72-79 | accepted exactly for a valid id and 1–20 assignments with known field types; on failure the errors are the id's, then `too_long` alone past 20 assignments, `too_short` for none, else the field-type errors of the assignments |
| AssetInputs.ValidateCreateResponsiveDisplayAd | google_ads_mcp/models/asset_inputs.py:82-99 | accepted exactly for at least one image, 1–5 headlines and descriptions, and at least one final URL |
| AssetInputs.InStreamFormatAllowed | google_ads_mcp/models/asset_inputs.py:114-121 | both in-stream formats are valid formats |
| AssetInputs.VideoAdRule | google_ads_mcp/models/asset_inputs.py:114-121 | in-stream formats need a headline, then a final URL; bumper and responsive need neither |
| AssetInputs.ValidateCreateVideoAd | google_ads_mcp/models/asset_inputs.py:102-121 | accepted exactly for a known format meeting the in-stream rule, with the headline message first |
| AssetInputs.ValidateCreateDemandGenAd | google_ads_mcp/models/asset_inputs.py:143-159 | accepted exactly for 1–5 headlines and descriptions, at least one image and one final URL |
| AssetInputs.ValidateSetListingGroupFilter | google_ads_mcp/models/asset_inputs.py:124-131 | accepted exactly for a known dimension; the filter type is not checked |
| AssetInputs.ValidateLinkMerchantCenter | google_ads_mcp/models/asset_inputs.py:134-140 | only the customer id can fail |
| Dicts.Get | google_ads_mcp/utils/formatting.py:113-122 | a lookup finds a value exactly when the key is present, and returns that entry's value |
| Dicts.Put | google_ads_mcp/tools/gaql.py:31 | `out[key] = v` sets the key and keeps the key order, appending a fresh key at the end |
| Dicts.PutOtherKey | google_ads_mcp/tools/gaql.py:31 | an assignment leaves every other key's value alone |
| Dicts.PutAllKeepsKeys | google_ads_mcp/tools/gaql.py:31 | flattening only adds or overwrites keys; existing keys stay |
| Dicts.PutAllOtherKeys | google_ads_mcp/tools/gaql.py:31 | keys that no leaf writes keep their value |
| Dicts.PutAllFresh | google_ads_mcp/tools/gaql.py:26-31 | writing fresh distinct keys appends them in order |
| Gaql.FlatDict.constructor | google_ads_mcp/tools/gaql.py:85 | a new output dict is empty |
| Gaql.FlatDict.Set | google_ads_mcp/tools/gaql.py:31 | setting a key updates the dict as Python assignment does |
| Gaql.FlattenInto | google_ads_mcp/tools/gaql.py:16-31 | the recursive flattener writes, in order, every leaf of the dict under its dotted key |
| Gaql.FlattenEntry | google_ads_mcp/tools/gaql.py:27-31 | one entry of the loop recurses into a dict or assigns a leaf |
| Gaql.FlattenStep | google_ads_mcp/tools/gaql.py:26-31 | each loop step advances the flattening by one entry's leaves |
| Gaql.LeavesAreLeaves | google_ads_mcp/tools/gaql.py:28-31 | no flattened value is a dict, while lists stay as values |
| Gaql.LeavesUnderPrefix | google_ads_mcp/tools/gaql.py:27 | every key under a prefix starts with `prefix.` |
| Gaql.FlatLeaves | google_ads_mcp/tools/gaql.py:26-31 | the leaves of a flat dict are its entries |
| Gaql.FlatDictCopied | google_ads_mcp/tools/gaql.py:26-31 | a flat dict is copied as it is |
| Gaql.EmptyAddsNothing | google_ads_mcp/tools/gaql.py:26-31 | an empty dict, or a nested empty dict, adds no keys |
| Gaql.NestedExample | google_ads_mcp/tools/gaql.py:26-31 | `{"campaign": {"id", "name"}}` flattens to `campaign.id`, `campaign.name` |
| Gaql.Taken | google_ads_mcp/tools/gaql.py:63-65 | at most `limit` rows are taken, and none for limit ≤ 0 |
| Gaql.Columns | google_ads_mcp/tools/gaql.py:90 | the columns are a prefix of at most 10 keys of the first row |
| Gaql.CollectRows | google_ads_mcp/tools/gaql.py:62-70 | the loop keeps the first `limit` rows |
| Gaql.FlattenRow | google_ads_mcp/tools/gaql.py:84-87 | each row is flattened into a fresh dict |
| Gaql.MapRowsAt | google_ads_mcp/tools/gaql.py:83-87 | mapping rows keeps their number and order |
| Gaql.FlattenAllRows | google_ads_mcp/tools/gaql.py:83-87 | row i of the flattened results is the flattening of result i |
| Gaql.FlattenRows | google_ads_mcp/tools/gaql.py:83-87 | the loop flattens every result, in order |
| Gaql.Render | google_ads_mcp/tools/gaql.py:72-93 | JSON carries the results and their count; no results gives "No results found."; otherwise a heading with the row count and the table of the flattened rows |
| Gaql.ExecuteGaql | google_ads_mcp/tools/gaql.py:35-98 | the customer id is checked first; a non-SELECT query is refused without being sent; otherwise the stripped query is sent and at most `limit` rows are rendered |
| Gaql.LowercaseSelectAccepted | google_ads_mcp/tools/gaql.py:55-56 | a lower-case, indented `select` passes the guard |
| CustomerList.Members | google_ads_mcp/tools/mutations/customer_list_ops.py:52-56 | one user-data entry per value |
| CustomerList.EntriesStep | google_ads_mcp/tools/mutations/customer_list_ops.py:49-56 | each piece adds an entry exactly when it is non-empty after normalising |
| CustomerList.EntriesAreMembers | google_ads_mcp/tools/mutations/customer_list_ops.py:48-68 | the loop's entries are one member per kept piece |
| CustomerList.InputEntriesMembers | google_ads_mcp/tools/mutations/customer_list_ops.py:48-68 | the entries of one input string are the members of its kept values |
| CustomerList.KeptStep | google_ads_mcp/tools/mutations/customer_list_ops.py:49-51 | the kept pieces grow by one non-empty normalised piece at a time |
| CustomerList.MembersSnoc | google_ads_mcp/tools/mutations/customer_list_ops.py:56 | appending a value appends its member |
| CustomerList.AppendValues | google_ads_mcp/tools/mutations/customer_list_ops.py:48-66 | the loop appends the entries of the pieces, and nothing for an empty string |
| CustomerList.AppendEmails | google_ads_mcp/tools/mutations/customer_list_ops.py:48-56 | the email loop appends the email entries |
| CustomerList.AppendPhones | google_ads_mcp/tools/mutations/customer_list_ops.py:58-66 | the phone loop appends the phone entries |
| CustomerList.BuildUserDataList | google_ads_mcp/tools/mutations/customer_list_ops.py:28-68 | the list is emails, then phones |
| CustomerList.EmailsFirst | google_ads_mcp/tools/mutations/customer_list_ops.py:48-68 | the list has one hashed-email entry per kept email, in order, then one hashed-phone entry per kept phone |
| CustomerList.KeptNormalised | google_ads_mcp/tools/mutations/customer_list_ops.py:50-60 | kept emails are non-empty and lower-case; kept phones are non-empty and stripped |
| CustomerList.LowerIdempotent | google_ads_mcp/tools/mutations/customer_list_ops.py:50 | lower-casing twice changes nothing more |
| CustomerList.KeptCount | google_ads_mcp/tools/mutations/customer_list_ops.py:50-51 | emails and phones keep the same number of pieces: lower-casing never empties a stripped piece |
| CustomerList.BlankInputEmpty | google_ads_mcp/tools/mutations/customer_list_ops.py:48-68 | inputs of only whitespace and commas give an empty list |
| CustomerList.BlankValues | google_ads_mcp/tools/mutations/customer_list_ops.py:48-51 | a blank string keeps no values |
| CustomerList.BlankPieces | google_ads_mcp/tools/mutations/customer_list_ops.py:49 | the comma pieces of a blank string are blank |
| CustomerList.BlankKept | google_ads_mcp/tools/mutations/customer_list_ops.py:50-51 | blank pieces are never kept |
| CustomerList.BuildRequest | google_ads_mcp/tools/mutations/customer_list_ops.py:103-119 | the request carries the customer id, `customers/{cid}/userLists/{id}`, and one create or remove per entry, in order |
| CustomerList.ChangeMembers | google_ads_mcp/tools/mutations/customer_list_ops.py:72-137 | a bad customer id is rejected first; an empty list replies with the error and sends nothing; otherwise the request for the sanitised id targets `customers/{cid}/userLists/{user_list_id}`, holds one create (upload) or remove per entry in order, and the count is the list length |
| Formatting.HeaderCells | google_ads_mcp/utils/formatting.py:110-111 | one header cell per column |
| Formatting.SeparatorCells | google_ads_mcp/utils/formatting.py:112 | one separator cell per column |
| Formatting.RowCells | google_ads_mcp/utils/formatting.py:113-122 | one cell per column |
| Formatting.BodyRows | google_ads_mcp/utils/formatting.py:113-122 | one line per row |
| Formatting.FormatTableMarkdown | google_ads_mcp/utils/formatting.py:92-122 | no rows gives `_Nessun risultato trovato._`; otherwise the header, separator and row lines joined by newlines |
| Formatting.TableShape | google_ads_mcp/utils/formatting.py:111-122 | the table has \|rows\| + 2 lines, a `---` per column in the separator, and line i + 2 rendering row i |
| Formatting.DefaultHeaders | google_ads_mcp/utils/formatting.py:110-111 | a missing or empty headers map shows the column names |
| Formatting.GivenHeaders | google_ads_mcp/utils/formatting.py:110-111 | a header cell is `headers[c]` when present, else c |
| Formatting.CellContents | google_ads_mcp/utils/formatting.py:113-122 | an absent key shows `-`; a present one shows `str` of its value |
| Formatting.ExtraKeysIgnored | google_ads_mcp/utils/formatting.py:113-122 | keys outside the columns never change a row line |
| Formatting.Indent | google_ads_mcp/utils/formatting.py:70-89 | the indent is two spaces per nesting level |
| Formatting.PairLines | google_ads_mcp/utils/formatting.py:83-85 | one line per key of a dict inside a list |
| Formatting.ItemsLinesStep | google_ads_mcp/utils/formatting.py:80-87 | each list item adds its own lines |
| Formatting.PairLinesStep | google_ads_mcp/utils/formatting.py:83-85 | each key of a dict item adds one line |
| Formatting.WriteItems | google_ads_mcp/utils/formatting.py:80-87 | the item loop writes the item lines |
| Formatting.WritePairs | google_ads_mcp/utils/formatting.py:83-85 | the inner loop writes the pair lines |
| Formatting.DictToMarkdown | google_ads_mcp/utils/formatting.py:70-89 | the recursive renderer produces the Markdown of its specification |
| Formatting.IndentStep | google_ads_mcp/utils/formatting.py:75 | one level deeper adds exactly two spaces |
| Formatting.ScalarEntriesLines | google_ads_mcp/utils/formatting.py:88 | each scalar entry is one `- **k**: v` line |
| Formatting.NestedDictLines | google_ads_mcp/utils/formatting.py:77-79 | a dict value gives a `**k**:` heading, then its content one level deeper |
| Formatting.ListEntryLines | google_ads_mcp/utils/formatting.py:80-87 | a list value gives a `**k**:` heading, then its items |
| Helpers.Literal | google_ads_mcp/tools/_helpers.py:13-38 | a map key gives its GAQL literal |
| Helpers.CampaignStatusCovered | google_ads_mcp/tools/_helpers.py:13-17 | the campaign status map covers every filter value but "all", mapping each to its upper-case form |
| Helpers.AdGroupStatusCovered | google_ads_mcp/tools/_helpers.py:19-23 | the ad-group status map covers every filter value but "all", upper-cased |
| Helpers.CampaignTypeCovered | google_ads_mcp/tools/_helpers.py:25-38 | the campaign type map covers every filter value but "all" |
| QueryAssembly.Opt | google_ads_mcp/tools/search_terms.py:33-38 | an optional filter adds at most one clause |
| QueryAssembly.IdFilter | google_ads_mcp/tools/labels.py:105-110 | an id filter adds a clause exactly when the id is truthy |
| QueryAssembly.WhereIff | google_ads_mcp/tools/labels.py:112-113 | `" WHERE "` appears exactly when some clause exists |
| QueryAssembly.WhereOrder | google_ads_mcp/tools/labels.py:112-113 | earlier clauses come first, joined by `" AND "` |
| QueryAssembly.WhereSingle | google_ads_mcp/tools/labels.py:112-113 | a single clause follows WHERE directly |
| QueryAssembly.JoinSnoc | google_ads_mcp/tools/search_terms.py:33-40 | appending an optional clause appends `" AND "` and the clause exactly when it is present |
| QueryAssembly.DatedCampaignQuery | google_ads_mcp/tools/views.py:31-53 | the date clause comes first, then ` AND campaign.id = {id}` exactly when truthy, then the ordering |
| Labels.ListLabelsShape | google_ads_mcp/tools/labels.py:21-28 | the list-labels query starts with its `SELECT … FROM label` and ends with ORDER BY label.name |
| Labels.CampaignLabelsQuery | google_ads_mcp/tools/labels.py:96-115 | the campaign clause comes before the label clause, each only when truthy, with WHERE only when one exists |
| Labels.AdGroupLabelsQuery | google_ads_mcp/tools/labels.py:184-203 | the ad-group clause comes before the label clause, each only when truthy |
| Labels.LabelFilteredQuery | google_ads_mcp/tools/labels.py:272-289 | a truthy label id gives WHERE and its clause; otherwise the base alone |
| Labels.AdLabelsQuery | google_ads_mcp/tools/labels.py:272-289 | the ad-label query filters only on a truthy label id |
| Labels.CriterionLabelsQuery | google_ads_mcp/tools/labels.py:356-373 | the criterion-label query filters only on a truthy label id |
| Labels.LabelRowStatus | google_ads_mcp/tools/labels.py:31-40 | a `LabelStatus.X` status is shown as X, an absent status as empty, and the other fields are copied |
| Budgets.BiddingStrategiesQuery | google_ads_mcp/tools/budgets.py:114-132 | removed campaigns are always excluded; ` AND campaign.id = {id}` is added exactly when truthy; the query always ends with ORDER BY campaign.name |
| Budgets.AdGroupBiddingQuery | google_ads_mcp/tools/budgets.py:225-241 | the same pattern on ad_group.status, ending with ORDER BY ad_group.name |
| Budgets.ChangeHistoryQuery | google_ads_mcp/tools/budgets.py:318-335 | WHERE comes only with a truthy resource type, single-quoted, and newest changes come first |
| Budgets.BiddingTargetCpa | google_ads_mcp/tools/budgets.py:135-165 | the shown target CPA is `-` exactly when both CPAs are 0; otherwise it is the effective CPA formatted |
| Budgets.BiddingStrategyTypeShown | google_ads_mcp/tools/budgets.py:135-165 | `BiddingStrategyType.X` is shown as X |
| Views.ViewOrder | google_ads_mcp/tools/views.py:552-576 | the click view orders by clicks, every other view by impressions |
| Views.ViewQuery | google_ads_mcp/tools/views.py:31-576 | every view query starts with its SELECT and the date clause first, adds the campaign id exactly when truthy, and ends with its ordering |
| Views.TopicPathJoined | google_ads_mcp/tools/views.py:369-387 | a single path value is shown unchanged; components are joined by ` > `, each extra component adding ` > ` and itself |
| Campaigns.ListCampaignsQuery | google_ads_mcp/tools/campaigns.py:29-51 | the status clause comes before the type clause, each left out for "all", with WHERE only when one exists and ORDER BY campaign.name always |
| Campaigns.StatusLiteralIsUpper | google_ads_mcp/tools/campaigns.py:39-45 | each status filter's literal is its upper-case form |
| Campaigns.CampaignPerformanceQuery | google_ads_mcp/tools/campaigns.py:131-155 | the clauses are the date, then the campaign when truthy, then the status unless "all"; ordered by cost |
| Campaigns.CampaignRowEnums | google_ads_mcp/tools/campaigns.py:54-68 | the three enum prefixes are removed from status, channel and bidding type |
| Keywords.ListKeywordsQuery | google_ads_mcp/tools/keywords.py:23-46 | the campaign clause comes before the ad-group clause, each only when truthy, with WHERE only when one exists; ordered by keyword text |
| Keywords.KeywordPerformanceQuery | google_ads_mcp/tools/keywords.py:129-155 | the date clause comes first, then the optional campaign and ad-group clauses; ordered by cost |
| Keywords.KeywordRowEnums | google_ads_mcp/tools/keywords.py:49-63 | the match-type and criterion-status prefixes are removed |
| AdGroups.ListAdGroupsQuery | google_ads_mcp/tools/ad_groups.py:28-48 | the campaign clause comes before the status clause, status is left out for "all", with WHERE only when one exists; ordered by name |
| AdGroups.AdGroupPerformanceQuery | google_ads_mcp/tools/ad_groups.py:127-155 | the clause order is date, campaign, ad group, status; ordered by cost |
| AdGroups.AdGroupRowEnums | google_ads_mcp/tools/ad_groups.py:51-62 | the status and type prefixes are removed |
| Ads.ListAdsQuery | google_ads_mcp/tools/ads.py:32-67 | the clause order is date, campaign, ad group, status; "all" adds no status clause, an unknown status is a lookup failure, every filter value succeeds; ordered by impressions |
| Ads.AdRowEnums | google_ads_mcp/tools/ads.py:70-91 | the ad-type and ad-status prefixes are removed |
| Audiences.ListAudiencesQuery | google_ads_mcp/tools/audiences.py:28-52 | the date clause comes first, then the campaign when truthy; ordered by impressions |
| Audiences.UserInterestsQuery | google_ads_mcp/tools/audiences.py:132-153 | WHERE comes exactly when the taxonomy is truthy, with the taxonomy upper-cased and quoted; ordered by name |
| Audiences.TaxonomyCaseInsensitive | google_ads_mcp/tools/audiences.py:145-147 | taxonomy values that differ only in case give the same filter |
| Audiences.UserInterestRowTaxonomy | google_ads_mcp/tools/audiences.py:156-166 | the taxonomy prefix is removed |
| SearchTerms.SearchTermsQuery | google_ads_mcp/tools/search_terms.py:20-42 | one WHERE, with the date clause first, then the campaign and ad-group clauses when given, joined by AND; ordered by impressions |
| SearchTerms.SearchTermRowStatus | google_ads_mcp/tools/search_terms.py:45-62 | the targeting-status prefix is removed |
| Text.Strip | google_ads_mcp/models/common.py:186 | `strip` leaves no surrounding whitespace and never lengthens the text; StripInfix pins which text is left |
| Text.StripInfix | google_ads_mcp/models/common.py:186 | the result is the infix of the input that starts after its leading whitespace, and every character outside that infix is whitespace |
| Text.StripSurrounded | google_ads_mcp/models/common.py:186 | a text with no whitespace at its ends, between runs of whitespace, strips to itself |
| Text.TrimStartDropsSpace | google_ads_mcp/models/common.py:186 | the leading part that strip drops is all whitespace |
| Text.TrimEndDropsSpace | google_ads_mcp/models/common.py:186 | the trailing part that strip drops is all whitespace |
| Text.RemoveCharAppend | google_ads_mcp/models/common.py:186 | `replace(c, "")` distributes over concatenation |
| Text.RemoveCharSingle | google_ads_mcp/models/common.py:186 | `replace(c, "")` drops a single character exactly when it is `c` |
| Text.StripIdempotent | google_ads_mcp/models/common.py:186 | stripping twice is stripping once |
| Text.RemoveAll | google_ads_mcp/tools/labels.py:37 | `replace(p, "")` never lengthens the text |
| Text.StripEnumPrefix | google_ads_mcp/tools/labels.py:37 | deleting the prefix from `prefix + member` gives the member |
| Text.JoinSplit | google_ads_mcp/tools/mutations/customer_list_ops.py:49 | joining the comma pieces gives back the text |
| Text.NatToStringRoundTrip | google_ads_mcp/builders/operations.py:843 | the decimal digits of a number read back as that number |
| Text.ParseIntRoundTrip | google_ads_mcp/builders/operations.py:875 | `int()` reads back the decimal form of any integer |
| Text.LiteralValueOfDigits | google_ads_mcp/builders/operations.py:875 | a literal without underscores denotes its decimal value |
| Text.UnderscoreIgnored | google_ads_mcp/builders/operations.py:875 | an underscore between two runs of a digit literal leaves its value unchanged |
| Text.GroupedThousand | google_ads_mcp/builders/operations.py:875 | `int("1_000")` is 1000 |
| Text.MisplacedUnderscores | google_ads_mcp/builders/operations.py:875 | a doubled, leading or trailing underscore makes `int()` raise |

## Left out

- I/O and transport: every remote call (`_do_query`, `_do_mutate`, `get_service`, `get_type`) is a scripted outcome, and each request is recorded instead of sent. Real sleeping and logging are replaced by the recorded list of delays.
- Duplicate submissions after a transient failure that the server already applied: that is a remote side effect.
- Text.Strip: its own contract states only that no whitespace is left at either end and that the text does not grow. The exact text strip keeps is the lemma Text.StripInfix, kept out of the function's contract because every validator unfolds Strip.
- Client.GoogleAdsClientWrapper.constructor: `base_delay` is a float in the source and a natural number of time units here. The wrapped API client is not stored.
- Floating point: the `micros_to_currency`, `format_percentage` and `format_response` helpers of `utils/formatting.py` are not modelled.
  - The bidding-strategy parser takes the currency formatter as a parameter.
  - ROAS, CTR and the other metric columns of the row parsers are not modelled; the parsers cover only the displayed identity and enum fields.
  - `target_roas` and `bid_modifier` are Dafny reals, only copied and compared with 0.
- JSON rendering (`json.dumps`): replies are datatypes holding the rows and counts rather than JSON text.
- Gaql.CollectRows: the `to_dict` fallback to `{"raw": str(row)}` is not modelled, since rows are already dicts here. The "rows returned" fallback after the table is unreachable and left out.
- CustomerList.ChangeMembers: the SHA-256 hash is an opaque function parameter. The received count is a parameter that falls back to the list length.
- Read-tool date defaults (`_default_dates`), which read the clock: start and end dates are always passed in.
- Validation: Pydantic's type coercion is not modelled; inputs arrive typed.
- Text.Strip, Text.Upper, Text.Lower and Text.AllDigits: characters are treated as ASCII, so Unicode whitespace, digits and case mappings differ from Python's (Python upper-cases "ſelect" to "SELECT"). This governs the customer-id check (Common.SanitizeCustomerId), the SELECT guard in Client.GoogleAdsClientWrapper.Query and Gaql.ExecuteGaql, the taxonomy filter of Audiences.UserInterestsQuery, the email lower-casing in CustomerList.AppendEmails, and the code-name match in Client.Categorize.
- Validation: `str_strip_whitespace=True` in `CustomerIdMixin`'s `model_config` is modelled only for the customer id. The source stores every other `str` field stripped too: `name`, `link_text`, `business_name`, each headline, description and final URL. The model stores them as given. So a whitespace-only value, which the source stores empty and the truthiness rules such as `CreationInputs.ExtensionRule` then reject, is accepted here, and the built operations carry the unstripped text.
- Validation.IsIsoDate: it accepts exactly `YYYY-MM-DD` with a real calendar day, year 0001 and up. It does not model the other spellings `date.fromisoformat` accepts.
- UpdateBuilders.BuildMerchantCenterLinkOperation: the int64 range of `shopping_setting.merchant_id` is not modelled; an id outside it is accepted here, where the protobuf assignment would raise. Non-ASCII digits that `int()` accepts are not modelled either.
- Protobuf int64 fields: the validators bound these only from below (`gt=0`), and integers here are unbounded. A value above 2^63 − 1, where the protobuf assignment would raise, is therefore written as given by these members:
  - `amount_micros`: UpdateBuilders.BuildBudgetUpdateOperation and CreateBuilders.NewTempBudget;
  - `cpc_bid_micros`: CreateBuilders.BuildCreateAdGroupOperation, CriterionBuilders.KeywordOp and UpdateBuilders.BuildUpdateKeywordOperation;
  - `target_cpa_micros`: UpdateBuilders.BuildBiddingStrategyOperation and CreateBuilders.CampaignPayloadBidding (through CreateBuilders.BuildCreateCampaignOperations);
  - `category_id`: AssetBuilders.CategoryId, which gives any digit string its decimal value.
- Dicts.Str and Formatting.CellContents: a dict key is rendered as `'` + key + `'`. Python's `repr` chooses double quotes for a key that holds `'` and no `"`, and escapes backslashes, the chosen quote and control characters such as a newline. That choice and those escapes are not modelled, so keys with such characters print differently. Scalars carry their own `repr` text.
- AssetBuilders.BuildCreateExtensionOperation: the customer and campaign ids are accepted and unused, as in the source, so the asset is never linked to a campaign.
- AdBuilders.VideoAdFormat: the remote schema's oneof between `video_responsive_ad` and `video_ad`, where a later write clears the other, is not modelled. The bumper branch writes no field: the source only reads `ad.video_ad.bumper.companion_banner` there.
- Views.ViewQuery and Audiences.ListAudiencesQuery: "campaign.id does not occur without a campaign filter" is stated structurally, as the exact query text, not as a substring search.
- Labels.ListLabelsShape: "no WHERE" is stated only structurally: the query is the constant made of its SELECT followed by its ORDER BY, and the lemma states its prefix and suffix.
- Tool bodies in the mutation modules other than the customer-list tools, and the Markdown/JSON summaries of the read tools: they chain validation, building, mutating and formatting, each of which is modelled.
- The unused customer id parameter of some query builders is dropped.
- The server, tool registration, authentication and the refresh-token script are not part of this model.
