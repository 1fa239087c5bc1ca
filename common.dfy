/** Customer-id sanitisation, shared by every input model, and the value sets
    of the string enums the input models accept. */
module Common {
  import opened Wrappers
  import opened Text

  /** Why a customer id was refused. */
  datatype CustomerIdError =
    | NotNumeric(value: string)
    | WrongLength(digits: nat)

  /** The ValueError text for each refusal. */
  function CustomerIdErrorMessage(e: CustomerIdError): string {
    match e
    case NotNumeric(v) => "Customer ID must be numeric, got: '" + v + "'"
    case WrongLength(n) => "Customer ID must be 10 digits, got " + NatToString(n) + " digits"
  }

  /** `value.strip().replace("-", "")`. */
  function CleanCustomerId(value: string): (c: string)
    ensures '-' !in c
  {
    RemoveChar(Strip(value), '-')
  }

  /** `sanitize_customer_id`: strip, drop dashes, then require digits (first)
      and exactly ten of them (second). */
  function SanitizeCustomerId(value: string): (r: Result<string, CustomerIdError>)
    ensures !AllDigits(CleanCustomerId(value)) ==> r == Err(NotNumeric(value))
    ensures AllDigits(CleanCustomerId(value)) && |CleanCustomerId(value)| != 10 ==>
      r == Err(WrongLength(|CleanCustomerId(value)|))
    ensures r.Ok? <==> AllDigits(CleanCustomerId(value)) && |CleanCustomerId(value)| == 10
    ensures r.Ok? ==> r.value == CleanCustomerId(value)
  {
    var cleaned := CleanCustomerId(value);
    if !AllDigits(cleaned) then Err(NotNumeric(value))
    else if |cleaned| != 10 then Err(WrongLength(|cleaned|))
    else Ok(cleaned)
  }

  /** Every accepted id is exactly ten digits, and sanitising it again gives it back. */
  lemma SanitizeIdempotent(value: string)
    requires SanitizeCustomerId(value).Ok?
    ensures var c := SanitizeCustomerId(value).value;
      |c| == 10 && AllDigits(c) && SanitizeCustomerId(c) == Ok(c)
  {
    var c := SanitizeCustomerId(value).value;
    DigitsClean(c);
  }

  /** Ten-or-any-number of digits are their own cleaned form. */
  lemma DigitsClean(c: string)
    requires AllDigits(c)
    ensures CleanCustomerId(c) == c
  {
    assert IsDigit(c[0]) && IsDigit(c[|c| - 1]);
    StripUnchanged(c);
    assert '-' !in c by {
      forall i | 0 <= i < |c| ensures c[i] != '-' {
        assert IsDigit(c[i]);
      }
    }
  }

  /** Cleaning drops the surrounding whitespace and exactly the dashes of what
      is left: every other character is kept, in order. */
  lemma CleanDropsSpaceAndDashes(w1: string, v: string, w2: string)
    requires forall i :: 0 <= i < |w1| ==> IsSpace(w1[i])
    requires forall i :: 0 <= i < |w2| ==> IsSpace(w2[i])
    requires v == [] || (!IsSpace(v[0]) && !IsSpace(v[|v| - 1]))
    ensures CleanCustomerId(w1 + v + w2) == RemoveChar(v, '-')
  {
    StripSurrounded(w1, v, w2);
  }

  /** Digit groups joined by dashes, such as "123-456-7890", sanitise to the
      digits alone when there are ten of them. */
  lemma DashedIdSanitised(a: string, b: string, c: string)
    requires AllDigits(a) && AllDigits(b) && AllDigits(c) && |a| + |b| + |c| == 10
    ensures SanitizeCustomerId(a + "-" + b + "-" + c) == Ok(a + b + c)
  {
    var v := a + "-" + b + "-" + c;
    assert v[0] == a[0] && v[|v| - 1] == c[|c| - 1];
    StripUnchanged(v);
    DashesDropped(a, b, c);
    DigitsConcat(a, b);
    DigitsConcat(a + b, c);
  }

  /** Removing the dashes from `a-b-c` leaves `abc` when the groups have none. */
  lemma DashesDropped(a: string, b: string, c: string)
    requires AllDigits(a) && AllDigits(b) && AllDigits(c)
    ensures RemoveChar(a + "-" + b + "-" + c, '-') == a + b + c
  {
    assert a + "-" + b + "-" + c == a + "-" + (b + "-" + c);
    DashAfterDigits(a, b + "-" + c);
    DashAfterDigits(b, c);
    DigitsKept(c);
  }

  /** A dash after a digit group is dropped and the group is kept. */
  lemma DashAfterDigits(a: string, rest: string)
    requires AllDigits(a)
    ensures RemoveChar(a + "-" + rest, '-') == a + RemoveChar(rest, '-')
  {
    assert a + "-" + rest == a + ("-" + rest);
    RemoveCharAppend(a, "-" + rest, '-');
    RemoveCharAppend("-", rest, '-');
    RemoveCharSingle('-', '-');
    DigitsKept(a);
  }

  /** Digits have no dash to remove. */
  lemma DigitsKept(v: string)
    requires AllDigits(v)
    ensures RemoveChar(v, '-') == v
  {
    assert '-' !in v by {
      forall i | 0 <= i < |v| ensures v[i] != '-' {
        assert IsDigit(v[i]);
      }
    }
  }

  lemma DigitsConcat(a: string, b: string)
    requires AllDigits(a) && AllDigits(b)
    ensures AllDigits(a + b)
  {
    var d := a + b;
    forall i | 0 <= i < |d| ensures IsDigit(d[i]) {
      if i < |a| { assert d[i] == a[i]; } else { assert d[i] == b[i - |a|]; }
    }
  }

  /** An id between whitespace, such as "  1234567890  ", sanitises to the id. */
  lemma PaddedIdSanitised(w1: string, v: string, w2: string)
    requires forall i :: 0 <= i < |w1| ==> IsSpace(w1[i])
    requires forall i :: 0 <= i < |w2| ==> IsSpace(w2[i])
    requires AllDigits(v) && |v| == 10
    ensures SanitizeCustomerId(w1 + v + w2) == Ok(v)
  {
    assert IsDigit(v[0]) && IsDigit(v[|v| - 1]);
    CleanDropsSpaceAndDashes(w1, v, w2);
    DigitsClean(v);
    StripUnchanged(v);
  }

  /** The dashed example id gives its ten digits. */
  lemma DashedExample()
    ensures SanitizeCustomerId("123-456-7890") == Ok("1234567890")
  {
    var a, b, c := "123", "456", "7890";
    assert AllDigits(a) && AllDigits(b) && AllDigits(c);
    DashedIdSanitised(a, b, c);
    DashedExampleParts();
  }

  lemma DashedExampleParts()
    ensures "123" + "-" + "456" + "-" + "7890" == "123-456-7890"
    ensures "123" + "456" + "7890" == "1234567890"
  {
  }

  /** The padded example id gives the id without its spaces. */
  lemma PaddedExample()
    ensures SanitizeCustomerId("  1234567890  ") == Ok("1234567890")
  {
    var w, v := "  ", "1234567890";
    assert AllDigits(v);
    assert IsSpace(w[0]) && IsSpace(w[1]);
    PaddedIdSanitised(w, v, w);
    PaddedExampleParts();
  }

  lemma PaddedExampleParts()
    ensures "  " + "1234567890" + "  " == "  1234567890  "
  {
  }

  /** Cleaning a stripped value is cleaning the value. */
  lemma CleanStripped(raw: string)
    ensures CleanCustomerId(Strip(raw)) == CleanCustomerId(raw)
  {
    StripIdempotent(raw);
  }

  /** `CustomerIdMixin.customer_id`: the model strips string fields before the
      validator runs, and stores the sanitised id. */
  function ValidateCustomerId(raw: string): (r: Result<string, CustomerIdError>)
    ensures r.Ok? ==> |r.value| == 10 && AllDigits(r.value) && r.value == CleanCustomerId(raw)
    ensures r.Err? && r.error.NotNumeric? ==> r.error.value == Strip(raw)
  {
    var stripped := Strip(raw);
    CleanStripped(raw);
    SanitizeCustomerId(stripped)
  }

  // The value sets of the string enums (the `value` of each member).
  const CampaignStatusFilterValues: set<string> := {"all", "enabled", "paused", "removed"}
  const AdGroupStatusFilterValues: set<string> := {"all", "enabled", "paused", "removed"}
  const CampaignTypeFilterValues: set<string> := {
    "all", "search", "display", "shopping", "video", "performance_max", "demand_gen",
    "app", "smart", "hotel", "local", "local_services", "travel"}
  const MatchTypeValues: set<string> := {"exact", "phrase", "broad"}
  const StatusActionValues: set<string> := {"enable", "pause", "remove"}
  const NegativeKeywordLevelValues: set<string> := {"campaign", "ad_group"}
  const CampaignTypeValues: set<string> := {
    "SEARCH", "DISPLAY", "SHOPPING", "VIDEO", "PERFORMANCE_MAX", "DEMAND_GEN"}
  const BiddingStrategyTypeValues: set<string> := {
    "MANUAL_CPC", "TARGET_CPA", "TARGET_ROAS", "MAXIMIZE_CONVERSIONS",
    "MAXIMIZE_CONVERSION_VALUE", "MAXIMIZE_CLICKS"}
  const AdGroupTypeValues: set<string> := {
    "SEARCH_STANDARD", "DISPLAY_STANDARD", "SHOPPING_PRODUCT", "VIDEO_RESPONSIVE"}
  const ExtensionTypeValues: set<string> := {"SITELINK", "CALLOUT", "CALL", "STRUCTURED_SNIPPET"}
  const DeviceTypeValues: set<string> := {"MOBILE", "DESKTOP", "TABLET"}
  const DemographicDimensionValues: set<string> := {"AGE", "GENDER", "PARENTAL_STATUS", "INCOME"}
  const AudienceTypeValues: set<string> := {"IN_MARKET", "AFFINITY", "CUSTOM_INTENT", "REMARKETING"}
  const AssetTypeValues: set<string> := {"TEXT", "IMAGE", "YOUTUBE_VIDEO", "MEDIA_BUNDLE", "CALL_TO_ACTION"}
  const AssetFieldTypeValues: set<string> := {
    "HEADLINE", "DESCRIPTION", "LONG_HEADLINE", "BUSINESS_NAME", "MARKETING_IMAGE",
    "SQUARE_MARKETING_IMAGE", "LOGO", "LANDSCAPE_LOGO", "YOUTUBE_VIDEO", "CALL_TO_ACTION_SELECTION"}
  const VideoAdFormatValues: set<string> := {
    "IN_STREAM_SKIPPABLE", "IN_STREAM_NON_SKIPPABLE", "BUMPER", "VIDEO_RESPONSIVE"}
  const ListingGroupDimensionValues: set<string> := {
    "BRAND", "CATEGORY_L1", "CATEGORY_L2", "PRODUCT_TYPE_L1", "PRODUCT_TYPE_L2",
    "CUSTOM_LABEL_0", "CUSTOM_LABEL_1", "ITEM_ID", "CONDITION"}
}
