/** The report-view read tools: six GAQL builders that share one shape (a
    mandatory date range, an optional campaign, a fixed ordering) and the
    topic-path rendering of the topic-view parser. */
module Views {
  import opened Wrappers
  import opened Text
  import opened QueryAssembly
  import opened Helpers

  datatype View = Geographic | ShoppingPerformance | DisplayKeyword | Topic | UserLocation | Click

  const ImpressionsOrder := " ORDER BY metrics.impressions DESC"
  const ClicksOrder := " ORDER BY metrics.clicks DESC"
  const PathSeparator := " > "

  /** The SELECT … FROM of each view. */
  function ViewBase(v: View): string {
    match v
    case Geographic =>
      "SELECT geographic_view.country_criterion_id, geographic_view.location_type, "
      + "campaign.name, metrics.impressions, metrics.clicks, metrics.cost_micros, "
      + "metrics.conversions FROM geographic_view"
    case ShoppingPerformance =>
      "SELECT segments.product_item_id, segments.product_title, segments.product_brand, "
      + "segments.product_category_level1, metrics.impressions, metrics.clicks, "
      + "metrics.cost_micros, metrics.conversions FROM shopping_performance_view"
    case DisplayKeyword =>
      "SELECT display_keyword_view.resource_name, ad_group_criterion.display_name, "
      + "ad_group_criterion.keyword.text, metrics.impressions, metrics.clicks, "
      + "metrics.cost_micros, metrics.conversions FROM display_keyword_view"
    case Topic =>
      "SELECT topic_view.resource_name, ad_group_criterion.topic.path, "
      + "metrics.impressions, metrics.clicks, metrics.cost_micros, metrics.conversions "
      + "FROM topic_view"
    case UserLocation =>
      "SELECT user_location_view.country_criterion_id, user_location_view.targeting_location, "
      + "metrics.impressions, metrics.clicks, metrics.cost_micros, metrics.conversions "
      + "FROM user_location_view"
    case Click =>
      "SELECT click_view.gclid, click_view.area_of_interest.city, "
      + "click_view.area_of_interest.country, click_view.campaign_location_target, "
      + "segments.ad_network_type, segments.device, metrics.clicks FROM click_view"
  }

  /** The click view is ordered by clicks, every other view by impressions. */
  function ViewOrder(v: View): (order: string)
    ensures v == Click <==> order == ClicksOrder
    ensures v != Click <==> order == ImpressionsOrder
  {
    if v == Click then ClicksOrder else ImpressionsOrder
  }

  /** The query of one of the six views. */
  method ViewQuery(v: View, start: string, end: string, campaignId: Option<string>) returns (query: string)
    ensures Truthy(campaignId) ==>
      query == ViewBase(v) + WhereKeyword + DateClause(start, end) + AndKeyword
        + IdClause("campaign.id", campaignId.value) + ViewOrder(v)
    ensures !Truthy(campaignId) ==>
      query == ViewBase(v) + WhereKeyword + DateClause(start, end) + ViewOrder(v)
    ensures StartsWith(query, ViewBase(v) + WhereKeyword + DateClause(start, end))
    ensures EndsWith(query, ViewOrder(v))
  {
    query := DatedCampaignQuery(ViewBase(v), start, end, campaignId, ViewOrder(v));
  }

  /** `agc.topic.path` as the API returns it: a list of components or a
      single value. */
  datatype TopicPath = Components(parts: seq<Option<string>>) | Single(value: Option<string>)

  function SafeStrs(parts: seq<Option<string>>): (r: seq<string>)
    ensures |r| == |parts|
    ensures forall i :: 0 <= i < |parts| ==> r[i] == SafeStr(parts[i])
  {
    seq(|parts|, i requires 0 <= i < |parts| => SafeStr(parts[i]))
  }

  /** The `topic_path` shown for a topic-view row. */
  function TopicPathText(p: TopicPath): string {
    match p
    case Components(parts) => Join(PathSeparator, SafeStrs(parts))
    case Single(value) => SafeStr(value)
  }

  /** A single value is shown unchanged, a one-component list is shown as
      that component, and each further component extends the text by
      " > " and the component. */
  lemma {:induction false} TopicPathJoined(parts: seq<Option<string>>, deeper: Option<string>)
    ensures TopicPathText(Single(deeper)) == SafeStr(deeper)
    ensures TopicPathText(Components([deeper])) == SafeStr(deeper)
    ensures TopicPathText(Components([])) == ""
    ensures parts != [] ==>
      TopicPathText(Components(parts + [deeper]))
        == TopicPathText(Components(parts)) + PathSeparator + SafeStr(deeper)
  {
    if parts != [] {
      assert SafeStrs(parts + [deeper]) == SafeStrs(parts) + [SafeStr(deeper)];
      JoinAppend(PathSeparator, SafeStrs(parts), [SafeStr(deeper)]);
    }
  }
}
