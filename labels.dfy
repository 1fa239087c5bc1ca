/** The label read tools: six GAQL builders (two constant, four filtered by
    optional ids) and the label row parser. */
module Labels {
  import opened Wrappers
  import opened Text
  import opened QueryAssembly
  import opened Helpers

  const ListLabelsFrom := "SELECT label.id, label.name, label.status, "
    + "label.text_label.background_color, label.text_label.description FROM label"
  const LabelOrder := " ORDER BY label.name"
  /** The list-labels query: a fixed text, ordered by name. */
  const ListLabelsQuery := ListLabelsFrom + LabelOrder
  /** The customer-labels query: a fixed text with no filter and no order. */
  const CustomerLabelsQuery := "SELECT customer.id, label.id, label.name FROM customer_label"

  const CampaignLabelsBase := "SELECT campaign.id, campaign.name, label.id, label.name FROM campaign_label"
  const AdGroupLabelsBase := "SELECT ad_group.id, ad_group.name, label.id, label.name FROM ad_group_label"
  const AdLabelsBase := "SELECT ad_group_ad.ad.id, ad_group_ad.ad.name, label.id, label.name FROM ad_group_ad_label"
  const CriterionLabelsBase := "SELECT ad_group_criterion.criterion_id, label.id, label.name FROM ad_group_criterion_label"

  const LabelStatusPrefix := "LabelStatus."

  /** The list-labels query is its fixed SELECT followed directly by its
      ORDER BY: no clause is ever added in between. */
  lemma ListLabelsShape()
    ensures StartsWith(ListLabelsQuery, ListLabelsFrom)
    ensures EndsWith(ListLabelsQuery, LabelOrder)
  {
    assert ListLabelsQuery[|ListLabelsFrom|..] == LabelOrder;
  }

  /** Associations of campaigns with labels, filtered by a campaign id and
      then a label id, each only when truthy. */
  method CampaignLabelsQuery(campaignId: Option<string>, labelId: Option<string>) returns (query: string)
    ensures Truthy(campaignId) && Truthy(labelId) ==>
      query == CampaignLabelsBase + WhereKeyword + IdClause("campaign.id", campaignId.value)
        + AndKeyword + IdClause("label.id", labelId.value)
    ensures Truthy(campaignId) && !Truthy(labelId) ==>
      query == CampaignLabelsBase + WhereKeyword + IdClause("campaign.id", campaignId.value)
    ensures !Truthy(campaignId) && Truthy(labelId) ==>
      query == CampaignLabelsBase + WhereKeyword + IdClause("label.id", labelId.value)
    ensures !Truthy(campaignId) && !Truthy(labelId) ==> query == CampaignLabelsBase
  {
    query := CampaignLabelsBase;
    var where: seq<string> := [];
    if Truthy(campaignId) {
      where := where + [IdClause("campaign.id", campaignId.value)];
    }
    if Truthy(labelId) {
      where := where + [IdClause("label.id", labelId.value)];
    }
    if where != [] {
      query := query + WhereKeyword + Join(AndKeyword, where);
    }
  }

  /** Associations of ad groups with labels, filtered by an ad-group id and
      then a label id, each only when truthy. */
  method AdGroupLabelsQuery(adGroupId: Option<string>, labelId: Option<string>) returns (query: string)
    ensures Truthy(adGroupId) && Truthy(labelId) ==>
      query == AdGroupLabelsBase + WhereKeyword + IdClause("ad_group.id", adGroupId.value)
        + AndKeyword + IdClause("label.id", labelId.value)
    ensures Truthy(adGroupId) && !Truthy(labelId) ==>
      query == AdGroupLabelsBase + WhereKeyword + IdClause("ad_group.id", adGroupId.value)
    ensures !Truthy(adGroupId) && Truthy(labelId) ==>
      query == AdGroupLabelsBase + WhereKeyword + IdClause("label.id", labelId.value)
    ensures !Truthy(adGroupId) && !Truthy(labelId) ==> query == AdGroupLabelsBase
  {
    query := AdGroupLabelsBase;
    var where: seq<string> := [];
    if Truthy(adGroupId) {
      where := where + [IdClause("ad_group.id", adGroupId.value)];
    }
    if Truthy(labelId) {
      where := where + [IdClause("label.id", labelId.value)];
    }
    if where != [] {
      query := query + WhereKeyword + Join(AndKeyword, where);
    }
  }

  /** The query a base table filtered only by an optional label id gives. */
  method LabelFilteredQuery(base: string, labelId: Option<string>) returns (query: string)
    ensures Truthy(labelId) ==> query == base + WhereKeyword + IdClause("label.id", labelId.value)
    ensures !Truthy(labelId) ==> query == base
  {
    query := base;
    var where: seq<string> := [];
    if Truthy(labelId) {
      where := where + [IdClause("label.id", labelId.value)];
    }
    if where != [] {
      query := query + WhereKeyword + Join(AndKeyword, where);
    }
  }

  /** Associations of ads with labels, filtered by a truthy label id. */
  method AdLabelsQuery(labelId: Option<string>) returns (query: string)
    ensures Truthy(labelId) ==> query == AdLabelsBase + WhereKeyword + IdClause("label.id", labelId.value)
    ensures !Truthy(labelId) ==> query == AdLabelsBase
  {
    query := LabelFilteredQuery(AdLabelsBase, labelId);
  }

  /** Associations of ad-group criteria with labels, filtered by a truthy
      label id. */
  method CriterionLabelsQuery(labelId: Option<string>) returns (query: string)
    ensures Truthy(labelId) ==> query == CriterionLabelsBase + WhereKeyword + IdClause("label.id", labelId.value)
    ensures !Truthy(labelId) ==> query == CriterionLabelsBase
  {
    query := LabelFilteredQuery(CriterionLabelsBase, labelId);
  }

  /** A label as the API returns it; absent fields are None. */
  datatype LabelResult = LabelResult(
    id: Option<string>, name: Option<string>, status: Option<string>,
    backgroundColor: Option<string>, description: Option<string>)

  datatype LabelRow = LabelRow(
    id: string, name: string, status: string, backgroundColor: string, description: string)

  /** The display row of a label: every field through `safe_str`, and every
      "LabelStatus." deleted from the status. */
  function ParseLabelRow(l: LabelResult): LabelRow {
    LabelRow(SafeStr(l.id), SafeStr(l.name), RemoveAll(SafeStr(l.status), LabelStatusPrefix),
      SafeStr(l.backgroundColor), SafeStr(l.description))
  }

  /** A status written as "LabelStatus.MEMBER" is shown as MEMBER, an absent
      one as empty, and the other fields are copied. */
  lemma LabelRowStatus(l: LabelResult, member: string)
    requires l.status == Some(LabelStatusPrefix + member) && !Contains(member, LabelStatusPrefix)
    ensures ParseLabelRow(l).status == member
    ensures ParseLabelRow(l.(status := None)).status == ""
    ensures ParseLabelRow(l).id == SafeStr(l.id) && ParseLabelRow(l).name == SafeStr(l.name)
  {
    StripEnumPrefix(LabelStatusPrefix, member);
  }
}
