/** The audience read tools: the campaign-audience and user-interest GAQL
    builders and the user-interest row parser. */
module Audiences {
  import opened Wrappers
  import opened Text
  import opened QueryAssembly
  import opened Helpers

  const AudiencesBase := "SELECT campaign_audience_view.resource_name, campaign.name, "
    + "campaign_criterion.criterion_id, metrics.impressions, metrics.clicks, "
    + "metrics.cost_micros, metrics.conversions FROM campaign_audience_view"
  const ImpressionsOrder := " ORDER BY metrics.impressions DESC"

  const UserInterestsBase := "SELECT user_interest.user_interest_id, user_interest.name, "
    + "user_interest.taxonomy_type, user_interest.availabilities FROM user_interest"
  const UserInterestsOrder := " ORDER BY user_interest.name"

  const TaxonomyTypePrefix := "UserInterestTaxonomyType."

  /** The campaign-audience query: the date range, the campaign only for a
      truthy id, ordered by impressions. */
  method ListAudiencesQuery(campaignId: Option<string>, start: string, end: string) returns (query: string)
    ensures Truthy(campaignId) ==>
      query == AudiencesBase + WhereKeyword + DateClause(start, end) + AndKeyword
        + IdClause("campaign.id", campaignId.value) + ImpressionsOrder
    ensures !Truthy(campaignId) ==>
      query == AudiencesBase + WhereKeyword + DateClause(start, end) + ImpressionsOrder
  {
    query := DatedCampaignQuery(AudiencesBase, start, end, campaignId, ImpressionsOrder);
  }

  /** The user-interest query: a truthy taxonomy filter is upper-cased and
      single-quoted, WHERE appears only with it, and the query is always
      ordered by name. */
  method UserInterestsQuery(taxonomyType: Option<string>) returns (query: string)
    ensures Truthy(taxonomyType) ==>
      query == UserInterestsBase + WhereKeyword
        + QuotedClause("user_interest.taxonomy_type", Upper(taxonomyType.value)) + UserInterestsOrder
    ensures !Truthy(taxonomyType) ==> query == UserInterestsBase + UserInterestsOrder
  {
    query := UserInterestsBase;
    var where: seq<string> := [];
    if Truthy(taxonomyType) {
      var upper := Upper(taxonomyType.value);
      where := where + [QuotedClause("user_interest.taxonomy_type", upper)];
    }
    if where != [] {
      query := query + WhereKeyword + Join(AndKeyword, where);
    }
    query := query + UserInterestsOrder;
  }

  /** The taxonomy filter is case-insensitive: two spellings that agree
      once upper-cased give the same clause, and a lower-case spelling
      gives the same clause as the upper-case one. */
  lemma TaxonomyCaseInsensitive(a: string, b: string)
    requires Upper(a) == Upper(b)
    ensures a != "" <==> b != ""
    ensures QuotedClause("user_interest.taxonomy_type", Upper(a))
         == QuotedClause("user_interest.taxonomy_type", Upper(b))
    ensures QuotedClause("user_interest.taxonomy_type", Upper(Lower(a)))
         == QuotedClause("user_interest.taxonomy_type", Upper(a))
  {
    assert |a| == |Upper(a)| == |Upper(b)| == |b|;
    assert Upper(Lower(a)) == Upper(a) by {
      forall i | 0 <= i < |a|
        ensures Upper(Lower(a))[i] == Upper(a)[i]
      {
        var c := a[i];
        assert Lower(a)[i] == LowerChar(c);
      }
    }
  }

  /** A user interest as the API returns it; absent fields are None. */
  datatype UserInterestResult = UserInterestResult(
    id: Option<string>, name: Option<string>, taxonomyType: Option<string>, availabilities: Option<string>)

  datatype UserInterestRow = UserInterestRow(
    id: string, name: string, taxonomyType: string, availabilities: string)

  /** The display row of a user interest: every field through `safe_str`,
      with the taxonomy enum prefix deleted. */
  function ParseUserInterestRow(u: UserInterestResult): UserInterestRow {
    UserInterestRow(SafeStr(u.id), SafeStr(u.name),
      RemoveAll(SafeStr(u.taxonomyType), TaxonomyTypePrefix), SafeStr(u.availabilities))
  }

  /** A taxonomy written "UserInterestTaxonomyType.MEMBER" is shown as MEMBER. */
  lemma UserInterestRowTaxonomy(u: UserInterestResult, member: string)
    requires u.taxonomyType == Some(TaxonomyTypePrefix + member) && !Contains(member, TaxonomyTypePrefix)
    ensures ParseUserInterestRow(u).taxonomyType == member
  {
    StripEnumPrefix(TaxonomyTypePrefix, member);
  }
}
