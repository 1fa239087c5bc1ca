/** How the read tools assemble GAQL text: a base SELECT … FROM, clauses
    collected in a list, `" WHERE " + " AND ".join(where)` when the list is
    non-empty (or always, for the date-bounded reports), then ORDER BY. */
module QueryAssembly {
  import opened Wrappers
  import opened Text

  const WhereKeyword := " WHERE "
  const AndKeyword := " AND "

  /** `" WHERE " + " AND ".join(where)` when `where` is non-empty, else nothing. */
  function Where(clauses: seq<string>): string {
    if clauses == [] then "" else WhereKeyword + Join(AndKeyword, clauses)
  }

  /** The clause an `if x: where.append(clause)` contributes. */
  function Opt(present: bool, clause: string): (r: seq<string>)
    ensures |r| <= 1
  {
    if present then [clause] else []
  }

  /** `f"segments.date BETWEEN '{start}' AND '{end}'"`. */
  function DateClause(start: string, end: string): string {
    "segments.date BETWEEN '" + start + "' AND '" + end + "'"
  }

  /** `f"{field} = {value}"`: an id compared unquoted. */
  function IdClause(field: string, id: string): string {
    field + " = " + id
  }

  /** `f"{field} = '{value}'"`: an enum literal compared quoted. */
  function QuotedClause(field: string, value: string): string {
    field + " = '" + value + "'"
  }

  /** The truthy id of an optional filter argument, as an id clause. */
  function IdFilter(field: string, id: Option<string>): (r: seq<string>)
    ensures r != [] <==> Truthy(id)
  {
    Opt(Truthy(id), IdClause(field, id.GetOr("")))
  }

  /** WHERE appears exactly when some clause was collected, and then it
      starts the assembled text. */
  lemma WhereIff(clauses: seq<string>)
    ensures Where(clauses) != "" <==> clauses != []
    ensures clauses != [] ==> WhereKeyword <= Where(clauses)
  {
  }

  /** Clauses appear in the order they were appended, separated by AND. */
  lemma WhereOrder(a: seq<string>, b: seq<string>)
    requires a != [] && b != []
    ensures Where(a + b) == Where(a) + AndKeyword + Join(AndKeyword, b)
  {
    JoinAppend(AndKeyword, a, b);
  }

  /** Joining two non-empty lists is joining each and putting one more
      separator between them. */
  lemma {:induction false} JoinAppend(sep: string, a: seq<string>, b: seq<string>)
    requires a != [] && b != []
    ensures Join(sep, a + b) == Join(sep, a) + sep + Join(sep, b)
    decreases |a|
  {
    if |a| == 1 {
      assert (a + b)[1..] == b;
      assert (a + b)[0] == a[0];
    } else {
      assert (a + b)[1..] == a[1..] + b;
      JoinAppend(sep, a[1..], b);
    }
  }

  predicate EndsWith(s: string, suffix: string) {
    |suffix| <= |s| && s[|s| - |suffix|..] == suffix
  }

  /** What an optional clause after a mandatory first one adds to the text:
      " AND " and the clause when present, nothing otherwise. */
  function AndOpt(present: bool, clause: string): string {
    if present then AndKeyword + clause else ""
  }

  /** Appending a clause to a non-empty list extends its joined text by
      " AND " and the clause; appending nothing leaves it alone. */
  lemma JoinSnoc(where: seq<string>, present: bool, clause: string)
    requires where != []
    ensures Join(AndKeyword, where + Opt(present, clause)) == Join(AndKeyword, where) + AndOpt(present, clause)
  {
    if present {
      JoinAppend(AndKeyword, where, [clause]);
    } else {
      assert where + Opt(present, clause) == where;
    }
  }

  /** The shape the view and audience reports share: the date range is always the
      first clause, the campaign follows it exactly when its id is truthy,
      and the ordering ends it. */
  method DatedCampaignQuery(base: string, start: string, end: string, campaignId: Option<string>, order: string)
    returns (query: string)
    ensures Truthy(campaignId) ==>
      query == base + WhereKeyword + DateClause(start, end) + AndKeyword
        + IdClause("campaign.id", campaignId.value) + order
    ensures !Truthy(campaignId) ==> query == base + WhereKeyword + DateClause(start, end) + order
    ensures StartsWith(query, base + WhereKeyword + DateClause(start, end))
    ensures EndsWith(query, order)
  {
    query := base;
    var where: seq<string> := [DateClause(start, end)];
    if Truthy(campaignId) {
      where := where + [IdClause("campaign.id", campaignId.value)];
    }
    query := query + WhereKeyword + Join(AndKeyword, where);
    ghost var filtered := query;
    query := query + order;
    assert query[..|filtered|] == filtered && query[|filtered|..] == order;
  }

  /** A single clause stands alone after WHERE. */
  lemma WhereSingle(c: string)
    ensures Where([c]) == WhereKeyword + c
  {
  }
}
