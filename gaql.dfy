/** The custom-query tool: flattening nested row dicts into dotted keys, the
    SELECT-only guard, the row limit and the choice of table columns. */
module Gaql {
  import opened Wrappers
  import opened Text
  import opened Dicts
  import opened Common
  import opened Formatting

  const NotSelectMessage := "Error: Only SELECT queries are allowed."
  const NoResultsMessage := "No results found."
  const MaxColumns := 10

  /** The dict the caller hands in to be filled. */
  class FlatDict {
    var entries: seq<Entry>

    constructor()
      ensures entries == []
    {
      entries := [];
    }

    /** `out[key] = value`. */
    method Set(key: string, value: Data)
      modifies this
      ensures entries == Put(old(entries), key, value)
    {
      entries := Put(entries, key, value);
    }
  }

  /** `f"{prefix}.{k}" if prefix else k`. */
  function JoinKey(prefix: string, k: string): string {
    if prefix != "" then prefix + "." + k else k
  }

  /** The writes `_flatten_dict` makes for entries i.. of d, in order: a dict
      value is descended into, anything else (lists included) is a leaf. */
  function Leaves(d: Data, i: nat, prefix: string): seq<Entry>
    requires d.DictOf? && i <= |d.entries|
    decreases d, |d.entries| - i
  {
    if i == |d.entries| then []
    else
      var e := d.entries[i];
      var key := JoinKey(prefix, e.key);
      (if e.value.DictOf? then Leaves(e.value, 0, key) else [Entry(key, e.value)])
      + Leaves(d, i + 1, prefix)
  }

  /** One entry of `_flatten_dict`'s loop: writing entry i (descending
      into a dict value) and then the writes for the entries after it is
      the writes for entries i.. . */
  lemma FlattenStep(before: seq<Entry>, after: seq<Entry>, d: Data, i: nat, prefix: string)
    requires d.DictOf? && i < |d.entries|
    requires var e := d.entries[i];
      var key := JoinKey(prefix, e.key);
      after == if e.value.DictOf? then PutAll(before, Leaves(e.value, 0, key)) else Put(before, key, e.value)
    ensures PutAll(after, Leaves(d, i + 1, prefix)) == PutAll(before, Leaves(d, i, prefix))
  {
    var e := d.entries[i];
    var key := JoinKey(prefix, e.key);
    if e.value.DictOf? {
      PutAllAppend(before, Leaves(e.value, 0, key), Leaves(d, i + 1, prefix));
    } else {
      PutAllUnfold(before, [Entry(key, e.value)] + Leaves(d, i + 1, prefix));
      assert ([Entry(key, e.value)] + Leaves(d, i + 1, prefix))[1..] == Leaves(d, i + 1, prefix);
    }
  }

  /** `_flatten_dict(d, out, prefix)`. */
  method FlattenInto(d: Data, out: FlatDict, prefix: string)
    requires d.DictOf?
    modifies out
    ensures out.entries == PutAll(old(out.entries), Leaves(d, 0, prefix))
    decreases d, 1
  {
    ghost var target := PutAll(out.entries, Leaves(d, 0, prefix));
    var i := 0;
    while i < |d.entries|
      invariant 0 <= i <= |d.entries|
      invariant PutAll(out.entries, Leaves(d, i, prefix)) == target
    {
      FlattenEntry(d, i, out, prefix);
      i := i + 1;
    }
  }

  /** One iteration of `_flatten_dict`'s loop: entry i is descended into
      when its value is a dict and written under its joined key otherwise. */
  method FlattenEntry(d: Data, i: nat, out: FlatDict, prefix: string)
    requires d.DictOf? && i < |d.entries|
    modifies out
    ensures PutAll(out.entries, Leaves(d, i + 1, prefix)) == PutAll(old(out.entries), Leaves(d, i, prefix))
    decreases d, 0
  {
    var k, v := d.entries[i].key, d.entries[i].value;
    var key := JoinKey(prefix, k);
    if v.DictOf? {
      FlattenInto(v, out, key);
    } else {
      out.Set(key, v);
    }
    FlattenStep(old(out.entries), out.entries, d, i, prefix);
  }

  /** A flattened value is never itself a dict. */
  lemma {:induction false} LeavesAreLeaves(d: Data, i: nat, prefix: string)
    requires d.DictOf? && i <= |d.entries|
    ensures forall e :: e in Leaves(d, i, prefix) ==> !e.value.DictOf?
    decreases d, |d.entries| - i
  {
    if i < |d.entries| {
      var e := d.entries[i];
      var key := JoinKey(prefix, e.key);
      LeavesAreLeaves(d, i + 1, prefix);
      if e.value.DictOf? {
        LeavesAreLeaves(e.value, 0, key);
      }
    }
  }

  /** Under a non-empty prefix every flattened key is `prefix.` followed by
      the path below it. */
  lemma {:induction false} LeavesUnderPrefix(d: Data, i: nat, prefix: string)
    requires d.DictOf? && i <= |d.entries| && prefix != ""
    ensures forall e :: e in Leaves(d, i, prefix) ==> prefix + "." <= e.key
    decreases d, |d.entries| - i
  {
    if i < |d.entries| {
      var e := d.entries[i];
      var key := prefix + "." + e.key;
      LeavesUnderPrefix(d, i + 1, prefix);
      if e.value.DictOf? {
        LeavesUnderPrefix(e.value, 0, key);
        forall l | l in Leaves(e.value, 0, key) ensures prefix + "." <= l.key {
          assert key + "." <= l.key;
          assert prefix + "." <= key;
        }
      }
    }
  }

  /** A dict without nested dicts yields its own entries under an empty prefix. */
  lemma {:induction false} FlatLeaves(d: Data, i: nat)
    requires d.DictOf? && i <= |d.entries|
    requires forall e :: e in d.entries ==> !e.value.DictOf?
    ensures Leaves(d, i, "") == d.entries[i..]
    decreases |d.entries| - i
  {
    if i < |d.entries| {
      assert d.entries[i] in d.entries;
      FlatLeaves(d, i + 1);
      assert d.entries[i..] == [d.entries[i]] + d.entries[i + 1..];
    }
  }

  /** Flattening a flat dict into an empty one copies it as it is. */
  lemma FlatDictCopied(d: Data)
    requires d.DictOf? && DistinctKeys(d.entries)
    requires forall e :: e in d.entries ==> !e.value.DictOf?
    ensures PutAll([], Leaves(d, 0, "")) == d.entries
  {
    FlatLeaves(d, 0);
    assert [] + d.entries == d.entries;
    PutAllFresh([], d.entries);
  }

  /** An empty dict, or an entry whose value is an empty dict, adds no key. */
  lemma EmptyAddsNothing(key: string, prefix: string)
    ensures Leaves(DictOf([]), 0, prefix) == []
    ensures Leaves(DictOf([Entry(key, DictOf([]))]), 0, prefix) == []
  {
    var d := DictOf([Entry(key, DictOf([]))]);
    assert Leaves(d, 1, prefix) == [];
  }

  /** `{"campaign": {"id": 1, "name": "C"}}` becomes `campaign.id` and `campaign.name`. */
  lemma NestedExample(id: Data, name: Data)
    requires !id.DictOf? && !name.DictOf?
    ensures PutAll([], Leaves(DictOf([Entry("campaign", DictOf([Entry("id", id), Entry("name", name)]))]), 0, ""))
      == [Entry("campaign.id", id), Entry("campaign.name", name)]
  {
    var inner := DictOf([Entry("id", id), Entry("name", name)]);
    var d := DictOf([Entry("campaign", inner)]);
    assert JoinKey("campaign", "id") == "campaign.id" && JoinKey("campaign", "name") == "campaign.name";
    assert Leaves(inner, 2, "campaign") == [];
    assert Leaves(inner, 1, "campaign") == [Entry("campaign.name", name)];
    assert Leaves(inner, 0, "campaign") == [Entry("campaign.id", id), Entry("campaign.name", name)];
    assert Leaves(d, 1, "") == [];
    assert Leaves(d, 0, "") == [Entry("campaign.id", id), Entry("campaign.name", name)];
    var r := [Entry("campaign.id", id), Entry("campaign.name", name)];
    assert DistinctKeys([] + r) by {
      assert "campaign.id"[9] != "campaign.name"[9];
    }
    PutAllFresh([], r);
  }

  // ---------------------------------------------------------------------
  // gads_execute_gaql

  /** The reply: the text, or the JSON object `{"results", "count"}`. */
  datatype Reply = Message(text: string) | Json(results: seq<seq<Entry>>, count: nat)

  /** What the tool did: the query sent to the client (if any) and the reply. */
  datatype Run = Run(sent: Option<string>, reply: Reply)

  /** How many rows `for i, row in enumerate(rows): if i >= limit: break` keeps. */
  function Taken(limit: int, available: nat): (n: nat)
    ensures n <= available && (limit >= 0 ==> n <= limit)
    ensures limit <= 0 ==> n == 0
  {
    if limit <= 0 then 0 else if limit < available then limit else available
  }

  /** The first flattened row's keys, at most ten of them. */
  function Columns(first: seq<Entry>): (cs: seq<string>)
    ensures |cs| <= MaxColumns && cs <= KeyList(first)
  {
    var ks := KeyList(first);
    if |ks| <= MaxColumns then ks else ks[..MaxColumns]
  }

  function Flatten(row: seq<Entry>): seq<Entry> {
    PutAll([], Leaves(DictOf(row), 0, ""))
  }

  function Identity(cs: seq<string>): map<string, string> {
    map c | c in cs :: c
  }

  function ResultsHeading(n: nat): string {
    "## GAQL Results (" + NatToString(n) + " rows)\n\n"
  }

  /** The row-collecting loop. */
  method CollectRows(rows: seq<seq<Entry>>, limit: int) returns (results: seq<seq<Entry>>)
    ensures results == rows[..Taken(limit, |rows|)]
  {
    results := [];
    var i := 0;
    while i < |rows|
      invariant 0 <= i <= |rows| && i <= Taken(limit, |rows|)
      invariant results == rows[..i]
    {
      if i >= limit {
        break;
      }
      results := results + [rows[i]];
      i := i + 1;
    }
  }

  /** One result row flattened into a fresh dict. */
  method FlattenRow(row: seq<Entry>) returns (flat: seq<Entry>)
    ensures flat == Flatten(row)
  {
    var out := new FlatDict();
    FlattenInto(DictOf(row), out, "");
    flat := out.entries;
  }

  /** `f` applied to every row, in order. */
  function MapRows(f: seq<Entry> -> seq<Entry>, rows: seq<seq<Entry>>): seq<seq<Entry>>
  {
    if rows == [] then [] else MapRows(f, rows[..|rows| - 1]) + [f(rows[|rows| - 1])]
  }

  lemma {:induction false} MapRowsAt(f: seq<Entry> -> seq<Entry>, rows: seq<seq<Entry>>)
    ensures |MapRows(f, rows)| == |rows|
    ensures forall i :: 0 <= i < |rows| ==> MapRows(f, rows)[i] == f(rows[i])
  {
    if rows != [] {
      MapRowsAt(f, rows[..|rows| - 1]);
    }
  }

  /** Every row flattened, in order. */
  function FlattenAll(results: seq<seq<Entry>>): seq<seq<Entry>> {
    MapRows(Flatten, results)
  }

  /** Row i of the flattened rows is row i of the results flattened. */
  lemma FlattenAllRows(results: seq<seq<Entry>>)
    ensures |FlattenAll(results)| == |results|
    ensures forall i :: 0 <= i < |results| ==> FlattenAll(results)[i] == Flatten(results[i])
  {
    MapRowsAt(Flatten, results);
  }

  /** The flattening loop: one fresh dict per result row. */
  method FlattenRows(results: seq<seq<Entry>>) returns (flat: seq<seq<Entry>>)
    ensures flat == FlattenAll(results)
  {
    flat := [];
    var i := 0;
    while i < |results|
      invariant 0 <= i <= |results|
      invariant flat == FlattenAll(results[..i])
    {
      var row := FlattenRow(results[i]);
      flat := flat + [row];
      assert results[..i + 1][..i] == results[..i];
      assert MapRows(Flatten, results[..i + 1]) == MapRows(Flatten, results[..i]) + [Flatten(results[i])];
      i := i + 1;
    }
    assert results[..i] == results;
  }

  /** The reply for the collected rows: JSON as they are, a notice when
      there are none, else the heading and the table of the flattened rows
      over the first row's first ten keys. */
  method Render(results: seq<seq<Entry>>, responseFormat: string) returns (reply: Reply)
    ensures responseFormat == "json" ==> reply == Json(results, |results|)
    ensures responseFormat != "json" && results == [] ==> reply == Message(NoResultsMessage)
    ensures responseFormat != "json" && results != [] ==>
      var flat := FlattenAll(results);
      var cs := Columns(flat[0]);
      reply == Message(ResultsHeading(|results|) + Table(flat, cs, Some(Identity(cs))))
  {
    if responseFormat == "json" {
      return Json(results, |results|);
    }
    if results == [] {
      return Message(NoResultsMessage);
    }
    var flat := FlattenRows(results);
    FlattenAllRows(results);
    var columns := Columns(flat[0]);
    var table := FormatTableMarkdown(flat, columns, Some(Identity(columns)));
    reply := Message(ResultsHeading(|results|) + table);
  }

  /** `gads_execute_gaql`; `rows` are the row dicts the client would return
      for the query. */
  method ExecuteGaql(customerId: string, query: string, limit: int, responseFormat: string,
                     rows: seq<seq<Entry>>)
    returns (r: Result<Run, CustomerIdError>)
    ensures SanitizeCustomerId(customerId).Err? ==> r == Err(SanitizeCustomerId(customerId).error)
    ensures SanitizeCustomerId(customerId).Ok? && !StartsWith(Upper(Strip(query)), "SELECT")
      ==> r == Ok(Run(None, Message(NotSelectMessage)))
    ensures SanitizeCustomerId(customerId).Ok? && StartsWith(Upper(Strip(query)), "SELECT") ==>
      var results := rows[..Taken(limit, |rows|)];
      r.Ok? && r.value.sent == Some(Strip(query))
      && (responseFormat == "json" ==> r.value.reply == Json(results, |results|))
      && (responseFormat != "json" && results == [] ==> r.value.reply == Message(NoResultsMessage))
      && (responseFormat != "json" && results != [] ==>
        var flat := FlattenAll(results);
        var cs := Columns(flat[0]);
        r.value.reply == Message(ResultsHeading(|results|) + Table(flat, cs, Some(Identity(cs)))))
  {
    var cid :- SanitizeCustomerId(customerId);
    var stripped := Strip(query);
    if !StartsWith(Upper(stripped), "SELECT") {
      return Ok(Run(None, Message(NotSelectMessage)));
    }
    var results := CollectRows(rows, limit);
    var reply := Render(results, responseFormat);
    r := Ok(Run(Some(stripped), reply));
  }

  /** Trimming the end keeps every prefix that ends in a non-space. */
  lemma {:induction false} TrimEndKeeps(s: string, n: nat)
    requires 0 < n <= |s| && !IsSpace(s[n - 1])
    ensures s[..n] <= TrimEnd(s)
    decreases |s|
  {
    if IsSpace(s[|s| - 1]) {
      assert n < |s|;
      TrimEndKeeps(s[..|s| - 1], n);
      assert s[..|s| - 1][..n] == s[..n];
    }
  }

  /** A query opening with `select` in lower case, after leading
      whitespace, passes the guard. */
  lemma LowercaseSelectAccepted(rest: string)
    ensures StartsWith(Upper(Strip("  select" + rest)), "SELECT")
  {
    var t := "  select" + rest;
    var body := t[2..];
    assert body[..6] == "select";
    assert TrimStart(body) == body by {
      assert !IsSpace(body[0]);
    }
    assert TrimStart(t) == body by {
      assert IsSpace(t[0]) && t[1..][1..] == body;
      assert IsSpace(t[1..][0]);
    }
    TrimEndKeeps(body, 6);
    var u := TrimEnd(body);
    assert u[..6] == "select";
    var up := Upper(u);
    forall i | 0 <= i < 6 ensures up[i] == "SELECT"[i] {
      assert up[i] == UpperChar(u[i]);
    }
    assert up[..6] == "SELECT";
  }
}
