/** The mutate operations the builders produce, the enum tables they look
    values up in, and resource names. A protobuf message is modelled as the
    map from the dotted path of every field a builder assigned to its value;
    a field never assigned is absent. */
module Operations {
  import opened Wrappers
  import opened Text

  datatype Value =
    | Str(s: string)
    | Int(i: int)
    | Real(r: real)
    | Bool(b: bool)
    | Bytes(data: seq<bv8>)
    | StrList(strs: seq<string>)
    | MsgList(msgs: seq<map<string, Value>>)

  type Message = map<string, Value>

  /** Which member of MutateOperation's oneof carries the operation. */
  datatype Resource =
    | Campaign
    | AdGroup
    | AdGroupAd
    | CampaignBudget
    | CampaignCriterion
    | AdGroupCriterion
    | Asset
    | AssetGroup
    | AssetGroupAsset
    | AssetGroupListingGroupFilter

  /** A create carries the new resource; an update carries the changed
      fields and the field mask naming them, in order. */
  datatype MutateOperation =
    | Create(resource: Resource, payload: Message)
    | Update(resource: Resource, payload: Message, mask: seq<string>)

  /** A builder fails on a key missing from an enum table, or on an id that
      `int()` refuses. */
  datatype BuildError =
    | LookupFailure(table: string, key: string)
    | NotAnInteger(text: string)

  const StatusToEnum: map<string, int> := map["enable" := 2, "pause" := 3, "remove" := 4]
  const MatchTypeToEnum: map<string, int> := map["exact" := 2, "phrase" := 3, "broad" := 4]
  const CampaignTypeToEnum: map<string, int> := map[
    "SEARCH" := 2, "DISPLAY" := 3, "SHOPPING" := 4, "VIDEO" := 6,
    "PERFORMANCE_MAX" := 14, "DEMAND_GEN" := 15]
  const AdGroupTypeToEnum: map<string, int> := map[
    "SEARCH_STANDARD" := 2, "DISPLAY_STANDARD" := 3, "SHOPPING_PRODUCT" := 4,
    "VIDEO_RESPONSIVE" := 9]
  const DeviceTypeToCriterion: map<string, int> := map[
    "MOBILE" := 30001, "DESKTOP" := 30000, "TABLET" := 30002]
  const BudgetDeliveryStandard: int := 2
  const BiddingStrategyMap: map<string, string> := map[
    "MANUAL_CPC" := "manual_cpc", "TARGET_CPA" := "target_cpa",
    "TARGET_ROAS" := "target_roas", "MAXIMIZE_CONVERSIONS" := "maximize_conversions",
    "MAXIMIZE_CONVERSION_VALUE" := "maximize_conversion_value",
    "MAXIMIZE_CLICKS" := "maximize_clicks"]
  const AssetTypeToEnum: map<string, int> := map[
    "TEXT" := 4, "IMAGE" := 5, "YOUTUBE_VIDEO" := 2, "MEDIA_BUNDLE" := 3,
    "CALL_TO_ACTION" := 30]
  const AssetFieldTypeToEnum: map<string, int> := map[
    "HEADLINE" := 2, "DESCRIPTION" := 3, "LONG_HEADLINE" := 19, "BUSINESS_NAME" := 12,
    "MARKETING_IMAGE" := 4, "SQUARE_MARKETING_IMAGE" := 11, "LOGO" := 5,
    "LANDSCAPE_LOGO" := 14, "YOUTUBE_VIDEO" := 7, "CALL_TO_ACTION_SELECTION" := 20]
  const ListingGroupFilterTypeToEnum: map<string, int> := map[
    "UNIT_INCLUDED" := 2, "UNIT_EXCLUDED" := 3, "SUBDIVISION" := 4]

  /** `table[key]`, where a missing key raises KeyError. */
  function Lookup<V>(table: map<string, V>, tableName: string, key: string): (r: Result<V, BuildError>)
    ensures r.Ok? <==> key in table
    ensures r.Ok? ==> r.value == table[key]
    ensures r.Err? ==> r.error == LookupFailure(tableName, key)
  {
    if key in table then Ok(table[key]) else Err(LookupFailure(tableName, key))
  }

  /** `customers/{cid}/{collection}/{id}`. */
  function ResourceName(customerId: string, collection: string, id: string): string {
    "customers/" + customerId + "/" + collection + "/" + id
  }

  /** The id of an ad-group ad or an ad-group criterion: `{ad_group_id}~{id}`. */
  function CompositeId(adGroupId: string, id: string): (r: string)
    ensures |r| == |adGroupId| + 1 + |id| && r[|adGroupId|] == '~'
    ensures r[..|adGroupId|] == adGroupId && r[|adGroupId| + 1..] == id
  {
    adGroupId + "~" + id
  }

  lemma {:induction false} SplitAfterSegment(a: string, c: char, rest: string)
    requires c !in a
    ensures Split(a + [c] + rest, c) == [a] + Split(rest, c)
    decreases |a|
  {
    var s := a + [c] + rest;
    if a == [] {
      assert s[1..] == rest;
    } else {
      assert s[1..] == a[1..] + [c] + rest;
      SplitAfterSegment(a[1..], c, rest);
      assert [a[0]] + a[1..] == a;
    }
  }

  lemma {:induction false} SplitWithoutSeparator(s: string, c: char)
    requires c !in s
    ensures Split(s, c) == [s]
  {
    if s != [] {
      SplitWithoutSeparator(s[1..], c);
      assert [s[0]] + s[1..] == s;
    }
  }

  /** A resource name splits back on '/' into its four parts, so the id is its
      last segment, as long as no part contains '/'. */
  lemma ResourceNameSegments(customerId: string, collection: string, id: string)
    requires '/' !in customerId && '/' !in collection && '/' !in id
    ensures Split(ResourceName(customerId, collection, id), '/')
         == ["customers", customerId, collection, id]
    ensures LastSegment(ResourceName(customerId, collection, id), '/') == id
  {
    var r := ResourceName(customerId, collection, id);
    assert r == "customers" + ['/'] + (customerId + ['/'] + (collection + ['/'] + id));
    SplitAfterSegment("customers", '/', customerId + ['/'] + (collection + ['/'] + id));
    SplitAfterSegment(customerId, '/', collection + ['/'] + id);
    SplitAfterSegment(collection, '/', id);
    SplitWithoutSeparator(id, '/');
  }

  /** A payload field belongs to a mask path when it is the path or lies under it. */
  predicate UnderPath(key: string, path: string) {
    key == path || path + "." <= key
  }

  /** Every field the update sets, other than the name of the resource it
      targets, belongs to some path of its mask. */
  predicate MaskCoversPayload(payload: Message, mask: seq<string>) {
    forall k :: k in payload && k != "resource_name" ==> exists p :: p in mask && UnderPath(k, p)
  }

  /** Every mask path names a field the update sets. */
  predicate MaskPathsSet(payload: Message, mask: seq<string>) {
    forall p :: p in mask ==> exists k :: k in payload && UnderPath(k, p)
  }

  /** The paths of `paths` whose flag is set, in their original order: how the
      builders grow a mask by appending one path per non-None argument. */
  function SelectPaths(paths: seq<string>, present: seq<bool>): (r: seq<string>)
    requires |paths| == |present|
    ensures |r| <= |paths|
  {
    if paths == [] then []
    else (if present[0] then [paths[0]] else []) + SelectPaths(paths[1..], present[1..])
  }

  lemma SelectTwoPaths(a: string, b: string, pa: bool, pb: bool)
    ensures SelectPaths([a, b], [pa, pb]) == (if pa then [a] else []) + (if pb then [b] else [])
  {
    assert [a, b][1..] == [b] && [pa, pb][1..] == [pb];
    assert [b][1..] == [] && [pb][1..] == [];
  }

  lemma SelectThreePaths(a: string, b: string, c: string, pa: bool, pb: bool, pc: bool)
    ensures SelectPaths([a, b, c], [pa, pb, pc])
         == (if pa then [a] else []) + (if pb then [b] else []) + (if pc then [c] else [])
  {
    assert [a, b, c][1..] == [b, c] && [pa, pb, pc][1..] == [pb, pc];
    SelectTwoPaths(b, c, pb, pc);
  }

  /** `xs` is `ys` with some elements left out. */
  predicate IsSubsequence<T(==)>(xs: seq<T>, ys: seq<T>)
    decreases |ys|
  {
    if ys == [] then xs == []
    else IsSubsequence(xs, ys[1..]) || (xs != [] && xs[0] == ys[0] && IsSubsequence(xs[1..], ys[1..]))
  }

  /** The selected paths keep declaration order, a path is selected exactly
      when its flag is set (for distinct paths), and no flag selects nothing. */
  lemma {:induction false} SelectPathsSpec(paths: seq<string>, present: seq<bool>)
    requires |paths| == |present|
    ensures IsSubsequence(SelectPaths(paths, present), paths)
    ensures (forall i :: 0 <= i < |present| ==> !present[i]) ==> SelectPaths(paths, present) == []
    ensures (forall i, j :: 0 <= i < j < |paths| ==> paths[i] != paths[j]) ==>
      forall i :: 0 <= i < |paths| ==> (paths[i] in SelectPaths(paths, present) <==> present[i])
  {
    if paths != [] {
      var tail := SelectPaths(paths[1..], present[1..]);
      SelectPathsSpec(paths[1..], present[1..]);
      if present[0] {
        assert SelectPaths(paths, present) == [paths[0]] + tail;
        assert ([paths[0]] + tail)[1..] == tail;
      } else {
        assert SelectPaths(paths, present) == tail;
      }
      if forall i, j :: 0 <= i < j < |paths| ==> paths[i] != paths[j] {
        forall i | 0 <= i < |paths|
          ensures paths[i] in SelectPaths(paths, present) <==> present[i]
        {
          if i > 0 {
            assert paths[i] == paths[1..][i - 1];
            assert paths[0] != paths[i];
          } else {
            assert forall j :: 0 <= j < |paths[1..]| ==> paths[1..][j] != paths[0];
            NotSelected(paths[1..], present[1..], paths[0]);
          }
        }
      }
    }
  }

  lemma {:induction false} NotSelected(paths: seq<string>, present: seq<bool>, p: string)
    requires |paths| == |present| && p !in paths
    ensures p !in SelectPaths(paths, present)
  {
    if paths != [] {
      NotSelected(paths[1..], present[1..], p);
    }
  }

  function OptStr(o: Option<string>): Option<Value> {
    match o
    case Some(s) => Some(Str(s))
    case None => None
  }

  /** Assigning a Python value to a proto-plus field: None clears the field. */
  function Assign(m: Message, key: string, v: Option<Value>): (r: Message)
    ensures v.Some? ==> r == m[key := v.value]
    ensures v.None? ==> key !in r && forall k :: k in m && k != key ==> k in r && r[k] == m[k]
    ensures v.None? && key !in m ==> r == m
  {
    match v
    case Some(x) => m[key := x]
    case None => if key in m then m - {key} else m
  }

  /** The field `key` is set, to `v`. */
  predicate Holds(m: Message, key: string, v: Value) {
    key in m && m[key] == v
  }

  /** An AdTextAsset holding one text. */
  function TextAsset(text: string): Message {
    map["text" := Str(text)]
  }

  /** An AdImageAsset pointing at one asset resource. */
  function ImageAsset(assetName: string): Message {
    map["asset" := Str(assetName)]
  }
}
