/** Customer Match list membership: normalising and hashing the e-mail and
    phone inputs into UserData entries, and the upload and removal requests
    built from them. */
module CustomerList {
  import opened Wrappers
  import opened Text
  import opened Common
  import Operations

  const NoValidMembersMessage := "No valid emails or phones provided."

  /** A UserIdentifier carries exactly one of the two hashed fields. */
  datatype Identifier = HashedEmail(hash: string) | HashedPhoneNumber(hash: string)

  datatype UserData = UserData(identifiers: seq<Identifier>)

  datatype UserDataOperation = CreateMember(data: UserData) | RemoveMember(data: UserData)

  datatype UploadRequest = UploadRequest(customerId: string, operations: seq<UserDataOperation>, userList: string)

  /** Which of the two tools runs: upload adds members, removal deletes them. */
  datatype Action = Upload | Removal

  /** The tool's JSON reply: the error object, or the count under
      "uploaded"/"removed" with the service's received-operations count. */
  datatype Reply =
    | NoValidMembers
    | Counts(countKey: string, count: nat, receivedOperationsCount: int)

  /** What the tool did: the request sent to UserDataService, if any, and the reply. */
  datatype Run = Run(sent: Option<UploadRequest>, reply: Reply)

  /** Emails are trimmed and lower-cased; phones are only trimmed. */
  function NormaliseEmail(piece: string): string {
    Lower(Strip(piece))
  }

  function NormalisePhone(piece: string): string {
    Strip(piece)
  }

  function Normaliser(isEmail: bool): string -> string {
    if isEmail then NormaliseEmail else NormalisePhone
  }

  /** The normalised, non-empty pieces among the first pieces, in order. */
  function Kept(pieces: seq<string>, norm: string -> string): seq<string> {
    if pieces == [] then []
    else
      var n := norm(pieces[|pieces| - 1]);
      Kept(pieces[..|pieces| - 1], norm) + (if n != "" then [n] else [])
  }

  /** The normalised values of a comma-separated input (`if s:` then split). */
  function Values(s: string, isEmail: bool): seq<string> {
    if s == "" then [] else Kept(Split(s, ','), Normaliser(isEmail))
  }

  function Member(value: string, isEmail: bool, hash: string -> string): UserData {
    UserData([if isEmail then HashedEmail(hash(value)) else HashedPhoneNumber(hash(value))])
  }

  function Members(values: seq<string>, isEmail: bool, hash: string -> string): (r: seq<UserData>)
    ensures |r| == |values|
  {
    seq(|values|, i requires 0 <= i < |values| => Member(values[i], isEmail, hash))
  }

  /** The entries one input's loop appends for the first pieces. */
  function Entries(pieces: seq<string>, norm: string -> string, isEmail: bool, hash: string -> string): seq<UserData> {
    if pieces == [] then []
    else
      var n := norm(pieces[|pieces| - 1]);
      Entries(pieces[..|pieces| - 1], norm, isEmail, hash) + (if n != "" then [Member(n, isEmail, hash)] else [])
  }

  function InputEntries(s: string, isEmail: bool, hash: string -> string): seq<UserData> {
    if s == "" then [] else Entries(Split(s, ','), Normaliser(isEmail), isEmail, hash)
  }

  lemma EntriesStep(pieces: seq<string>, i: nat, norm: string -> string, isEmail: bool, hash: string -> string)
    requires i < |pieces|
    ensures var n := norm(pieces[i]);
      var e := Entries(pieces[..i], norm, isEmail, hash);
      Entries(pieces[..i + 1], norm, isEmail, hash) == if n != "" then e + [Member(n, isEmail, hash)] else e
  {
    assert pieces[..i + 1][..i] == pieces[..i];
    var e := Entries(pieces[..i], norm, isEmail, hash);
    assert e + [] == e;
  }

  /** Each loop's entries are the hashed members of its kept values. */
  lemma {:induction false} EntriesAreMembers(pieces: seq<string>, norm: string -> string, isEmail: bool, hash: string -> string)
    ensures Entries(pieces, norm, isEmail, hash) == Members(Kept(pieces, norm), isEmail, hash)
  {
    if pieces != [] {
      var init := pieces[..|pieces| - 1];
      EntriesAreMembers(init, norm, isEmail, hash);
      var n := norm(pieces[|pieces| - 1]);
      if n != "" {
        MembersSnoc(Kept(init, norm), n, isEmail, hash);
      } else {
        assert Kept(init, norm) + [] == Kept(init, norm);
        assert Entries(init, norm, isEmail, hash) + [] == Entries(init, norm, isEmail, hash);
      }
    }
  }

  /** An input's entries are the hashed members of its normalised values. */
  lemma InputEntriesMembers(s: string, isEmail: bool, hash: string -> string)
    ensures InputEntries(s, isEmail, hash) == Members(Values(s, isEmail), isEmail, hash)
  {
    if s != "" {
      EntriesAreMembers(Split(s, ','), Normaliser(isEmail), isEmail, hash);
    }
  }

  lemma KeptStep(pieces: seq<string>, i: nat, norm: string -> string)
    requires i < |pieces|
    ensures var n := norm(pieces[i]);
      Kept(pieces[..i + 1], norm) == if n != "" then Kept(pieces[..i], norm) + [n] else Kept(pieces[..i], norm)
  {
    assert pieces[..i + 1][..i] == pieces[..i];
    var k := Kept(pieces[..i], norm);
    assert k + [] == k;
  }

  lemma MembersSnoc(values: seq<string>, v: string, isEmail: bool, hash: string -> string)
    ensures Members(values + [v], isEmail, hash) == Members(values, isEmail, hash) + [Member(v, isEmail, hash)]
  {
  }

  /** `_build_user_data_list`: one entry per kept e-mail, then one per kept phone. */
  function UserDataList(emails: string, phones: string, hash: string -> string): seq<UserData> {
    InputEntries(emails, true, hash) + InputEntries(phones, false, hash)
  }

  /** One input's loop: split on commas, normalise each piece, skip what
      is empty, and append the hashed member of the rest. */
  method AppendValues(list: seq<UserData>, s: string, norm: string -> string, isEmail: bool,
                      hash: string -> string)
    returns (r: seq<UserData>)
    ensures r == list + (if s == "" then [] else Entries(Split(s, ','), norm, isEmail, hash))
  {
    r := list;
    if s == "" {
      return;
    }
    var pieces := Split(s, ',');
    var i := 0;
    while i < |pieces|
      invariant 0 <= i <= |pieces|
      invariant r == list + Entries(pieces[..i], norm, isEmail, hash)
    {
      var value := norm(pieces[i]);
      EntriesStep(pieces, i, norm, isEmail, hash);
      if value != "" {
        var identifier := if isEmail then HashedEmail(hash(value)) else HashedPhoneNumber(hash(value));
        r := r + [UserData([identifier])];
      }
      i := i + 1;
    }
    assert pieces[..i] == pieces;
  }

  /** The e-mail loop: pieces are trimmed and lower-cased. */
  method AppendEmails(list: seq<UserData>, emails: string, hash: string -> string)
    returns (r: seq<UserData>)
    ensures r == list + InputEntries(emails, true, hash)
  {
    r := AppendValues(list, emails, NormaliseEmail, true, hash);
  }

  /** The phone loop: pieces are only trimmed. */
  method AppendPhones(list: seq<UserData>, phones: string, hash: string -> string)
    returns (r: seq<UserData>)
    ensures r == list + InputEntries(phones, false, hash)
  {
    r := AppendValues(list, phones, NormalisePhone, false, hash);
  }

  /** `_build_user_data_list(client, emails, phones)`; `hash` stands for
      `_hash_value` (SHA-256 of the UTF-8 text, as lower-case hex). */
  method BuildUserDataList(emails: string, phones: string, hash: string -> string)
    returns (list: seq<UserData>)
    ensures list == UserDataList(emails, phones, hash)
  {
    list := AppendEmails([], emails, hash);
    list := AppendPhones(list, phones, hash);
  }

  /** The request-building loop of both tools. */
  method BuildRequest(cid: string, userListId: string, list: seq<UserData>, action: Action)
    returns (request: UploadRequest)
    ensures request.customerId == cid
    ensures request.userList == Operations.ResourceName(cid, "userLists", userListId)
    ensures |request.operations| == |list|
    ensures forall i :: 0 <= i < |list| ==>
      request.operations[i] == if action == Upload then CreateMember(list[i]) else RemoveMember(list[i])
  {
    var ops: seq<UserDataOperation> := [];
    var k := 0;
    while k < |list|
      invariant 0 <= k <= |list| && |ops| == k
      invariant forall i :: 0 <= i < k ==> ops[i] == if action == Upload then CreateMember(list[i]) else RemoveMember(list[i])
    {
      var op := if action == Upload then CreateMember(list[k]) else RemoveMember(list[k]);
      ops := ops + [op];
      k := k + 1;
    }
    request := UploadRequest(cid, ops, Operations.ResourceName(cid, "userLists", userListId));
  }

  /** `gads_upload_customer_list` (Upload) and
      `gads_remove_customer_list_members` (Removal); `receivedCount` is the
      service response's `received_operations_count`, None when absent. */
  method ChangeMembers(customerId: string, userListId: string, emails: string, phones: string,
                       hash: string -> string, action: Action, receivedCount: Option<int>)
    returns (r: Result<Run, CustomerIdError>)
    ensures SanitizeCustomerId(customerId).Err? ==> r == Err(SanitizeCustomerId(customerId).error)
    ensures SanitizeCustomerId(customerId).Ok? ==>
      var list := UserDataList(emails, phones, hash);
      r.Ok?
      && (list == [] <==> r.value.sent.None?)
      && (list == [] ==> r.value.reply == NoValidMembers)
      && (list != [] ==>
        var req := r.value.sent.value;
        req.customerId == SanitizeCustomerId(customerId).value
        && req.userList == Operations.ResourceName(SanitizeCustomerId(customerId).value, "userLists", userListId)
        && |req.operations| == |list|
        && (forall i :: 0 <= i < |list| ==>
              req.operations[i] == if action == Upload then CreateMember(list[i]) else RemoveMember(list[i]))
        && r.value.reply == Counts(if action == Upload then "uploaded" else "removed", |list|,
                                   receivedCount.GetOr(|list|)))
  {
    var cid :- SanitizeCustomerId(customerId);
    var list := BuildUserDataList(emails, phones, hash);
    if list == [] {
      return Ok(Run(None, NoValidMembers));
    }
    var request := BuildRequest(cid, userListId, list, action);
    var received := receivedCount.GetOr(|list|);
    r := Ok(Run(Some(request), Counts(if action == Upload then "uploaded" else "removed", |list|, received)));
  }

  /** Every entry carries exactly one identifier, a hashed e-mail for the
      first |emails| entries and a hashed phone number after them. */
  lemma EmailsFirst(emails: string, phones: string, hash: string -> string)
    ensures var list := UserDataList(emails, phones, hash);
      var es := Values(emails, true);
      var ps := Values(phones, false);
      |list| == |es| + |ps|
      && (forall i :: 0 <= i < |es| ==> list[i] == UserData([HashedEmail(hash(es[i]))]))
      && (forall i :: 0 <= i < |ps| ==> list[|es| + i] == UserData([HashedPhoneNumber(hash(ps[i]))]))
  {
    InputEntriesMembers(emails, true, hash);
    InputEntriesMembers(phones, false, hash);
  }

  /** Kept values are non-empty; e-mails are lower-case, phones trimmed. */
  lemma {:induction false} KeptNormalised(pieces: seq<string>, isEmail: bool)
    ensures forall v :: v in Kept(pieces, Normaliser(isEmail)) ==>
      v != "" && (!isEmail ==> Strip(v) == v) && (isEmail ==> Lower(v) == v)
  {
    if pieces != [] {
      KeptNormalised(pieces[..|pieces| - 1], isEmail);
      var p := pieces[|pieces| - 1];
      StripIdempotent(p);
      if isEmail {
        LowerIdempotent(Strip(p));
      }
    }
  }

  lemma LowerIdempotent(s: string)
    ensures Lower(Lower(s)) == Lower(s)
  {
    var l := Lower(s);
    forall i | 0 <= i < |s| ensures Lower(l)[i] == l[i] {
      assert l[i] == LowerChar(s[i]);
    }
  }

  /** A piece is kept exactly when it is not blank, whichever the kind. */
  lemma {:induction false} KeptCount(pieces: seq<string>, isEmail: bool)
    ensures |Kept(pieces, Normaliser(isEmail))| == |Kept(pieces, NormalisePhone)|
  {
    if pieces != [] {
      KeptCount(pieces[..|pieces| - 1], isEmail);
    }
  }

  predicate Blank(s: string) {
    forall i :: 0 <= i < |s| ==> IsSpace(s[i]) || s[i] == ','
  }

  /** Empty input, or input made only of whitespace and commas, gives an
      empty list, so both tools answer with the error and send nothing. */
  lemma BlankInputEmpty(emails: string, phones: string, hash: string -> string)
    requires Blank(emails) && Blank(phones)
    ensures UserDataList(emails, phones, hash) == []
  {
    BlankValues(emails, true);
    BlankValues(phones, false);
    InputEntriesMembers(emails, true, hash);
    InputEntriesMembers(phones, false, hash);
  }

  lemma BlankValues(s: string, isEmail: bool)
    requires Blank(s)
    ensures Values(s, isEmail) == []
  {
    if s != "" {
      BlankPieces(s);
      BlankKept(Split(s, ','), isEmail);
    }
  }

  /** Splitting a run of whitespace and commas leaves only whitespace. */
  lemma {:induction false} BlankPieces(s: string)
    requires Blank(s)
    ensures forall p :: p in Split(s, ',') ==> forall i :: 0 <= i < |p| ==> IsSpace(p[i])
  {
    if s != [] {
      BlankPieces(s[1..]);
      var rest := Split(s[1..], ',');
      if s[0] != ',' {
        var head := [s[0]] + rest[0];
        assert rest[0] in rest;
        assert forall i :: 0 <= i < |head| ==> IsSpace(head[i]);
      }
    }
  }

  lemma {:induction false} BlankKept(pieces: seq<string>, isEmail: bool)
    requires forall p :: p in pieces ==> forall i :: 0 <= i < |p| ==> IsSpace(p[i])
    ensures Kept(pieces, Normaliser(isEmail)) == []
  {
    if pieces != [] {
      BlankKept(pieces[..|pieces| - 1], isEmail);
      var p := pieces[|pieces| - 1];
      assert p in pieces;
      AllSpaceStrip(p);
    }
  }

  lemma {:induction false} AllSpaceStrip(p: string)
    requires forall i :: 0 <= i < |p| ==> IsSpace(p[i])
    ensures Strip(p) == ""
  {
    AllSpaceTrimStart(p);
  }

  lemma {:induction false} AllSpaceTrimStart(p: string)
    requires forall i :: 0 <= i < |p| ==> IsSpace(p[i])
    ensures TrimStart(p) == ""
  {
    if p != [] {
      AllSpaceTrimStart(p[1..]);
    }
  }
}
