/** The superadmin console's data-access layer in mock mode: `organizationsApi`,
    `membersApi` and `messagesApi` acting on module-level arrays seeded from the
    fixtures. */
module MockApi {
  import opened Opt
  import opened Js
  import opened Text
  import opened Seqs
  import opened Entities

  // ---------------------------------------------------------------------------
  // Ids
  // ---------------------------------------------------------------------------

  /** The id `create` gives a record when the collection holds `n - 1` records:
      `prefix` followed by `n` left-padded with '0' to three digits. */
  function SequenceId(prefix: string, n: nat): string {
    prefix + PadStart(NatToString(n), 3, '0')
  }

  /** A generated id is the prefix followed by at least three digits that read back as `n`. */
  lemma SequenceIdDecodes(prefix: string, n: nat)
    ensures |SequenceId(prefix, n)| >= |prefix| + 3
    ensures SequenceId(prefix, n)[..|prefix|] == prefix
    ensures IsDigitString(SequenceId(prefix, n)[|prefix|..])
    ensures DigitsValue(SequenceId(prefix, n)[|prefix|..]) == n
  {
    PaddedRoundTrip(n, 3);
    assert SequenceId(prefix, n)[|prefix|..] == PadStart(NatToString(n), 3, '0');
  }

  /** Different counters give different ids. */
  lemma SequenceIdInjective(prefix: string, n: nat, m: nat)
    requires SequenceId(prefix, n) == SequenceId(prefix, m)
    ensures n == m
  {
    SequenceIdDecodes(prefix, n);
    SequenceIdDecodes(prefix, m);
  }

  // ---------------------------------------------------------------------------
  // Lookups
  // ---------------------------------------------------------------------------

  /** `r.id === id`. */
  predicate HasId(r: Obj, id: string) {
    Get(r, "id") == Str(id)
  }

  /** The collection after `findIndex` and `splice(index, 1)`: the first record
      with the id removed, or the collection unchanged when there is none. */
  function DeleteFirst(s: seq<Obj>, id: string): seq<Obj> {
    var i := FirstIndexOf(s, id);
    if i == -1 then s else RemoveAt(s, i)
  }

  /** No two records share an id. */
  predicate UniqueIds(s: seq<Obj>) {
    forall a, b :: 0 <= a < b < |s| ==> Get(s[a], "id") != Get(s[b], "id")
  }

  /** `findIndex((r) => r.id === id)`: the first index holding `id`, or -1. */
  function FirstIndexOf(s: seq<Obj>, id: string): (i: int)
    ensures -1 <= i < |s|
    ensures i == -1 <==> forall j :: 0 <= j < |s| ==> !HasId(s[j], id)
    ensures i >= 0 ==> HasId(s[i], id) && forall j :: 0 <= j < i ==> !HasId(s[j], id)
    decreases |s|
  {
    if s == [] then -1
    else if HasId(s[0], id) then 0
    else
      var i := FirstIndexOf(s[1..], id);
      if i == -1 then -1 else i + 1
  }

  /** `findIndex` as the source runs it: a scan from the front. */
  method FindIndex(s: seq<Obj>, id: string) returns (index: int)
    ensures index == FirstIndexOf(s, id)
  {
    var i := 0;
    while i < |s|
      invariant 0 <= i <= |s|
      invariant forall j :: 0 <= j < i ==> !HasId(s[j], id)
    {
      if HasId(s[i], id) {
        return i;
      }
      i := i + 1;
    }
    return -1;
  }

  /** `find((r) => r.id === id) || null`: the first record holding `id`. */
  function FindById(s: seq<Obj>, id: string): (r: Option<Obj>)
    ensures r.None? <==> forall j :: 0 <= j < |s| ==> !HasId(s[j], id)
    ensures r.Some? ==> exists i :: 0 <= i < |s| && s[i] == r.value && HasId(s[i], id) &&
                                    forall j :: 0 <= j < i ==> !HasId(s[j], id)
  {
    var i := FirstIndexOf(s, id);
    if i == -1 then None else Some(s[i])
  }

  /** `mockMessages.filter((m) => m.organizationId === orgId)`. */
  function MessagesOfOrganization(messages: seq<Obj>, orgId: string): seq<Obj> {
    Filter(messages, (m: Obj) => Get(m, "organizationId") == Str(orgId))
  }

  /** The organization's name as `org?.name` reads it: `undefined` when there is
      no organization with that id, or when it has no name. */
  function OrganizationName(orgs: seq<Obj>, orgId: string): Value {
    match FindById(orgs, orgId)
    case Some(org) => Get(org, "name")
    case None => Undefined
  }

  /** `mockMembers.filter((m) => m.organization === org?.name)`. */
  function MembersOfOrganization(orgs: seq<Obj>, members: seq<Obj>, orgId: string): seq<Obj> {
    var name := OrganizationName(orgs, orgId);
    Filter(members, (m: Obj) => Get(m, "organization") == name)
  }

  /** `messagesApi.getByOrganization` returns exactly the messages of that
      organization, in stored order. */
  lemma MessagesOfOrganizationExact(messages: seq<Obj>, orgId: string)
    ensures forall i :: 0 <= i < |MessagesOfOrganization(messages, orgId)| ==>
      MessagesOfOrganization(messages, orgId)[i] in messages
      && Get(MessagesOfOrganization(messages, orgId)[i], "organizationId") == Str(orgId)
    ensures forall i :: 0 <= i < |messages| && Get(messages[i], "organizationId") == Str(orgId) ==>
      messages[i] in MessagesOfOrganization(messages, orgId)
    ensures IsSubsequence(MessagesOfOrganization(messages, orgId), messages)
  {
    FilterContents(messages, (m: Obj) => Get(m, "organizationId") == Str(orgId));
    FilterIsSubsequence(messages, (m: Obj) => Get(m, "organizationId") == Str(orgId));
  }

  /** For an existing organization, `membersApi.getByOrganization` keeps exactly
      the members whose `organization` is that organization's name. */
  lemma MembersOfExistingOrganization(orgs: seq<Obj>, members: seq<Obj>, orgId: string, i: nat)
    requires i < |orgs| && i == FirstIndexOf(orgs, orgId)
    ensures var r := MembersOfOrganization(orgs, members, orgId);
      && (forall j :: 0 <= j < |r| ==> r[j] in members && Get(r[j], "organization") == Get(orgs[i], "name"))
      && (forall j :: 0 <= j < |members| && Get(members[j], "organization") == Get(orgs[i], "name") ==> members[j] in r)
      && IsSubsequence(r, members)
  {
    FilterContents(members, (m: Obj) => Get(m, "organization") == Get(orgs[i], "name"));
    FilterIsSubsequence(members, (m: Obj) => Get(m, "organization") == Get(orgs[i], "name"));
  }

  /** With no organization of that id, members that all carry an organization
      name yield nothing. */
  lemma MembersOfMissingOrganization(orgs: seq<Obj>, members: seq<Obj>, orgId: string)
    requires FirstIndexOf(orgs, orgId) == -1
    requires forall j :: 0 <= j < |members| ==> Conforms(members[j], MemberSchema)
    ensures MembersOfOrganization(orgs, members, orgId) == []
  {
    forall j | 0 <= j < |members|
      ensures Get(members[j], "organization") != Undefined
    {
      assert "organization" in members[j];
    }
    FilterKeepsNone(members, (m: Obj) => Get(m, "organization") == Undefined);
  }

  /** The guard is only as good as that assumption: a member record without an
      `organization` property matches every unknown organization id. */
  lemma MemberWithoutOrganizationMatchesMissing(orgs: seq<Obj>, orgId: string)
    requires FirstIndexOf(orgs, orgId) == -1
    ensures MembersOfOrganization(orgs, [map["id" := Str("MEM900")]], orgId) == [map["id" := Str("MEM900")]]
  {
  }

  // ---------------------------------------------------------------------------
  // Writes, as functions of the collection
  // ---------------------------------------------------------------------------

  /** `{...data, id: ORG<n+1>, created: today}` for a collection of `count` organizations. */
  function NewOrganization(data: Obj, count: nat, today: string): Obj {
    Spread(data, map["id" := Str(SequenceId("ORG", count + 1)), "created" := Str(today)])
  }

  /** `{...data, id: MEM<n+1>}` for a collection of `count` members. */
  function NewMember(data: Obj, count: nat): Obj {
    Spread(data, map["id" := Str(SequenceId("MEM", count + 1))])
  }

  /** The new organization carries the generated id and today's date whatever
      `data` says, and every other property of `data` unchanged. */
  lemma NewOrganizationFields(data: Obj, count: nat, today: string)
    ensures var r := NewOrganization(data, count, today);
      && r.Keys == data.Keys + {"id", "created"}
      && r["id"] == Str(SequenceId("ORG", count + 1))
      && r["created"] == Str(today)
      && forall k :: k in data && k != "id" && k != "created" ==> r[k] == data[k]
  {
  }

  /** The new member carries the generated id whatever `data` says, and every
      other property of `data` unchanged. */
  lemma NewMemberFields(data: Obj, count: nat)
    ensures var r := NewMember(data, count);
      && r.Keys == data.Keys + {"id"}
      && r["id"] == Str(SequenceId("MEM", count + 1))
      && forall k :: k in data && k != "id" ==> r[k] == data[k]
  {
  }

  /** `Omit<Organization, "id" | "created">` data becomes a well-formed Organization. */
  lemma NewOrganizationConforms(data: Obj, count: nat, today: string)
    requires Conforms(data, Omit(OrganizationSchema, {"id", "created"}))
    ensures Conforms(NewOrganization(data, count, today), OrganizationSchema)
  {
    var extra := map["id" := Str(SequenceId("ORG", count + 1)), "created" := Str(today)];
    assert extra.Keys == {"id", "created"};
    CompletesOmitted(data, extra, OrganizationSchema);
  }

  /** `Omit<Member, "id">` data becomes a well-formed Member. */
  lemma NewMemberConforms(data: Obj, count: nat)
    requires Conforms(data, Omit(MemberSchema, {"id"}))
    ensures Conforms(NewMember(data, count), MemberSchema)
  {
    var extra := map["id" := Str(SequenceId("MEM", count + 1))];
    assert extra.Keys == {"id"};
    CompletesOmitted(data, extra, MemberSchema);
  }

  /** `update` with a well-typed `Partial<...>` keeps a record well-formed. */
  lemma UpdateConforms(s: seq<Obj>, i: nat, patch: Obj, schema: Schema)
    requires i < |s| && Conforms(s[i], schema) && ConformsPatch(patch, schema)
    ensures Conforms(s[i := Spread(s[i], patch)][i], schema)
  {
    SpreadConforms(s[i], patch, schema);
  }

  /** `Partial<Organization>` admits `{status: undefined}`; the merge then leaves
      an organization with no status. */
  lemma UndefinedPatchErasesStatus(o: Obj)
    requires Conforms(o, OrganizationSchema)
    ensures !Conforms(Spread(o, map["status" := Undefined]), OrganizationSchema)
  {
    assert Spread(o, map["status" := Undefined])["status"] == Undefined;
  }

  // ---------------------------------------------------------------------------
  // Id freshness
  // ---------------------------------------------------------------------------

  /** The ids are `prefix001`, `prefix002`, ... in order, as in the fixtures. */
  ghost predicate SequentialIds(s: seq<Obj>, prefix: string) {
    forall i :: 0 <= i < |s| ==> HasId(s[i], SequenceId(prefix, i + 1))
  }

  /** While the ids are sequential, the next generated id is not taken. */
  lemma SequentialNextIdFresh(s: seq<Obj>, prefix: string)
    requires SequentialIds(s, prefix)
    ensures FirstIndexOf(s, SequenceId(prefix, |s| + 1)) == -1
  {
    var next := SequenceId(prefix, |s| + 1);
    forall j | 0 <= j < |s|
      ensures !HasId(s[j], next)
    {
      var mine := SequenceId(prefix, j + 1);
      assert HasId(s[j], mine);
      if next == mine {
        SequenceIdInjective(prefix, j + 1, |s| + 1);
      }
    }
  }

  /** Creating an organization keeps the ids sequential. */
  lemma CreateOrganizationKeepsSequential(s: seq<Obj>, data: Obj, today: string)
    requires SequentialIds(s, "ORG")
    ensures SequentialIds(s + [NewOrganization(data, |s|, today)], "ORG")
  {
  }

  /** Creating a member keeps the ids sequential. */
  lemma CreateMemberKeepsSequential(s: seq<Obj>, data: Obj)
    requires SequentialIds(s, "MEM")
    ensures SequentialIds(s + [NewMember(data, |s|)], "MEM")
  {
  }

  /** Deleting any record but the last and then creating one reuses the id of
      the record that is now last: the collection ends up with two records
      holding the same id. */
  lemma DeleteThenCreateCollides(s: seq<Obj>, prefix: string, i: nat)
    requires SequentialIds(s, prefix)
    requires i < |s| - 1
    ensures var t := RemoveAt(s, i);
      HasId(t[|t| - 1], SequenceId(prefix, |t| + 1))
  {
    var t := RemoveAt(s, i);
    assert t[|t| - 1] == s[|s| - 1];
  }

  /** A single-digit counter is padded with two zeros. */
  lemma SingleDigitId(prefix: string, n: nat)
    requires 1 <= n <= 9
    ensures SequenceId(prefix, n) == prefix + "00" + [DigitChar(n)]
  {
    assert NatToString(n) == [DigitChar(n)];
    assert Repeat('0', 2) == "00";
  }

  /** The first five generated ids with a given prefix. */
  lemma FirstFiveIds(prefix: string)
    ensures SequenceId(prefix, 1) == prefix + "001"
    ensures SequenceId(prefix, 2) == prefix + "002"
    ensures SequenceId(prefix, 3) == prefix + "003"
    ensures SequenceId(prefix, 4) == prefix + "004"
    ensures SequenceId(prefix, 5) == prefix + "005"
  {
    SingleDigitId(prefix, 1);
    SingleDigitId(prefix, 2);
    SingleDigitId(prefix, 3);
    SingleDigitId(prefix, 4);
    SingleDigitId(prefix, 5);
  }

  /** Five records holding the first five generated ids, in order, have sequential ids. */
  lemma FiveSequential(s: seq<Obj>, prefix: string)
    requires |s| == 5
    requires HasId(s[0], SequenceId(prefix, 1)) && HasId(s[1], SequenceId(prefix, 2))
    requires HasId(s[2], SequenceId(prefix, 3)) && HasId(s[3], SequenceId(prefix, 4))
    requires HasId(s[4], SequenceId(prefix, 5))
    ensures SequentialIds(s, prefix)
  {
  }

  lemma OrganizationIds()
    ensures SequenceId("ORG", 1) == "ORG001" && SequenceId("ORG", 2) == "ORG002"
    ensures SequenceId("ORG", 3) == "ORG003" && SequenceId("ORG", 4) == "ORG004"
    ensures SequenceId("ORG", 5) == "ORG005"
  {
    FirstFiveIds("ORG");
  }

  lemma MemberIds()
    ensures SequenceId("MEM", 1) == "MEM001" && SequenceId("MEM", 2) == "MEM002"
    ensures SequenceId("MEM", 3) == "MEM003" && SequenceId("MEM", 4) == "MEM004"
    ensures SequenceId("MEM", 5) == "MEM005"
  {
    FirstFiveIds("MEM");
  }

  /** The fixture organization ids are ORG001..ORG005. */
  lemma OrganizationFixtureIdsSequential()
    ensures SequentialIds(MockOrganizations, "ORG")
  {
    var s := MockOrganizations;
    OrganizationIds();
    assert HasId(s[0], "ORG001") && HasId(s[1], "ORG002") && HasId(s[2], "ORG003");
    assert HasId(s[3], "ORG004") && HasId(s[4], "ORG005");
    FiveSequential(s, "ORG");
  }

  /** The fixture member ids are MEM001..MEM005. */
  lemma MemberFixtureIdsSequential()
    ensures SequentialIds(MockMembers, "MEM")
  {
    var s := MockMembers;
    MemberIds();
    assert HasId(s[0], "MEM001") && HasId(s[1], "MEM002") && HasId(s[2], "MEM003");
    assert HasId(s[3], "MEM004") && HasId(s[4], "MEM005");
    FiveSequential(s, "MEM");
  }

  /** On the fixtures: delete ORG002, then create, and the new organization gets
      ORG005, the id Epsilon Group already has. */
  lemma FixtureCollision(data: Obj, today: string)
    ensures var t := RemoveAt(MockOrganizations, 1);
      && FirstIndexOf(MockOrganizations, "ORG002") == 1
      && HasId(NewOrganization(data, |t|, today), "ORG005")
      && HasId(t[3], "ORG005")
  {
    var s := MockOrganizations;
    FixtureDeleteIndex();
    RemoveAtShifts(s, 1);
    assert HasId(s[4], "ORG005");
    OrganizationIds();
    NewOrganizationFields(data, 4, today);
  }

  /** ORG002 is the second fixture organization. */
  lemma FixtureDeleteIndex()
    ensures FirstIndexOf(MockOrganizations, "ORG002") == 1
  {
    var s := MockOrganizations;
    assert HasId(s[0], "ORG001") && HasId(s[1], "ORG002");
    assert !HasId(s[0], "ORG002");
  }

  // ---------------------------------------------------------------------------
  // The mock repository
  // ---------------------------------------------------------------------------

  /** The three module-level arrays the mock branches read and write. */
  class Store {
    var organizations: seq<Obj>
    var members: seq<Obj>
    var messages: seq<Obj>

    /** The arrays as the module loads them. */
    constructor ()
      ensures organizations == MockOrganizations
      ensures members == MockMembers
      ensures messages == MockMessages
    {
      organizations := MockOrganizations;
      members := MockMembers;
      messages := MockMessages;
    }

    // --- organizationsApi ---

    method GetAllOrganizations() returns (r: seq<Obj>)
      ensures r == organizations
    {
      r := organizations;
    }

    method GetOrganizationById(id: string) returns (r: Option<Obj>)
      ensures r == FindById(organizations, id)
    {
      var index := FindIndex(organizations, id);
      r := if index == -1 then None else Some(organizations[index]);
    }

    method CreateOrganization(data: Obj, today: string) returns (r: Obj)
      modifies this
      ensures r == NewOrganization(data, |old(organizations)|, today)
      ensures organizations == old(organizations) + [r]
      ensures members == old(members) && messages == old(messages)
    {
      r := Spread(data, map["id" := Str(SequenceId("ORG", |organizations| + 1)), "created" := Str(today)]);
      organizations := organizations + [r];
    }

    method UpdateOrganization(id: string, patch: Obj) returns (r: Option<Obj>)
      modifies this
      ensures var i := FirstIndexOf(old(organizations), id);
        if i == -1 then (r == None && organizations == old(organizations))
        else (r == Some(Spread(old(organizations)[i], patch)) && organizations == old(organizations)[i := r.value])
      ensures members == old(members) && messages == old(messages)
    {
      var index := FindIndex(organizations, id);
      if index != -1 {
        organizations := organizations[index := Spread(organizations[index], patch)];
        return Some(organizations[index]);
      }
      return None;
    }

    method DeleteOrganization(id: string) returns (ok: bool)
      modifies this
      ensures var i := FirstIndexOf(old(organizations), id);
        && ok == (i != -1)
        && organizations == DeleteFirst(old(organizations), id)
      ensures members == old(members) && messages == old(messages)
    {
      var index := FindIndex(organizations, id);
      if index != -1 {
        organizations := RemoveAt(organizations, index);
        return true;
      }
      return false;
    }

    // --- membersApi ---

    method GetAllMembers() returns (r: seq<Obj>)
      ensures r == members
    {
      r := members;
    }

    method GetMembersByOrganization(orgId: string) returns (r: seq<Obj>)
      ensures r == MembersOfOrganization(organizations, members, orgId)
    {
      var org := GetOrganizationById(orgId);
      var name := if org.Some? then Get(org.value, "name") else Undefined;
      r := Filter(members, (m: Obj) => Get(m, "organization") == name);
    }

    method CreateMember(data: Obj) returns (r: Obj)
      modifies this
      ensures r == NewMember(data, |old(members)|)
      ensures members == old(members) + [r]
      ensures organizations == old(organizations) && messages == old(messages)
    {
      r := Spread(data, map["id" := Str(SequenceId("MEM", |members| + 1))]);
      members := members + [r];
    }

    method UpdateMember(id: string, patch: Obj) returns (r: Option<Obj>)
      modifies this
      ensures var i := FirstIndexOf(old(members), id);
        if i == -1 then (r == None && members == old(members))
        else (r == Some(Spread(old(members)[i], patch)) && members == old(members)[i := r.value])
      ensures organizations == old(organizations) && messages == old(messages)
    {
      var index := FindIndex(members, id);
      if index != -1 {
        members := members[index := Spread(members[index], patch)];
        return Some(members[index]);
      }
      return None;
    }

    method DeleteMember(id: string) returns (ok: bool)
      modifies this
      ensures var i := FirstIndexOf(old(members), id);
        && ok == (i != -1)
        && members == DeleteFirst(old(members), id)
      ensures organizations == old(organizations) && messages == old(messages)
    {
      var index := FindIndex(members, id);
      if index != -1 {
        members := RemoveAt(members, index);
        return true;
      }
      return false;
    }

    // --- messagesApi ---

    method GetAllMessages() returns (r: seq<Obj>)
      ensures r == messages
    {
      r := messages;
    }

    method GetMessagesByOrganization(orgId: string) returns (r: seq<Obj>)
      ensures r == MessagesOfOrganization(messages, orgId)
    {
      r := Filter(messages, (m: Obj) => Get(m, "organizationId") == Str(orgId));
    }

    method DeleteMessage(id: string) returns (ok: bool)
      modifies this
      ensures var i := FirstIndexOf(old(messages), id);
        && ok == (i != -1)
        && messages == DeleteFirst(old(messages), id)
      ensures organizations == old(organizations) && members == old(members)
    {
      var index := FindIndex(messages, id);
      if index != -1 {
        messages := RemoveAt(messages, index);
        return true;
      }
      return false;
    }
  }

  /** `update` on a present id changes only the first matching record, to the
      merge of its old fields with the patch; absent patch fields keep their values. */
  lemma UpdateChangesOnlyFirstMatch(s: seq<Obj>, id: string, patch: Obj)
    requires FirstIndexOf(s, id) != -1
    ensures var i := FirstIndexOf(s, id); var t := s[i := Spread(s[i], patch)];
      && |t| == |s|
      && (forall j :: 0 <= j < |s| && j != i ==> t[j] == s[j])
      && (forall k :: k in s[i] && k !in patch ==> t[i][k] == s[i][k])
      && (forall k :: k in patch ==> t[i][k] == patch[k])
  {
  }

  /** `delete` on a present id removes that record only: one fewer, the rest in order. */
  lemma DeleteRemovesFirstMatch(s: seq<Obj>, id: string)
    requires FirstIndexOf(s, id) != -1
    ensures var i := FirstIndexOf(s, id);
      && |RemoveAt(s, i)| == |s| - 1
      && IsSubsequence(RemoveAt(s, i), s)
      && (forall j :: 0 <= j < i ==> RemoveAt(s, i)[j] == s[j])
      && (forall j :: i <= j < |s| - 1 ==> RemoveAt(s, i)[j] == s[j + 1])
  {
    var i := FirstIndexOf(s, id);
    RemoveAtIsSubsequence(s, i);
  }

  /** When ids are unique, `delete` leaves no record with that id. */
  lemma DeleteUniqueIdGone(s: seq<Obj>, id: string)
    requires FirstIndexOf(s, id) != -1
    requires UniqueIds(s)
    ensures FirstIndexOf(RemoveAt(s, FirstIndexOf(s, id)), id) == -1
  {
    var i := FirstIndexOf(s, id);
    var t := RemoveAt(s, i);
    forall j | 0 <= j < |t| ensures !HasId(t[j], id) {
      if j >= i {
        assert t[j] == s[j + 1];
      }
    }
  }
}
