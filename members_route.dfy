/** The organization console's `/api/members` handlers over their module-level
    `members` array: list an organization's members and add one. */
module MembersRoute {
  import opened Opt
  import opened Js
  import opened Text
  import opened Seqs

  function SeedMember(id: string, name: string, phone: string, role: string, joinedAt: int): Obj {
    map[
      "id" := Str(id), "name" := Str(name), "phone" := Str(phone), "role" := Str(role),
      "status" := Str("active"), "joinedAt" := Date(joinedAt), "orgId" := Str("org-1")
    ]
  }

  /** The two members the array starts with; `joinedAt` is midnight UTC of
      2024-01-15 and 2024-02-20, in milliseconds. */
  const SeedMembers: seq<Obj> := [
    SeedMember("member-1", "John Doe", "+1 (555) 123-4567", "user", 1705276800000),
    SeedMember("member-2", "Jane Smith", "+1 (555) 234-5678", "admin", 1708387200000)
  ]

  /** `m.orgId === orgId` for the `orgId` query parameter. */
  predicate InOrg(m: Obj, orgId: Option<string>) {
    Get(m, "orgId") == SearchParam(orgId)
  }

  function OrgMembers(members: seq<Obj>, orgId: Option<string>): seq<Obj> {
    Filter(members, (m: Obj) => InOrg(m, orgId))
  }

  /** `GET` returns exactly the organization's members, in stored order. */
  lemma OrgMembersExact(members: seq<Obj>, orgId: Option<string>)
    ensures forall i :: 0 <= i < |OrgMembers(members, orgId)| ==>
      OrgMembers(members, orgId)[i] in members && InOrg(OrgMembers(members, orgId)[i], orgId)
    ensures forall i :: 0 <= i < |members| && InOrg(members[i], orgId) ==>
      members[i] in OrgMembers(members, orgId)
    ensures IsSubsequence(OrgMembers(members, orgId), members)
  {
    FilterContents(members, (m: Obj) => InOrg(m, orgId));
    FilterIsSubsequence(members, (m: Obj) => InOrg(m, orgId));
  }

  /** Both seed members belong to `org-1`, so its listing is the whole seed, and
      any other organization's is empty. */
  lemma SeedListing(orgId: Option<string>)
    ensures OrgMembers(SeedMembers, Some("org-1")) == SeedMembers
    ensures orgId != Some("org-1") ==> OrgMembers(SeedMembers, orgId) == []
  {
    FilterKeepsAll(SeedMembers, (m: Obj) => InOrg(m, Some("org-1")));
    if orgId != Some("org-1") {
      FilterKeepsNone(SeedMembers, (m: Obj) => InOrg(m, orgId));
    }
  }

  /** The member `POST` stores: only `name`, `phone` and `orgId` are taken from
      the body; the id comes from the clock, the role is `user`, the status
      `active`, and `joinedAt` is now. */
  function NewMember(body: Obj, now: nat): (r: Obj)
    ensures r.Keys == {"id", "name", "phone", "role", "status", "joinedAt", "orgId"}
    ensures r["name"] == Get(body, "name") && r["phone"] == Get(body, "phone") && r["orgId"] == Get(body, "orgId")
    ensures r["id"] == Str("member-" + NatToString(now))
    ensures r["role"] == Str("user") && r["status"] == Str("active") && r["joinedAt"] == Date(now)
  {
    map[
      "id" := Str("member-" + NatToString(now)),
      "name" := Get(body, "name"),
      "phone" := Get(body, "phone"),
      "role" := Str("user"),
      "status" := Str("active"),
      "joinedAt" := Date(now),
      "orgId" := Get(body, "orgId")
    ]
  }

  /** Body properties other than `name`, `phone` and `orgId` have no effect: a
      caller cannot choose its own role, status or id. */
  lemma NewMemberIgnoresExtras(a: Obj, b: Obj, now: nat)
    requires Get(a, "name") == Get(b, "name")
    requires Get(a, "phone") == Get(b, "phone")
    requires Get(a, "orgId") == Get(b, "orgId")
    ensures NewMember(a, now) == NewMember(b, now)
  {
  }

  /** A member added for an organization shows up at the end of its listing. */
  lemma AddedMemberListed(members: seq<Obj>, body: Obj, now: nat, orgId: string)
    requires Get(body, "orgId") == Str(orgId)
    ensures OrgMembers(members + [NewMember(body, now)], Some(orgId)) ==
            OrgMembers(members, Some(orgId)) + [NewMember(body, now)]
  {
    FilterAppend(members, [NewMember(body, now)], (m: Obj) => InOrg(m, Some(orgId)));
  }

  /** The `POST` reply: the stored member, or an error with its status. */
  datatype PostReply = Added(member: Obj) | Failed(status: nat, error: string)

  /** The module-level store and its two handlers. */
  class MembersStore {
    var members: seq<Obj>

    constructor ()
      ensures members == SeedMembers
    {
      members := SeedMembers;
    }

    /** `GET /api/members?orgId=`. */
    method Get(orgId: Option<string>) returns (r: seq<Obj>)
      ensures r == OrgMembers(members, orgId)
    {
      r := Filter(members, (m: Obj) => InOrg(m, orgId));
    }

    /** `POST /api/members`: append the new member and return it. `body` is
        None when the request body cannot be read as a JSON object; the handler
        then answers 500 and stores nothing. */
    method Post(body: Option<Obj>, now: nat) returns (r: PostReply)
      modifies this
      ensures body.None? ==> r == Failed(500, "Failed to add member") && members == old(members)
      ensures body.Some? ==> r == Added(NewMember(body.value, now)) && members == old(members) + [r.member]
    {
      if body.None? {
        return Failed(500, "Failed to add member");
      }
      var newMember := NewMember(body.value, now);
      members := members + [newMember];
      r := Added(newMember);
    }
  }
}
