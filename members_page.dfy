/** The superadmin console's members page: the loaded list, the search
    box, the status filter, and the delete and status-toggle actions. */
module MembersPage {
  import opened Opt
  import opened Js
  import opened Seqs
  import opened Entities
  import opened MockApi
  import opened ListPage

  /** The search box looks at the name, the email and the organization name. */
  const SearchFields: seq<string> := ["name", "email", "organization"]

  /** The page's state. */
  class Page {
    var members: seq<Obj>
    var searchTerm: string
    var statusFilter: string
    var loading: bool

    constructor ()
      ensures members == [] && searchTerm == "" && statusFilter == "all" && loading
    {
      members := [];
      searchTerm := "";
      statusFilter := "all";
      loading := true;
    }

    /** `filteredMembers`: the rows the table shows. */
    function Filtered(): seq<Obj>
      reads this
    {
      Rows(members, searchTerm, statusFilter)
    }

    /** The effect on mount: load every member, then stop loading. */
    method Load(api: Store)
      modifies this
      ensures members == api.members && !loading
      ensures searchTerm == old(searchTerm) && statusFilter == old(statusFilter)
    {
      var data := api.GetAllMembers();
      members := data;
      loading := false;
    }

    /** `handleDelete`: when the user confirms, delete in the store and drop the
        id from the list. */
    method HandleDelete(api: Store, id: string, confirmed: bool)
      modifies this, api
      ensures !confirmed ==> members == old(members) && api.members == old(api.members)
      ensures confirmed ==> members == RemoveById(old(members), id)
      ensures confirmed ==> api.members == DeleteFirst(old(api.members), id)
      ensures api.organizations == old(api.organizations) && api.messages == old(api.messages)
      ensures searchTerm == old(searchTerm) && statusFilter == old(statusFilter) && loading == old(loading)
    {
      if confirmed {
        var _ := api.DeleteMember(id);
        members := Filter(members, (o: Obj) => !HasId(o, id));
      }
    }

    /** `handleToggleStatus`: ask the store to flip the status; when it returns
        the updated record, put it in place of every row with that id. */
    method HandleToggleStatus(api: Store, member: Obj)
      requires Get(member, "id").Str?
      modifies this, api
      ensures var i := FirstIndexOf(old(api.members), Get(member, "id").s);
        if i == -1 then (members == old(members) && api.members == old(api.members))
        else (
          && api.members == old(api.members)[i := Spread(old(api.members)[i], map["status" := Str(ToggledStatus(Get(member, "status")))])]
          && members == ReplaceById(old(members), Get(member, "id"), api.members[i]))
      ensures api.organizations == old(api.organizations) && api.messages == old(api.messages)
      ensures searchTerm == old(searchTerm) && statusFilter == old(statusFilter) && loading == old(loading)
    {
      var newStatus := ToggledStatus(Get(member, "status"));
      var updated := api.UpdateMember(Get(member, "id").s, map["status" := Str(newStatus)]);
      if updated.Some? {
        members := ReplaceById(members, Get(member, "id"), updated.value);
      }
    }
  }

  /** A toggle on a conforming member keeps its shape and flips its status. */
  lemma ToggleKeepsShape(member: Obj)
    requires Conforms(member, MemberSchema)
    ensures var t := Spread(member, map["status" := Str(ToggledStatus(Get(member, "status")))]);
      Conforms(t, MemberSchema) && t["status"] != member["status"]
  {
  }

  /** The rows shown for a search term and a status filter. */
  function Rows(s: seq<Obj>, term: string, statusFilter: string): seq<Obj> {
    VisibleRows(s, SearchFields, term, statusFilter)
  }

  /** Conforming members are each active or inactive, so the "active" and
      "inactive" views split the "all" view. */
  lemma StatusViewsSplit(s: seq<Obj>, term: string)
    requires forall i :: 0 <= i < |s| ==> Conforms(s[i], MemberSchema)
    ensures |Rows(s, term, "active")| + |Rows(s, term, "inactive")| == |Rows(s, term, "all")|
  {
    forall i | 0 <= i < |s| ensures Get(s[i], "status") in {Str("active"), Str("inactive")} {
      assert FitsField(s[i]["status"], MemberSchema["status"]);
    }
    StatusViewsPartition(s, SearchFields, term);
  }

  /** On the fixtures, an empty search with "all" shows all five members. */
  lemma FixtureShowsAll()
    ensures Rows(MockMembers, "", "all") == MockMembers
  {
    EmptySearchShowsAll(MockMembers, SearchFields);
  }
}
