/** What the superadmin console's organizations and members pages share: the
    search box and status filter over the loaded list, and how the list is
    updated after a delete or a status toggle. */
module ListPage {
  import opened Js
  import opened Text
  import opened Seqs
  import opened MockApi

  /** A searched property as text; only string properties are searched. */
  function TextOf(o: Obj, k: string): string {
    match Get(o, k)
    case Str(s) => s
    case _ => ""
  }

  /** The search box: some of the searched properties, lower-cased, contain the
      lower-cased search term. */
  function MatchesSearch(o: Obj, fields: seq<string>, term: string): (b: bool)
    ensures b <==> exists j :: 0 <= j < |fields| && Includes(ToLower(TextOf(o, fields[j])), ToLower(term))
    decreases |fields|
  {
    if fields == [] then false
    else
      var rest := MatchesSearch(o, fields[1..], term);
      assert forall j :: 1 <= j < |fields| ==> fields[j] == fields[1..][j - 1];
      Includes(ToLower(TextOf(o, fields[0])), ToLower(term)) || rest
  }

  /** `statusFilter === "all" || o.status === statusFilter`. */
  predicate MatchesStatus(o: Obj, statusFilter: string) {
    statusFilter == "all" || Get(o, "status") == Str(statusFilter)
  }

  predicate Visible(o: Obj, fields: seq<string>, term: string, statusFilter: string) {
    MatchesSearch(o, fields, term) && MatchesStatus(o, statusFilter)
  }

  /** The rows the table shows. */
  function VisibleRows(s: seq<Obj>, fields: seq<string>, term: string, statusFilter: string): seq<Obj> {
    Filter(s, (o: Obj) => Visible(o, fields, term, statusFilter))
  }

  /** The search matches a row exactly when the lower-cased term occurs at some
      position of some lower-cased searched property. */
  lemma SearchIff(o: Obj, fields: seq<string>, term: string)
    ensures MatchesSearch(o, fields, term) <==>
      exists j, i :: 0 <= j < |fields| && OccursAt(ToLower(TextOf(o, fields[j])), ToLower(term), i)
  {
    forall j | 0 <= j < |fields| {
      IncludesIff(ToLower(TextOf(o, fields[j])), ToLower(term));
    }
  }

  /** The search ignores the case of the term. */
  lemma SearchIgnoresCase(o: Obj, fields: seq<string>, term: string)
    ensures MatchesSearch(o, fields, ToLower(term)) == MatchesSearch(o, fields, term)
  {
    ToLowerIdempotent(term);
  }

  /** An empty search with "all" shows every row, in order. */
  lemma EmptySearchShowsAll(s: seq<Obj>, fields: seq<string>)
    requires |fields| > 0
    ensures VisibleRows(s, fields, "", "all") == s
  {
    forall k: nat | k < |s| ensures Visible(s[k], fields, "", "all") {
      IncludesEmpty(ToLower(TextOf(s[k], fields[0])));
    }
    FilterKeepsAll(s, (o: Obj) => Visible(o, fields, "", "all"));
  }

  /** The table shows the rows passing both filters, as a subsequence of the list. */
  lemma VisibleRowsExact(s: seq<Obj>, fields: seq<string>, term: string, statusFilter: string)
    ensures forall i :: 0 <= i < |VisibleRows(s, fields, term, statusFilter)| ==>
      Visible(VisibleRows(s, fields, term, statusFilter)[i], fields, term, statusFilter)
    ensures forall i :: 0 <= i < |s| && Visible(s[i], fields, term, statusFilter) ==>
      s[i] in VisibleRows(s, fields, term, statusFilter)
    ensures IsSubsequence(VisibleRows(s, fields, term, statusFilter), s)
  {
    FilterContents(s, (o: Obj) => Visible(o, fields, term, statusFilter));
    FilterIsSubsequence(s, (o: Obj) => Visible(o, fields, term, statusFilter));
  }

  /** When every row is active or inactive, the "active" and "inactive" views
      together hold as many rows as the "all" view. */
  lemma StatusViewsPartition(s: seq<Obj>, fields: seq<string>, term: string)
    requires forall i :: 0 <= i < |s| ==> Get(s[i], "status") in {Str("active"), Str("inactive")}
    ensures |VisibleRows(s, fields, term, "active")| + |VisibleRows(s, fields, term, "inactive")| ==
            |VisibleRows(s, fields, term, "all")|
  {
    FilterSplit(s, (o: Obj) => Visible(o, fields, term, "active"), (o: Obj) => Visible(o, fields, term, "inactive"),
                (o: Obj) => Visible(o, fields, term, "all"));
  }

  // ---------------------------------------------------------------------------
  // Updating the list after a change
  // ---------------------------------------------------------------------------

  /** `list.filter((o) => o.id !== id)`. */
  function RemoveById(s: seq<Obj>, id: string): seq<Obj> {
    Filter(s, (o: Obj) => !HasId(o, id))
  }

  /** `list.map((o) => (o.id === id ? updated : o))`. */
  function ReplaceById(s: seq<Obj>, id: Value, updated: Obj): (r: seq<Obj>)
    ensures |r| == |s|
    ensures forall i :: 0 <= i < |s| && Get(s[i], "id") == id ==> r[i] == updated
    ensures forall i :: 0 <= i < |s| && Get(s[i], "id") != id ==> r[i] == s[i]
  {
    seq(|s|, i requires 0 <= i < |s| => if Get(s[i], "id") == id then updated else s[i])
  }

  /** The status a toggle asks for: "inactive" for an active row, "active" otherwise. */
  function ToggledStatus(status: Value): (r: string)
    ensures r == "active" || r == "inactive"
    ensures r == "inactive" <==> status == Str("active")
  {
    if status == Str("active") then "inactive" else "active"
  }

  /** Toggling an active or inactive status twice gives back the original status. */
  lemma ToggleTwice(status: string)
    requires status == "active" || status == "inactive"
    ensures ToggledStatus(Str(ToggledStatus(Str(status)))) == status
  {
  }

  /** With unique ids the page's list after a delete is the store's: the same
      single record removed, or nothing when the id is absent. */
  lemma DeleteInSync(s: seq<Obj>, id: string)
    requires UniqueIds(s)
    ensures RemoveById(s, id) == DeleteFirst(s, id)
  {
    var i := FirstIndexOf(s, id);
    if i == -1 {
      FilterKeepsAll(s, (o: Obj) => !HasId(o, id));
    } else {
      forall j | 0 <= j < |s| && j != i ensures !HasId(s[j], id) {
        if j < i {
          assert Get(s[j], "id") != Get(s[i], "id");
        } else {
          assert Get(s[i], "id") != Get(s[j], "id");
        }
      }
      FilterRemovesSingle(s, (o: Obj) => !HasId(o, id), i);
    }
  }

  /** With a repeated id the page drops every copy while the store drops only the
      first, so the page shows fewer records than the store holds. */
  lemma DeleteWithDuplicatesDiverges(s: seq<Obj>, id: string, a: nat, b: nat)
    requires a < b < |s| && HasId(s[a], id) && HasId(s[b], id)
    ensures |RemoveById(s, id)| < |DeleteFirst(s, id)|
  {
    FilterDropsBoth(s, (o: Obj) => !HasId(o, id), a, b);
  }

  /** The page's list is at first the very array the store splices. Filtering
      that array after the splice gives the same list as filtering it before. */
  lemma AliasedDeleteSame(s: seq<Obj>, id: string, i: nat)
    requires i < |s| && HasId(s[i], id)
    ensures RemoveById(RemoveAt(s, i), id) == RemoveById(s, id)
  {
    FilterIgnoresRemoved(s, (o: Obj) => !HasId(o, id), i);
  }

  /** With unique ids the page's list after a toggle is the store's: the record
      replaced at its own position only. */
  lemma UpdateInSync(s: seq<Obj>, id: string, updated: Obj)
    requires UniqueIds(s) && FirstIndexOf(s, id) != -1
    ensures ReplaceById(s, Str(id), updated) == s[FirstIndexOf(s, id) := updated]
  {
    var i := FirstIndexOf(s, id);
    forall j | 0 <= j < |s| && j != i ensures !HasId(s[j], id) {
      if j < i {
        assert Get(s[j], "id") != Get(s[i], "id");
      } else {
        assert Get(s[i], "id") != Get(s[j], "id");
      }
    }
  }

  /** With a repeated id the page replaces every copy while the store updates
      only the first. */
  lemma UpdateWithDuplicatesDiverges(s: seq<Obj>, id: string, a: nat, b: nat, updated: Obj)
    requires a < b < |s| && HasId(s[a], id) && HasId(s[b], id) && s[b] != updated
    ensures FirstIndexOf(s, id) <= a
    ensures ReplaceById(s, Str(id), updated) != s[FirstIndexOf(s, id) := updated]
  {
    assert ReplaceById(s, Str(id), updated)[b] == updated;
  }

  /** The page maps over the array the store has just written the updated record
      into; that gives the same list as mapping over the array before the write. */
  lemma AliasedUpdateSame(s: seq<Obj>, id: string, i: nat, updated: Obj)
    requires i < |s| && HasId(s[i], id) && HasId(updated, id)
    ensures ReplaceById(s[i := updated], Str(id), updated) == ReplaceById(s, Str(id), updated)
  {
  }
}
