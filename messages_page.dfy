/** The superadmin console's messages page: a fixed list of message rows, a
    search box over the id and the organization, and a type filter. */
module MessagesPage {
  import opened Text
  import opened Seqs

  /** One row of the page's own list. */
  datatype MessageRow = MessageRow(id: string, kind: string, organization: string, date: string,
                                   recipients: nat, status: string)

  /** The list the page shows. */
  const Rows: seq<MessageRow> := [
    MessageRow("MSG001", "Funeral", "Alpha Corporation", "2024-10-20", 150, "sent"),
    MessageRow("MSG002", "Announcement", "Beta Industries", "2024-10-18", 200, "sent"),
    MessageRow("MSG003", "Funeral", "Gamma Solutions", "2024-10-15", 120, "sent"),
    MessageRow("MSG004", "Announcement", "Delta Enterprises", "2024-10-12", 180, "sent"),
    MessageRow("MSG005", "Funeral", "Epsilon Group", "2024-10-10", 95, "sent")
  ]

  /** The search box: the lower-cased term occurs in the lower-cased id or organization. */
  predicate MatchesSearch(m: MessageRow, term: string) {
    Includes(ToLower(m.id), ToLower(term)) || Includes(ToLower(m.organization), ToLower(term))
  }

  /** `typeFilter === "all" || message.type.toLowerCase() === typeFilter`: the
      row's type is lower-cased, the filter value is not. */
  predicate MatchesType(m: MessageRow, typeFilter: string) {
    typeFilter == "all" || ToLower(m.kind) == typeFilter
  }

  predicate Visible(m: MessageRow, term: string, typeFilter: string) {
    MatchesSearch(m, term) && MatchesType(m, typeFilter)
  }

  /** `filteredMessages`. */
  function Filtered(rows: seq<MessageRow>, term: string, typeFilter: string): seq<MessageRow> {
    Filter(rows, (m: MessageRow) => Visible(m, term, typeFilter))
  }

  /** The search matches a row exactly when the lower-cased term occurs at some
      position of its lower-cased id or organization. */
  lemma SearchIff(m: MessageRow, term: string)
    ensures MatchesSearch(m, term) <==>
      (exists p :: OccursAt(ToLower(m.id), ToLower(term), p)) ||
      (exists p :: OccursAt(ToLower(m.organization), ToLower(term), p))
  {
    IncludesIff(ToLower(m.id), ToLower(term));
    IncludesIff(ToLower(m.organization), ToLower(term));
  }

  /** A row is shown exactly when it passes both filters; shown rows keep their order. */
  lemma FilteredExact(rows: seq<MessageRow>, term: string, typeFilter: string)
    ensures forall i :: 0 <= i < |rows| ==>
      (rows[i] in Filtered(rows, term, typeFilter) <==> Visible(rows[i], term, typeFilter))
    ensures IsSubsequence(Filtered(rows, term, typeFilter), rows)
  {
    var p := (m: MessageRow) => Visible(m, term, typeFilter);
    FilterContents(rows, p);
    forall i | 0 <= i < |rows| && rows[i] in Filtered(rows, term, typeFilter)
      ensures Visible(rows[i], term, typeFilter)
    {
      var j :| 0 <= j < |Filtered(rows, term, typeFilter)| && Filtered(rows, term, typeFilter)[j] == rows[i];
    }
    FilterIsSubsequence(rows, p);
  }

  /** An empty search with "all" shows every row. */
  lemma EmptySearchShowsAll(rows: seq<MessageRow>)
    ensures Filtered(rows, "", "all") == rows
  {
    forall i | 0 <= i < |rows| ensures Visible(rows[i], "", "all") {
      IncludesEmpty(ToLower(rows[i].id));
    }
    FilterKeepsAll(rows, (m: MessageRow) => Visible(m, "", "all"));
  }

  /** A filter value holding a capital letter never equals a lower-cased type, so
      it shows nothing; only the lower-case options of the select match rows. */
  lemma CapitalFilterShowsNothing(rows: seq<MessageRow>, term: string, typeFilter: string, k: nat)
    requires typeFilter != "all"
    requires k < |typeFilter| && 'A' <= typeFilter[k] <= 'Z'
    ensures Filtered(rows, term, typeFilter) == []
  {
    forall i | 0 <= i < |rows| ensures !Visible(rows[i], term, typeFilter) {
      if k < |rows[i].kind| {
        assert ToLower(rows[i].kind)[k] == LowerChar(rows[i].kind[k]);
      }
    }
    FilterKeepsNone(rows, (m: MessageRow) => Visible(m, term, typeFilter));
  }

  /** Every row's type lower-cases to "funeral" or to "announcement". */
  lemma KindsAreOptions()
    ensures forall i :: 0 <= i < |Rows| ==>
      ToLower(Rows[i].kind) == "funeral" || ToLower(Rows[i].kind) == "announcement"
  {
    assert ToLower("Funeral") == "funeral";
    assert ToLower("Announcement") == "announcement";
    forall i | 0 <= i < |Rows|
      ensures Rows[i].kind == "Funeral" || Rows[i].kind == "Announcement"
    {
    }
  }

  /** When every row's type lower-cases to one of the two select options, the
      "funeral" and "announcement" views split the "all" view. */
  lemma TypeViewsSplit(rows: seq<MessageRow>, term: string)
    requires forall i :: 0 <= i < |rows| ==>
      ToLower(rows[i].kind) == "funeral" || ToLower(rows[i].kind) == "announcement"
    ensures |Filtered(rows, term, "funeral")| + |Filtered(rows, term, "announcement")| == |Filtered(rows, term, "all")|
  {
    var p := (m: MessageRow) => Visible(m, term, "funeral");
    var q := (m: MessageRow) => Visible(m, term, "announcement");
    var r := (m: MessageRow) => Visible(m, term, "all");
    forall i | 0 <= i < |rows|
      ensures (r(rows[i]) <==> p(rows[i]) || q(rows[i])) && !(p(rows[i]) && q(rows[i]))
    {
    }
    FilterSplit(rows, p, q, r);
  }

  /** The page's own rows split that way. */
  lemma TypeViewsPartition(term: string)
    ensures |Filtered(Rows, term, "funeral")| + |Filtered(Rows, term, "announcement")| == |Filtered(Rows, term, "all")|
  {
    KindsAreOptions();
    TypeViewsSplit(Rows, term);
  }

  /** Which rows pass the empty search with the "funeral" filter. */
  lemma FuneralRows()
    ensures Visible(Rows[0], "", "funeral") && !Visible(Rows[1], "", "funeral") && Visible(Rows[2], "", "funeral")
    ensures !Visible(Rows[3], "", "funeral") && Visible(Rows[4], "", "funeral")
  {
    assert ToLower("Funeral") == "funeral";
    assert ToLower("Announcement")[0] == 'a';
    IncludesEmpty(ToLower(Rows[0].id));
    IncludesEmpty(ToLower(Rows[2].id));
    IncludesEmpty(ToLower(Rows[4].id));
  }

  /** The "funeral" view with no search shows MSG001, MSG003 and MSG005, in order. */
  lemma FuneralView()
    ensures Filtered(Rows, "", "funeral") == [Rows[0], Rows[2], Rows[4]]
  {
    FuneralRows();
    assert Rows == [Rows[0], Rows[1], Rows[2], Rows[3], Rows[4]];
    FilterOfFive(Rows[0], Rows[1], Rows[2], Rows[3], Rows[4], (m: MessageRow) => Visible(m, "", "funeral"));
  }
}
