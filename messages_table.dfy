/** The organization console's message history table: a title, a type badge and
    a details line for each message. */
module MessagesTable {
  import opened Opt

  /** The table's own `Message` interface; optional properties may be absent. */
  datatype TableMessage = TableMessage(
    id: string, title: Option<string>, content: Option<string>, kind: string, sentAt: string,
    recipientCount: int, place: Option<string>, time: Option<string>, address: Option<string>,
    deathType: Option<string>)

  const Pin: string := "\U{1F4CD}"
  const Clock: string := "\U{1F550}"
  const Postbox: string := "\U{1F4EE}"
  const Candle: string := "\U{1F56F}\U{FE0F}"
  const Megaphone: string := "\U{1F4E2}"

  /** `v || fallback` for an optional string: an absent or empty string falls back. */
  function OrElse(v: Option<string>, fallback: string): (r: string)
    ensures v.Some? && v.value != "" ==> r == v.value
    ensures v.None? || v.value == "" ==> r == fallback
  {
    if v.Some? && v.value != "" then v.value else fallback
  }

  /** `${v}`: an absent property prints as "undefined". */
  function Interpolate(v: Option<string>): string {
    match v
    case Some(s) => s
    case None => "undefined"
  }

  /** `getMessageTitle`. */
  function Title(m: TableMessage): string {
    if m.kind == "announcement" then OrElse(m.title, "Announcement")
    else if m.kind == "funeral" then "Funeral Notice - " + OrElse(m.place, "Unknown")
    else OrElse(m.title, "Message")
  }

  /** The type badge: announcements get their own badge, every other type the funeral one. */
  function TypeBadge(m: TableMessage): string {
    if m.kind == "announcement" then Megaphone + " Announcement" else Candle + " Funeral"
  }

  /** `getMessageDetails`; `localeString` renders a `time` value as the browser's
      `toLocaleString` would. */
  function Details(m: TableMessage, localeString: string -> string): string {
    if m.kind == "announcement" then
      Pin + " " + Interpolate(m.place) + " | " + Clock + " " +
      (if m.time.Some? && m.time.value != "" then localeString(m.time.value) else "TBD")
    else if m.kind == "funeral" then
      Pin + " " + Interpolate(m.place) + " | " + Postbox + " " + Interpolate(m.address) + " | " +
      (if m.deathType == Some("new") then Candle + " New" else Candle + " Anniversary")
    else ""
  }

  /** One table row. */
  datatype Row = Row(title: string, badge: string, details: string, recipients: int, sentAt: string)

  function RowOf(m: TableMessage, localeString: string -> string, localeDate: string -> string): Row {
    Row(Title(m), TypeBadge(m), Details(m, localeString), m.recipientCount, localeDate(m.sentAt))
  }

  /** What the component renders. */
  datatype View = Loading | NoMessages | Table(rows: seq<Row>)

  function Render(messages: seq<TableMessage>, loading: bool,
                  localeString: string -> string, localeDate: string -> string): View {
    if loading then Loading
    else if |messages| == 0 then NoMessages
    else Table(seq(|messages|, i requires 0 <= i < |messages| => RowOf(messages[i], localeString, localeDate)))
  }

  /** Every message gets a non-empty title. */
  lemma TitleNeverEmpty(m: TableMessage)
    ensures Title(m) != ""
  {
  }

  /** An announcement or other message shows its own title when it has a
      non-empty one; a funeral notice never does, and names its place instead. */
  lemma TitleSource(m: TableMessage, t: string)
    ensures m.kind != "funeral" && m.title == Some(t) && t != "" ==> Title(m) == t
    ensures m.kind == "funeral" ==> Title(m.(title := Some(t))) == Title(m)
    ensures m.kind == "funeral" && m.place == Some(t) && t != "" ==> Title(m) == "Funeral Notice - " + t
  {
  }

  /** The badge says "Announcement" exactly for announcements; every other type,
      whatever it is, is badged as a funeral. */
  lemma BadgeIff(m: TableMessage)
    ensures TypeBadge(m) == Megaphone + " Announcement" <==> m.kind == "announcement"
    ensures m.kind != "announcement" ==> TypeBadge(m) == Candle + " Funeral"
  {
    assert (Megaphone + " Announcement")[0] != (Candle + " Funeral")[0];
  }

  /** The details line is empty exactly for messages that are neither
      announcements nor funeral notices. */
  lemma DetailsEmptyIff(m: TableMessage, localeString: string -> string)
    ensures Details(m, localeString) == "" <==> m.kind != "announcement" && m.kind != "funeral"
  {
    if m.kind == "announcement" || m.kind == "funeral" {
      assert Details(m, localeString)[0] == Pin[0];
    }
  }

  /** A funeral notice's details end with "New" when its death type is "new" and
      with "Anniversary" for any other or a missing death type. */
  lemma DeathTypeLabel(m: TableMessage, localeString: string -> string)
    requires m.kind == "funeral"
    ensures var d := Details(m, localeString);
      && (m.deathType == Some("new") ==> |d| >= 6 && d[|d| - 6..] == Candle + " New")
      && (m.deathType != Some("new") ==> |d| >= 14 && d[|d| - 14..] == Candle + " Anniversary")
  {
  }

  /** Loading shows the placeholder; an empty list the "No messages sent yet"
      row; otherwise one row per message, in order. */
  lemma RenderRows(messages: seq<TableMessage>, loading: bool, localeString: string -> string, localeDate: string -> string)
    ensures Render(messages, loading, localeString, localeDate) == Loading <==> loading
    ensures Render(messages, loading, localeString, localeDate) == NoMessages <==> !loading && messages == []
    ensures Render(messages, loading, localeString, localeDate).Table? ==>
      var rows := Render(messages, loading, localeString, localeDate).rows;
      |rows| == |messages| &&
      forall i :: 0 <= i < |messages| ==> rows[i].title == Title(messages[i]) && rows[i].badge == TypeBadge(messages[i])
  {
  }
}
