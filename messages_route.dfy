/** The organization console's `/api/messages` handlers over their module-level
    `messages` array: list by organization, send, and count by period. */
module MessagesRoute {
  import opened Opt
  import opened Js
  import opened Text
  import opened Seqs

  /** The one message the array starts with. Its `sentAt` is
      `new Date("2024-03-01")`, midnight UTC, in milliseconds. */
  const SeedMessage: Obj := map[
    "id" := Str("msg-1"),
    "title" := Str("Welcome to our organization"),
    "content" := Str("We are excited to have you here"),
    "type" := Str("announcement"),
    "place" := Str("Main Hall"),
    "time" := Str("2024-03-01T10:00:00"),
    "sentAt" := Date(1709251200000),
    "recipientCount" := Num(2),
    "orgId" := Str("org-1")
  ]

  /** `m.orgId === orgId` for the `orgId` query parameter. */
  predicate InOrg(m: Obj, orgId: Option<string>) {
    Get(m, "orgId") == SearchParam(orgId)
  }

  /** `messages.filter((m) => m.orgId === orgId)`. */
  function OrgMessages(messages: seq<Obj>, orgId: Option<string>): seq<Obj> {
    Filter(messages, (m: Obj) => InOrg(m, orgId))
  }

  /** `GET` returns exactly the messages of the organization, in stored order. */
  lemma OrgMessagesExact(messages: seq<Obj>, orgId: Option<string>)
    ensures forall i :: 0 <= i < |OrgMessages(messages, orgId)| ==>
      OrgMessages(messages, orgId)[i] in messages && InOrg(OrgMessages(messages, orgId)[i], orgId)
    ensures forall i :: 0 <= i < |messages| && InOrg(messages[i], orgId) ==>
      messages[i] in OrgMessages(messages, orgId)
    ensures IsSubsequence(OrgMessages(messages, orgId), messages)
  {
    FilterContents(messages, (m: Obj) => InOrg(m, orgId));
    FilterIsSubsequence(messages, (m: Obj) => InOrg(m, orgId));
  }

  /** Without an `orgId` parameter the filter compares with `null`, which no
      stored string id equals. */
  lemma MissingOrgIdFindsNothing(messages: seq<Obj>)
    requires forall i :: 0 <= i < |messages| ==> Get(messages[i], "orgId").Str?
    ensures OrgMessages(messages, None) == []
  {
    FilterKeepsNone(messages, (m: Obj) => InOrg(m, None));
  }

  // ---------------------------------------------------------------------------
  // POST
  // ---------------------------------------------------------------------------

  /** The message `POST` stores: defaults `id: msg-<now>`, `sentAt: now`,
      `recipientCount: 2`, with `type` and `orgId` from the body, and then every
      other body property spread over them. */
  function NewMessage(body: Obj, now: nat): Obj {
    var defaults := map[
      "id" := Str("msg-" + NatToString(now)),
      "type" := Get(body, "type"),
      "sentAt" := Date(now),
      "recipientCount" := Num(2),
      "orgId" := Get(body, "orgId")
    ];
    Spread(defaults, body - {"type", "orgId"})
  }

  /** The fields of a sent message: `type` and `orgId` from the body (possibly
      `undefined`); other body properties, including `id`, `sentAt` and
      `recipientCount`, override the defaults; the defaults fill in the rest. */
  lemma NewMessageFields(body: Obj, now: nat)
    ensures var r := NewMessage(body, now);
      && r.Keys == body.Keys + {"id", "type", "sentAt", "recipientCount", "orgId"}
      && r["type"] == Get(body, "type")
      && r["orgId"] == Get(body, "orgId")
      && (forall k :: k in body && k != "type" && k != "orgId" ==> r[k] == body[k])
      && ("id" !in body ==> r["id"] == Str("msg-" + NatToString(now)))
      && ("sentAt" !in body ==> r["sentAt"] == Date(now))
      && ("recipientCount" !in body ==> r["recipientCount"] == Num(2))
  {
  }

  /** Two sends in the same millisecond get the same id. */
  lemma SameMillisecondSameId(a: Obj, b: Obj, now: nat)
    requires "id" !in a && "id" !in b
    ensures NewMessage(a, now)["id"] == NewMessage(b, now)["id"]
  {
  }

  // ---------------------------------------------------------------------------
  // PUT: messages in a period
  // ---------------------------------------------------------------------------

  /** The instants `PUT` may count from: now, and now minus one day, seven days,
      one month and one year in calendar terms. */
  datatype Cutoffs = Cutoffs(now: int, dayAgo: int, weekAgo: int, monthAgo: int, yearAgo: int) {
    /** Going further back in the calendar never gives a later instant. */
    predicate Ordered() {
      yearAgo <= monthAgo <= weekAgo <= dayAgo <= now
    }
  }

  /** `startDate`: the cutoff the `period` parameter selects; anything else
      (including no parameter) leaves it at now. */
  function StartDate(period: Option<string>, c: Cutoffs): int {
    if period == Some("1day") then c.dayAgo
    else if period == Some("7days") then c.weekAgo
    else if period == Some("month") then c.monthAgo
    else if period == Some("year") then c.yearAgo
    else c.now
  }

  /** `new Date(m.sentAt)` as a timestamp, or None for an invalid date. Dates and
      numbers give their time, `true` and `false` give 1 and 0, and `null` gives
      0; `undefined` is invalid; a string would be parsed, which this model does
      not do. */
  function SentAt(m: Obj): Option<int> {
    match Get(m, "sentAt")
    case Date(t) => Some(t)
    case Num(n) => Some(n)
    case Bool(b) => Some(if b then 1 else 0)
    case Null => Some(0)
    case _ => None
  }

  /** `new Date(m.sentAt) >= startDate`; an invalid date compares false. */
  predicate SentSince(m: Obj, start: int) {
    match SentAt(m)
    case Some(t) => t >= start
    case None => false
  }

  /** The organization's messages sent at or after `start`. */
  function MessagesSince(messages: seq<Obj>, orgId: Option<string>, start: int): seq<Obj> {
    Filter(OrgMessages(messages, orgId), (m: Obj) => SentSince(m, start))
  }

  /** The `PUT` response `{period, count, messages}`. */
  datatype PeriodReport = PeriodReport(period: Option<string>, count: nat, messages: seq<Obj>)

  function Report(messages: seq<Obj>, orgId: Option<string>, period: Option<string>, c: Cutoffs): PeriodReport {
    var found := MessagesSince(messages, orgId, StartDate(period, c));
    PeriodReport(period, |found|, found)
  }

  /** The count is the number of messages returned, and they are exactly the
      organization's messages sent since the cutoff, in stored order. */
  lemma ReportExact(messages: seq<Obj>, orgId: Option<string>, period: Option<string>, c: Cutoffs)
    ensures var r := Report(messages, orgId, period, c);
      && r.count == |r.messages|
      && r.period == period
      && IsSubsequence(r.messages, OrgMessages(messages, orgId))
      && (forall i :: 0 <= i < |r.messages| ==> InOrg(r.messages[i], orgId) && SentSince(r.messages[i], StartDate(period, c)))
      && (forall i :: 0 <= i < |messages| && InOrg(messages[i], orgId) && SentSince(messages[i], StartDate(period, c)) ==>
            messages[i] in r.messages)
  {
    var start := StartDate(period, c);
    var org := OrgMessages(messages, orgId);
    FilterContents(messages, (m: Obj) => InOrg(m, orgId));
    FilterContents(org, (m: Obj) => SentSince(m, start));
    FilterIsSubsequence(org, (m: Obj) => SentSince(m, start));
    forall i | 0 <= i < |messages| && InOrg(messages[i], orgId) && SentSince(messages[i], start)
      ensures messages[i] in Report(messages, orgId, period, c).messages
    {
      assert messages[i] in org;
      var j :| 0 <= j < |org| && org[j] == messages[i];
    }
  }

  /** An earlier cutoff counts at least as many messages. */
  lemma EarlierCutoffCountsMore(messages: seq<Obj>, orgId: Option<string>, early: int, late: int)
    requires early <= late
    ensures |MessagesSince(messages, orgId, late)| <= |MessagesSince(messages, orgId, early)|
  {
    FilterWeakerKeepsMore(OrgMessages(messages, orgId), (m: Obj) => SentSince(m, late), (m: Obj) => SentSince(m, early));
  }

  /** With ordered cutoffs the counts grow with the period:
      1day <= 7days <= month <= year. */
  lemma PeriodCountsMonotone(messages: seq<Obj>, orgId: Option<string>, c: Cutoffs)
    requires c.Ordered()
    ensures Report(messages, orgId, Some("1day"), c).count <= Report(messages, orgId, Some("7days"), c).count
    ensures Report(messages, orgId, Some("7days"), c).count <= Report(messages, orgId, Some("month"), c).count
    ensures Report(messages, orgId, Some("month"), c).count <= Report(messages, orgId, Some("year"), c).count
  {
    EarlierCutoffCountsMore(messages, orgId, c.weekAgo, c.dayAgo);
    EarlierCutoffCountsMore(messages, orgId, c.monthAgo, c.weekAgo);
    EarlierCutoffCountsMore(messages, orgId, c.yearAgo, c.monthAgo);
  }

  /** A missing or unrecognised period counts only messages sent at or after now. */
  lemma UnknownPeriodCountsFromNow(messages: seq<Obj>, orgId: Option<string>, period: Option<string>, c: Cutoffs)
    requires period !in {Some("1day"), Some("7days"), Some("month"), Some("year")}
    ensures Report(messages, orgId, period, c).messages == MessagesSince(messages, orgId, c.now)
  {
  }

  /** The `POST` reply: the stored message, or an error with its status. */
  datatype PostReply = Sent(message: Obj) | Failed(status: nat, error: string)

  /** The module-level store and its three handlers. */
  class MessagesStore {
    var messages: seq<Obj>

    constructor ()
      ensures messages == [SeedMessage]
    {
      messages := [SeedMessage];
    }

    /** `GET /api/messages?orgId=`. */
    method Get(orgId: Option<string>) returns (r: seq<Obj>)
      ensures r == OrgMessages(messages, orgId)
    {
      r := Filter(messages, (m: Obj) => InOrg(m, orgId));
    }

    /** `POST /api/messages`: append the new message and return it. `body` is
        None when the request body cannot be read as a JSON object; the handler
        then answers 500 and stores nothing. */
    method Post(body: Option<Obj>, now: nat) returns (r: PostReply)
      modifies this
      ensures body.None? ==> r == Failed(500, "Failed to send message") && messages == old(messages)
      ensures body.Some? ==> r == Sent(NewMessage(body.value, now)) && messages == old(messages) + [r.message]
    {
      if body.None? {
        return Failed(500, "Failed to send message");
      }
      var b := body.value;
      var messageData := b - {"type", "orgId"};
      var newMessage := map[
        "id" := Str("msg-" + NatToString(now)),
        "type" := Js.Get(b, "type"),
        "sentAt" := Date(now),
        "recipientCount" := Num(2),
        "orgId" := Js.Get(b, "orgId")
      ];
      newMessage := Spread(newMessage, messageData);
      messages := messages + [newMessage];
      r := Sent(newMessage);
    }

    /** `PUT /api/messages?orgId=&period=`: count the messages since the cutoff,
        without touching the store. */
    method Put(orgId: Option<string>, period: Option<string>, c: Cutoffs) returns (r: PeriodReport)
      ensures r == Report(messages, orgId, period, c)
    {
      var orgMessages := Filter(messages, (m: Obj) => InOrg(m, orgId));
      var startDate := StartDate(period, c);
      var filtered := Filter(orgMessages, (m: Obj) => SentSince(m, startDate));
      r := PeriodReport(period, |filtered|, filtered);
    }
  }
}
