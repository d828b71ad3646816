/** The superadmin console's record shapes (Organization, Member, Message) and the
    fixtures its mock repository starts from. */
module Entities {
  import opened Js

  /** The type of one interface field. */
  datatype Kind = Text | Number | Choice(options: set<string>)

  datatype Field = Field(kind: Kind, required: bool)

  /** An interface: its fields by name. */
  type Schema = map<string, Field>

  predicate HasKind(v: Value, k: Kind) {
    match k
    case Text => v.Str?
    case Number => v.Num?
    case Choice(options) => v.Str? && v.s in options
  }

  /** A value the field may hold: one of its type, or `undefined` when the field is optional. */
  predicate FitsField(v: Value, f: Field) {
    HasKind(v, f.kind) || (!f.required && v == Undefined)
  }

  /** `o` has the interface's shape: no unknown property, every required property
      present, every value of its field's type. */
  predicate Conforms(o: Obj, schema: Schema) {
    && (forall k :: k in o ==> k in schema && FitsField(o[k], schema[k]))
    && (forall k :: k in schema && schema[k].required ==> k in o)
  }

  /** `o` is a `Partial<...>` of the interface: every property it has is a known
      field holding a value of that field's type. `Partial` also admits `undefined`
      for every field; a patch that uses it is not a conforming patch. */
  predicate ConformsPatch(p: Obj, schema: Schema) {
    forall k :: k in p ==> k in schema && HasKind(p[k], schema[k].kind)
  }

  /** The interface with some fields removed (`Omit<T, K>`). */
  function Omit(schema: Schema, keys: set<string>): Schema {
    schema - keys
  }

  /** A shallow merge with a conforming patch keeps the record's shape. */
  lemma SpreadConforms(o: Obj, p: Obj, schema: Schema)
    requires Conforms(o, schema) && ConformsPatch(p, schema)
    ensures Conforms(Spread(o, p), schema)
  {
  }

  /** Adding the omitted fields back, with values of their types, restores the shape. */
  lemma CompletesOmitted(data: Obj, extra: Obj, schema: Schema)
    requires Conforms(data, Omit(schema, extra.Keys))
    requires extra.Keys <= schema.Keys
    requires forall k :: k in extra ==> HasKind(extra[k], schema[k].kind)
    ensures Conforms(Spread(data, extra), schema)
  {
  }

  const Status: Kind := Choice({"active", "inactive"})

  /** `interface Organization`. */
  const OrganizationSchema: Schema := map[
    "id" := Field(Text, true),
    "name" := Field(Text, true),
    "members" := Field(Number, true),
    "messages" := Field(Number, true),
    "created" := Field(Text, true),
    "status" := Field(Status, true),
    "description" := Field(Text, false),
    "email" := Field(Text, false),
    "phone" := Field(Text, false)
  ]

  /** `interface Member`. */
  const MemberSchema: Schema := map[
    "id" := Field(Text, true),
    "name" := Field(Text, true),
    "email" := Field(Text, true),
    "role" := Field(Choice({"admin", "member", "viewer"}), true),
    "organization" := Field(Text, true),
    "joinedDate" := Field(Text, true),
    "status" := Field(Status, true),
    "lastActive" := Field(Text, false)
  ]

  /** `interface Message`. */
  const MessageSchema: Schema := map[
    "id" := Field(Text, true),
    "organizationId" := Field(Text, true),
    "organizationName" := Field(Text, true),
    "sender" := Field(Text, true),
    "content" := Field(Text, true),
    "timestamp" := Field(Text, true),
    "status" := Field(Choice({"sent", "delivered", "read"}), true),
    "recipients" := Field(Number, true)
  ]

  // ---------------------------------------------------------------------------
  // Fixtures
  // ---------------------------------------------------------------------------

  function Organization(id: string, name: string, members: int, messages: int, created: string, status: string): Obj {
    map[
      "id" := Str(id), "name" := Str(name), "members" := Num(members),
      "messages" := Num(messages), "created" := Str(created), "status" := Str(status)
    ]
  }

  function Member(id: string, name: string, email: string, role: string, organization: string,
                  joinedDate: string, status: string, lastActive: string): Obj {
    map[
      "id" := Str(id), "name" := Str(name), "email" := Str(email), "role" := Str(role),
      "organization" := Str(organization), "joinedDate" := Str(joinedDate),
      "status" := Str(status), "lastActive" := Str(lastActive)
    ]
  }

  function Message(id: string, organizationId: string, organizationName: string, sender: string,
                   content: string, timestamp: string, status: string, recipients: int): Obj {
    map[
      "id" := Str(id), "organizationId" := Str(organizationId),
      "organizationName" := Str(organizationName), "sender" := Str(sender),
      "content" := Str(content), "timestamp" := Str(timestamp), "status" := Str(status),
      "recipients" := Num(recipients)
    ]
  }

  /** `mockOrganizations`. */
  const MockOrganizations: seq<Obj> := [
    Organization("ORG001", "Alpha Corporation", 45, 450, "2024-01-15", "active"),
    Organization("ORG002", "Beta Industries", 32, 380, "2024-02-20", "active"),
    Organization("ORG003", "Gamma Solutions", 28, 320, "2024-03-10", "inactive"),
    Organization("ORG004", "Delta Enterprises", 51, 280, "2024-04-05", "active"),
    Organization("ORG005", "Epsilon Group", 19, 240, "2024-05-12", "active")
  ]

  /** `mockMembers`. */
  const MockMembers: seq<Obj> := [
    Member("MEM001", "John Smith", "john@alpha.com", "admin", "Alpha Corporation", "2024-01-15", "active", "2 minutes ago"),
    Member("MEM002", "Sarah Johnson", "sarah@beta.com", "member", "Beta Industries", "2024-02-20", "active", "1 hour ago"),
    Member("MEM003", "Mike Davis", "mike@gamma.com", "viewer", "Gamma Solutions", "2024-03-10", "inactive", "3 days ago"),
    Member("MEM004", "Emily Wilson", "emily@delta.com", "admin", "Delta Enterprises", "2024-04-05", "active", "30 minutes ago"),
    Member("MEM005", "Robert Brown", "robert@epsilon.com", "member", "Epsilon Group", "2024-05-12", "active", "5 minutes ago")
  ]

  /** `mockMessages`. */
  const MockMessages: seq<Obj> := [
    Message("MSG001", "ORG001", "Alpha Corporation", "John Smith", "Q3 performance metrics update", "2024-12-20 14:30", "read", 45),
    Message("MSG002", "ORG002", "Beta Industries", "Sarah Johnson", "Team meeting scheduled for tomorrow", "2024-12-20 13:15", "delivered", 32),
    Message("MSG003", "ORG003", "Gamma Solutions", "Mike Davis", "Project deadline extension approved", "2024-12-20 11:45", "sent", 28),
    Message("MSG004", "ORG004", "Delta Enterprises", "Emily Wilson", "New client onboarding process", "2024-12-20 10:20", "read", 51),
    Message("MSG005", "ORG005", "Epsilon Group", "Robert Brown", "Budget allocation for next quarter", "2024-12-20 09:00", "delivered", 19)
  ]

  lemma OrganizationConforms(id: string, name: string, members: int, messages: int, created: string, status: string)
    requires status == "active" || status == "inactive"
    ensures Conforms(Organization(id, name, members, messages, created, status), OrganizationSchema)
  {
  }

  lemma MemberConforms(id: string, name: string, email: string, role: string, organization: string,
                       joinedDate: string, status: string, lastActive: string)
    requires role == "admin" || role == "member" || role == "viewer"
    requires status == "active" || status == "inactive"
    ensures Conforms(Member(id, name, email, role, organization, joinedDate, status, lastActive), MemberSchema)
  {
  }

  lemma MessageConforms(id: string, organizationId: string, organizationName: string, sender: string,
                        content: string, timestamp: string, status: string, recipients: int)
    requires status == "sent" || status == "delivered" || status == "read"
    ensures Conforms(Message(id, organizationId, organizationName, sender, content, timestamp, status, recipients), MessageSchema)
  {
  }

  /** Every fixture organization has the Organization shape. */
  lemma OrganizationFixturesConform()
    ensures forall i :: 0 <= i < |MockOrganizations| ==> Conforms(MockOrganizations[i], OrganizationSchema)
  {
    OrganizationConforms("ORG001", "Alpha Corporation", 45, 450, "2024-01-15", "active");
    OrganizationConforms("ORG002", "Beta Industries", 32, 380, "2024-02-20", "active");
    OrganizationConforms("ORG003", "Gamma Solutions", 28, 320, "2024-03-10", "inactive");
    OrganizationConforms("ORG004", "Delta Enterprises", 51, 280, "2024-04-05", "active");
    OrganizationConforms("ORG005", "Epsilon Group", 19, 240, "2024-05-12", "active");
  }

  /** Every fixture member has the Member shape. */
  lemma MemberFixturesConform()
    ensures forall i :: 0 <= i < |MockMembers| ==> Conforms(MockMembers[i], MemberSchema)
  {
    MemberConforms("MEM001", "John Smith", "john@alpha.com", "admin", "Alpha Corporation", "2024-01-15", "active", "2 minutes ago");
    MemberConforms("MEM002", "Sarah Johnson", "sarah@beta.com", "member", "Beta Industries", "2024-02-20", "active", "1 hour ago");
    MemberConforms("MEM003", "Mike Davis", "mike@gamma.com", "viewer", "Gamma Solutions", "2024-03-10", "inactive", "3 days ago");
    MemberConforms("MEM004", "Emily Wilson", "emily@delta.com", "admin", "Delta Enterprises", "2024-04-05", "active", "30 minutes ago");
    MemberConforms("MEM005", "Robert Brown", "robert@epsilon.com", "member", "Epsilon Group", "2024-05-12", "active", "5 minutes ago");
  }

  /** Every fixture message has the Message shape. */
  lemma MessageFixturesConform()
    ensures forall i :: 0 <= i < |MockMessages| ==> Conforms(MockMessages[i], MessageSchema)
  {
    MessageConforms("MSG001", "ORG001", "Alpha Corporation", "John Smith", "Q3 performance metrics update", "2024-12-20 14:30", "read", 45);
    MessageConforms("MSG002", "ORG002", "Beta Industries", "Sarah Johnson", "Team meeting scheduled for tomorrow", "2024-12-20 13:15", "delivered", 32);
    MessageConforms("MSG003", "ORG003", "Gamma Solutions", "Mike Davis", "Project deadline extension approved", "2024-12-20 11:45", "sent", 28);
    MessageConforms("MSG004", "ORG004", "Delta Enterprises", "Emily Wilson", "New client onboarding process", "2024-12-20 10:20", "read", 51);
    MessageConforms("MSG005", "ORG005", "Epsilon Group", "Robert Brown", "Budget allocation for next quarter", "2024-12-20 09:00", "delivered", 19);
  }
}
