# Boled-System admin dashboards: a Dafny model

Boled-System has two consoles for community organizations that send
announcements and funeral notices to their members.

- The **superadmin console** (`Dashboard/`) lists organizations, members and
  messages. In demo mode its data-access layer (`organizationsApi`,
  `membersApi`, `messagesApi`) works on module-level arrays seeded from
  fixtures: it creates records with ids derived from the array length,
  merges updates into the first record with the id, and splices deletes out.
  Its list pages search and filter the loaded list and keep it in step after
  a delete or a status toggle. A fixed-credential login and a change-password
  validator complete it.
- The **organization console** (`client/`) has route handlers over
  module-level stores. Messages can be listed per organization, sent with
  defaults, and counted over a period. Members can be listed and added.
  Settings are kept per organization. A login checks a two-account table
  and issues a base64 token. Its dialogs build the send-message payload and
  validate a new member, and its table renders message titles and details.

The model follows each file's own form.

- The mock repository is the class `MockApi.Store`, with one `seq` per
  collection. `findIndex` is a loop, `MockApi.FindIndex`, proved against the
  function `MockApi.FirstIndexOf`. The write methods state their whole new
  state, and the lemmas beside them state what the source promises of
  those states.
- The route handlers are classes over their store: `MessagesStore`,
  `MembersStore` and `SettingsStore`. Their pure parts (filters, record
  builders, the period report) are functions with lemmas.
- The list pages and dialogs are classes whose fields are the component
  state. The search and filter predicates are functions.
- The validators, the logins and the message table are pure functions.

JavaScript objects are maps from property names to `Js.Value`, where a
missing property reads as `undefined`. Spreading one object over another is
map union, and `===` is value equality. Interfaces are `Entities.Schema`
values checked by `Entities.Conforms`.

The following are parameters:

- the clock (`Date.now()` and today's date string);
- the period cutoffs, with their calendar ordering as a precondition where
  it matters;
- the browser's locale formatting;
- the user's answer to `confirm`;
- the message of an error raised while reading a request body.

A request body that cannot be read as a JSON object is `None`, which leads
each handler to its 500 reply.

The organization console's message `POST` spreads the body last
(client/app/api/messages/route.ts:30-37), so a body `id`, `sentAt` or
`recipientCount` overrides the generated one. In the superadmin store's
`create` the generated `id` comes after the spread and always wins. The model
follows the code (`MessagesRoute.NewMessageFields`,
`MockApi.NewOrganizationFields`).

## Model

| member | source | states |
|---|---|---|
| Js.Spread | Dashboard/lib/api-client.ts:84 | `{...base, ...over}` has the keys of both; the properties of `over` win and the others keep `base`'s values |
| Js.StringKeysDistinct | client/app/api/settings/route.ts:24 | distinct string ids are distinct property keys, so writing one settings entry never touches another |
| Text.ToLowerIdempotent | Dashboard/app/dashboard/organizations/page.tsx:61-67 | lower-casing twice is lower-casing once, so the case-insensitive search is stable |
| Text.IncludesIff | Dashboard/app/dashboard/organizations/page.tsx:61-67 | the left-to-right `includes` search succeeds exactly when the needle occurs at some position (both directions) |
| Text.IncludesEmpty | Dashboard/app/dashboard/organizations/page.tsx:61-67 | every string includes the empty search term |
| Text.TrimEmptyIff | client/components/dashboard/add-member-dialog.tsx:22 | `trim()` gives the empty string exactly when every character is ECMAScript white space or a line terminator |
| Text.NatToStringRoundTrip | client/app/api/messages/route.ts:30-37 | the decimal rendering of a timestamp is a non-empty digit string that reads back as the same number |
| Text.PaddedRoundTrip | Dashboard/lib/api-client.ts:66 | `padStart(3, "0")` of a decimal rendering is at least three digits long and still reads back as the same number |
| Text.Utf16Length | Dashboard/app/api/auth/change-password/route.ts:19 | a string's `.length` lies between its number of characters and twice that number |
| Entities.SpreadConforms | Dashboard/lib/api-client.ts:80-94 | merging a well-typed `Partial<T>` patch into a well-formed record keeps the interface's shape |
| Entities.CompletesOmitted | Dashboard/lib/api-client.ts:62-77 | `Omit<T, K>` data plus well-typed values for the omitted keys is a well-formed `T` |
| Entities.OrganizationFixturesConform | Dashboard/lib/mock-data.ts:3-9 | every fixture organization has the `Organization` shape of Dashboard/lib/types.ts |
| Entities.MemberFixturesConform | Dashboard/lib/mock-data.ts:11-62 | every fixture member has the `Member` shape |
| Entities.MessageFixturesConform | Dashboard/lib/mock-data.ts:64-115 | every fixture message has the `Message` shape |
| MockApi.SequenceIdDecodes | Dashboard/lib/api-client.ts:66 | a generated id is the prefix followed by at least three digits that read back as the counter |
| MockApi.SequenceIdInjective | Dashboard/lib/api-client.ts:137 | different counters give different ids |
| MockApi.FirstIndexOf | Dashboard/lib/api-client.ts:82 | the result is -1 exactly when no record has the id; otherwise that record has the id and no earlier one does |
| MockApi.FindIndex | Dashboard/lib/api-client.ts:82 | the front-to-back scan returns `FirstIndexOf` |
| MockApi.FindById | Dashboard/lib/api-client.ts:53-59 | `find(...) \|\| null` is None exactly when no record has the id; otherwise it is the first stored record with the id: no earlier record has it |
| MockApi.MessagesOfOrganizationExact | Dashboard/lib/api-client.ts:193-199 | the result is exactly the stored messages with that `organizationId`, as an order-preserving subsequence |
| MockApi.MembersOfExistingOrganization | Dashboard/lib/api-client.ts:123-130 | for an existing organization the result is exactly the members whose `organization` equals the first such organization's name, in order |
| MockApi.MembersOfMissingOrganization | Dashboard/lib/api-client.ts:125-126 | with no organization of that id, conforming members (which all carry an organization name) give an empty list |
| MockApi.MemberWithoutOrganizationMatchesMissing | Dashboard/lib/api-client.ts:125-126 | a member without an `organization` property matches every unknown organization id, because both sides are `undefined` |
| MockApi.NewOrganizationFields | Dashboard/lib/api-client.ts:64-67 | the new organization has the generated `ORGnnn` id and today's date whatever the data says, and every other data property unchanged |
| MockApi.NewMemberFields | Dashboard/lib/api-client.ts:135-138 | the new member has the generated `MEMnnn` id whatever the data says, and every other data property unchanged |
| MockApi.NewOrganizationConforms | Dashboard/lib/api-client.ts:62-77 | `Omit<Organization, "id" \| "created">` data becomes a well-formed Organization |
| MockApi.NewMemberConforms | Dashboard/lib/api-client.ts:133-147 | `Omit<Member, "id">` data becomes a well-formed Member |
| MockApi.UpdateConforms | Dashboard/lib/api-client.ts:80-94 | an update with a well-typed partial patch keeps the record well-formed |
| MockApi.UndefinedPatchErasesStatus | Dashboard/lib/api-client.ts:84 | a patch `{status: undefined}`, which `Partial<Organization>` admits, leaves an organization that no longer has the interface's shape |
| MockApi.SequentialNextIdFresh | Dashboard/lib/api-client.ts:66 | while the ids are prefix001, prefix002, ... in order, the next generated id is held by no record |
| MockApi.CreateOrganizationKeepsSequential | Dashboard/lib/api-client.ts:62-77 | creating an organization keeps the ids sequential, so the next id is fresh again |
| MockApi.CreateMemberKeepsSequential | Dashboard/lib/api-client.ts:133-147 | creating a member keeps the ids sequential |
| MockApi.DeleteThenCreateCollides | Dashboard/lib/api-client.ts:62-108 | after deleting any record but the last, the id the next create generates is already held by the last record |
| MockApi.OrganizationFixtureIdsSequential | Dashboard/lib/mock-data.ts:4-8 | the fixture organization ids are ORG001 to ORG005 in order |
| MockApi.MemberFixtureIdsSequential | Dashboard/lib/mock-data.ts:11-62 | the fixture member ids are MEM001 to MEM005 in order |
| MockApi.FixtureCollision | Dashboard/lib/api-client.ts:62-108 | on the fixtures, deleting ORG002 and then creating an organization yields ORG005, which Epsilon Group already holds |
| MockApi.UpdateChangesOnlyFirstMatch | Dashboard/lib/api-client.ts:80-86 | an update on a present id changes only the first match: same length, other records equal, patch fields set, absent fields kept |
| MockApi.DeleteRemovesFirstMatch | Dashboard/lib/api-client.ts:97-102 | a delete on a present id removes exactly the first match: one fewer record, the rest in their order |
| MockApi.DeleteUniqueIdGone | Dashboard/lib/api-client.ts:99-102 | with unique ids, no record with the id is left after a delete |
| MockApi.Store.constructor | Dashboard/lib/api-client.ts:1-10 | the three arrays start as the fixtures |
| MockApi.Store.GetAllOrganizations | Dashboard/lib/api-client.ts:44-50 | returns the stored organizations |
| MockApi.Store.GetOrganizationById | Dashboard/lib/api-client.ts:53-59 | returns `FindById`: the first organization with the id, or none |
| MockApi.Store.CreateOrganization | Dashboard/lib/api-client.ts:62-77 | appends exactly the new organization (`NewOrganizationFields`) and returns it; the other collections are unchanged |
| MockApi.Store.UpdateOrganization | Dashboard/lib/api-client.ts:80-94 | an absent id gives null and no change; otherwise the first match becomes the merge with the patch, which is returned; nothing else changes |
| MockApi.Store.DeleteOrganization | Dashboard/lib/api-client.ts:97-108 | returns whether the id was present and removes its first match only; nothing else changes |
| MockApi.Store.GetAllMembers | Dashboard/lib/api-client.ts:114-120 | returns the stored members |
| MockApi.Store.GetMembersByOrganization | Dashboard/lib/api-client.ts:123-130 | returns the members named after the organization with that id (see `MembersOfExistingOrganization`) |
| MockApi.Store.CreateMember | Dashboard/lib/api-client.ts:133-147 | appends exactly the new member (`NewMemberFields`) and returns it; the other collections are unchanged |
| MockApi.Store.UpdateMember | Dashboard/lib/api-client.ts:150-164 | as for organizations: null and no change, or the first match merged and returned |
| MockApi.Store.DeleteMember | Dashboard/lib/api-client.ts:167-178 | returns whether the id was present and removes its first match only |
| MockApi.Store.GetAllMessages | Dashboard/lib/api-client.ts:184-190 | returns the stored messages |
| MockApi.Store.GetMessagesByOrganization | Dashboard/lib/api-client.ts:193-199 | returns the organization's messages (see `MessagesOfOrganizationExact`) |
| MockApi.Store.DeleteMessage | Dashboard/lib/api-client.ts:202-213 | returns whether the id was present and removes its first match only |
| ListPage.MatchesSearch | Dashboard/app/dashboard/organizations/page.tsx:61-67 | a row matches exactly when some searched property, lower-cased, includes the lower-cased term |
| ListPage.SearchIff | Dashboard/app/dashboard/members/page.tsx:61-68 | a row matches exactly when the lower-cased term occurs at some position of some lower-cased searched property |
| ListPage.SearchIgnoresCase | Dashboard/app/dashboard/organizations/page.tsx:61-67 | a term and its lower-cased form select the same rows |
| ListPage.EmptySearchShowsAll | Dashboard/app/dashboard/organizations/page.tsx:61-67 | an empty term with "all" shows every row, in order |
| ListPage.VisibleRowsExact | Dashboard/app/dashboard/members/page.tsx:61-68 | the table shows exactly the rows passing both filters, as an order-preserving subsequence of the list |
| ListPage.StatusViewsPartition | Dashboard/app/dashboard/organizations/page.tsx:61-67 | when every row is active or inactive, the "active" and "inactive" views add up to the "all" view |
| ListPage.ReplaceById | Dashboard/app/dashboard/organizations/page.tsx:53-55 | the mapped list has the same length; every row carrying the id becomes the updated record and every other row is unchanged, whatever the ids |
| ListPage.ToggledStatus | Dashboard/app/dashboard/organizations/page.tsx:48 | the requested status is "inactive" exactly for an active row and "active" otherwise |
| ListPage.ToggleTwice | Dashboard/app/dashboard/members/page.tsx:48 | toggling an active or inactive status twice gives back the original status |
| ListPage.DeleteInSync | Dashboard/app/dashboard/organizations/page.tsx:36-45 | with unique ids, the page's list after a delete equals the store's: the one record removed, or nothing when the id is absent |
| ListPage.DeleteWithDuplicatesDiverges | Dashboard/app/dashboard/organizations/page.tsx:39-40 | with a repeated id the page drops every copy and the store only the first, so the page shows fewer records than the store holds |
| ListPage.AliasedDeleteSame | Dashboard/app/dashboard/members/page.tsx:39-40 | filtering the very array the store has just spliced gives the same list as filtering it before the splice |
| ListPage.UpdateInSync | Dashboard/app/dashboard/organizations/page.tsx:52-55 | with unique ids, the page's list after a toggle equals the store's: the record replaced at its own position only |
| ListPage.UpdateWithDuplicatesDiverges | Dashboard/app/dashboard/members/page.tsx:52-54 | with a repeated id the page replaces every copy while the store updates only the first |
| ListPage.AliasedUpdateSame | Dashboard/app/dashboard/organizations/page.tsx:52-55 | mapping over the array the store has just written into gives the same list as mapping over it before |
| OrganizationsPage.Page.constructor | Dashboard/app/dashboard/organizations/page.tsx:16-19 | the page starts empty, loading, with no search and the "all" filter |
| OrganizationsPage.Page.Load | Dashboard/app/dashboard/organizations/page.tsx:21-34 | the list becomes the store's organizations and loading ends; the filters are kept |
| OrganizationsPage.Page.HandleDelete | Dashboard/app/dashboard/organizations/page.tsx:36-45 | unconfirmed: nothing changes; confirmed: the store removes the first match and the page every row with the id |
| OrganizationsPage.Page.HandleToggleStatus | Dashboard/app/dashboard/organizations/page.tsx:47-59 | unknown id: nothing changes; otherwise the store merges the flipped status into the first match and the page puts that record in place of every row with the id |
| OrganizationsPage.ToggleKeepsShape | Dashboard/app/dashboard/organizations/page.tsx:47-55 | a toggled conforming organization still conforms and its status differs from before |
| OrganizationsPage.StatusViewsSplit | Dashboard/app/dashboard/organizations/page.tsx:61-67 | for conforming organizations, the "active" and "inactive" views split the "all" view |
| OrganizationsPage.FixtureShowsAll | Dashboard/app/dashboard/organizations/page.tsx:61-67 | on the fixtures, an empty search with "all" shows all five organizations |
| MembersPage.Page.constructor | Dashboard/app/dashboard/members/page.tsx:16-19 | the page starts empty, loading, with no search and the "all" filter |
| MembersPage.Page.Load | Dashboard/app/dashboard/members/page.tsx:21-34 | the list becomes the store's members and loading ends; the filters are kept |
| MembersPage.Page.HandleDelete | Dashboard/app/dashboard/members/page.tsx:36-45 | unconfirmed: nothing changes; confirmed: the store removes the first match and the page every row with the id |
| MembersPage.Page.HandleToggleStatus | Dashboard/app/dashboard/members/page.tsx:47-59 | unknown id: nothing changes; otherwise the store merges the flipped status into the first match and the page puts that record in place of every row with the id |
| MembersPage.ToggleKeepsShape | Dashboard/app/dashboard/members/page.tsx:47-55 | a toggled conforming member still conforms and its status differs from before |
| MembersPage.StatusViewsSplit | Dashboard/app/dashboard/members/page.tsx:61-68 | for conforming members, the "active" and "inactive" views split the "all" view |
| MembersPage.FixtureShowsAll | Dashboard/app/dashboard/members/page.tsx:61-68 | on the fixtures, an empty search with "all" shows all five members |
| MessagesPage.SearchIff | Dashboard/app/dashboard/messages/page.tsx:52-58 | a row matches exactly when the lower-cased term occurs in its lower-cased id or organization |
| MessagesPage.FilteredExact | Dashboard/app/dashboard/messages/page.tsx:52-58 | a row is shown exactly when it passes both filters, and the shown rows keep their order |
| MessagesPage.EmptySearchShowsAll | Dashboard/app/dashboard/messages/page.tsx:52-58 | an empty term with "all" shows every row |
| MessagesPage.CapitalFilterShowsNothing | Dashboard/app/dashboard/messages/page.tsx:56 | a type filter holding a capital letter never equals a lower-cased type, so it shows nothing |
| MessagesPage.KindsAreOptions | Dashboard/app/dashboard/messages/page.tsx:12-46 | every row's type lower-cases to "funeral" or "announcement" |
| MessagesPage.TypeViewsSplit | Dashboard/app/dashboard/messages/page.tsx:52-58 | when every type lower-cases to one of the two options, the "funeral" and "announcement" views split the "all" view |
| MessagesPage.TypeViewsPartition | Dashboard/app/dashboard/messages/page.tsx:12-58 | the page's own five rows split that way |
| MessagesPage.FuneralRows | Dashboard/app/dashboard/messages/page.tsx:12-46 | with no search, MSG001, MSG003 and MSG005 pass the "funeral" filter and MSG002 and MSG004 do not |
| MessagesPage.FuneralView | Dashboard/app/dashboard/messages/page.tsx:12-58 | the "funeral" view with no search is exactly MSG001, MSG003, MSG005, in that order |
| MessagesRoute.OrgMessagesExact | client/app/api/messages/route.ts:17-23 | `GET` returns exactly the messages whose `orgId` equals the query value, as an order-preserving subsequence |
| MessagesRoute.MissingOrgIdFindsNothing | client/app/api/messages/route.ts:17-23 | without an `orgId` parameter the comparison is with `null`, and no message with a string `orgId` is returned |
| MessagesRoute.NewMessageFields | client/app/api/messages/route.ts:28-37 | `type` and `orgId` come from the body; every other body property overrides the defaults; missing ones get `msg-<now>`, now and 2 |
| MessagesRoute.SameMillisecondSameId | client/app/api/messages/route.ts:30-37 | two messages sent in the same millisecond without their own id get the same id |
| MessagesRoute.ReportExact | client/app/api/messages/route.ts:46-73 | the count equals the number of returned messages, which are exactly the organization's messages sent at or after the cutoff, in stored order |
| MessagesRoute.EarlierCutoffCountsMore | client/app/api/messages/route.ts:66 | an earlier cutoff never counts fewer messages |
| MessagesRoute.PeriodCountsMonotone | client/app/api/messages/route.ts:53-64 | with ordered cutoffs the counts grow: 1day, then 7days, then month, then year |
| MessagesRoute.UnknownPeriodCountsFromNow | client/app/api/messages/route.ts:53-64 | a missing or unrecognised period counts only messages sent at or after now |
| MessagesRoute.MessagesStore.constructor | client/app/api/messages/route.ts:3-15 | the store starts with the one seed message |
| MessagesRoute.MessagesStore.Get | client/app/api/messages/route.ts:17-23 | returns the organization's messages (see `OrgMessagesExact`) |
| MessagesRoute.MessagesStore.Post | client/app/api/messages/route.ts:25-44 | an unreadable body gives 500 and no change; otherwise exactly the new message is appended and returned |
| MessagesRoute.MessagesStore.Put | client/app/api/messages/route.ts:46-73 | returns the period report (see `ReportExact`) and changes nothing |
| MembersRoute.OrgMembersExact | client/app/api/members/route.ts:25-31 | `GET` returns exactly the members whose `orgId` equals the query value, as an order-preserving subsequence |
| MembersRoute.SeedListing | client/app/api/members/route.ts:4-31 | org-1 lists both seed members and any other organization none |
| MembersRoute.NewMember | client/app/api/members/route.ts:37-45 | the new member has exactly seven properties: id `member-<now>`, `name`, `phone` and `orgId` from the body, role "user", status "active" and joined now |
| MembersRoute.NewMemberIgnoresExtras | client/app/api/members/route.ts:35-45 | bodies that agree on `name`, `phone` and `orgId` give the same member, so a caller cannot choose its role, status or id |
| MembersRoute.AddedMemberListed | client/app/api/members/route.ts:47 | a member added for an organization appears at the end of that organization's listing |
| MembersRoute.MembersStore.constructor | client/app/api/members/route.ts:4-23 | the store starts with the two seed members |
| MembersRoute.MembersStore.Get | client/app/api/members/route.ts:25-31 | returns the organization's members (see `OrgMembersExact`) |
| MembersRoute.MembersStore.Post | client/app/api/members/route.ts:33-52 | an unreadable body gives 500 and no change; otherwise exactly the new member is appended and returned |
| SettingsRoute.Entry | client/app/api/settings/route.ts:22-24 | the stored entry has exactly the keys name, email, phone and address, each the body's value; other properties are dropped |
| SettingsRoute.PutThenGet | client/app/api/settings/route.ts:13-29 | after a `PUT` for an organization, a `GET` for it returns the four values just sent |
| SettingsRoute.PutKeepsOthers | client/app/api/settings/route.ts:24 | a `PUT` leaves every other organization's settings unchanged |
| SettingsRoute.PutWithoutOrgId | client/app/api/settings/route.ts:22-24 | a body without `orgId` files its settings under the key "undefined" |
| SettingsRoute.SettingsStore.constructor | client/app/api/settings/route.ts:4-11 | the record starts with org-1's settings |
| SettingsRoute.SettingsStore.Get | client/app/api/settings/route.ts:13-18 | returns the organization's entry, or an empty object when there is none |
| SettingsRoute.SettingsStore.Put | client/app/api/settings/route.ts:20-29 | an unreadable body gives 500 and no change; otherwise the organization's entry is replaced and the reply is success |
| Base64.SextetRoundTrip | client/app/api/auth/login/route.ts:30 | each 6-bit value has its own alphabet character, which decodes back to it |
| Base64.Encode | client/app/api/auth/login/route.ts:30 | the encoding is four characters per started group of three bytes |
| Base64.DecodeEncode | client/app/api/auth/login/route.ts:30 | decoding the encoding gives back exactly the bytes (RFC 4648, section 4) |
| Base64.EncodeInjective | client/app/api/auth/login/route.ts:30 | different byte strings encode differently |
| ClientLogin.Find | client/app/api/auth/login/route.ts:23 | none exactly when no account matches both email and password; otherwise the first matching account |
| ClientLogin.AsciiBytes | client/app/api/auth/login/route.ts:30 | ASCII text has one byte per character |
| ClientLogin.AsciiBytesInjective | client/app/api/auth/login/route.ts:30 | different ASCII texts have different bytes |
| ClientLogin.TokenDecodes | client/app/api/auth/login/route.ts:30 | the token decodes to the bytes of `<orgId>:<now>` |
| ClientLogin.TokenIdentifies | client/app/api/auth/login/route.ts:30 | two tokens are equal only for the same organization in the same millisecond |
| ClientLogin.LoginIff | client/app/api/auth/login/route.ts:19-40 | a readable body is accepted exactly when some account matches; the reply names the first matching account (no earlier account matches) and carries its token; otherwise 401 "Invalid credentials" |
| ClientLogin.KnownAccounts | client/app/api/auth/login/route.ts:4-17 | the two built-in credentials log in as org-1 and as Tech Corp |
| ClientLogin.WrongPasswordRejected | client/app/api/auth/login/route.ts:25-27 | any password other than the string "password123" is refused with 401 |
| AdminLogin.LoginIff | Dashboard/app/api/auth/login/route.ts:13-36 | a readable body logs in exactly when it carries the demo email and password as strings; otherwise 401 "Invalid email or password" with no data |
| AdminLogin.TokenCarriesTime | Dashboard/app/api/auth/login/route.ts:14-27 | a successful login returns ADMIN001 as superadmin with a token that starts with "demo-token-" and reads back as the login time |
| AdminLogin.TokensDiffer | Dashboard/app/api/auth/login/route.ts:22 | logins at different instants get different tokens |
| ChangePassword.StringPasswordIff | Dashboard/app/api/auth/change-password/route.ts:9-41 | a string password succeeds exactly when it equals its confirmation and is at least 8 code units long; a mismatch is reported first, then the length |
| ChangePassword.CurrentPasswordIgnored | Dashboard/app/api/auth/change-password/route.ts:6 | the current password never changes the reply |
| ChangePassword.MissingPasswordsThrow | Dashboard/app/api/auth/change-password/route.ts:9-50 | a body without both new passwords passes the equality check and ends in a 500, not a validation error |
| ChangePassword.NumericPasswordAccepted | Dashboard/app/api/auth/change-password/route.ts:19 | a numeric password equal to its confirmation is accepted whatever its value |
| ChangePassword.BmpLength | Dashboard/app/api/auth/change-password/route.ts:19 | for characters of the Basic Multilingual Plane, `.length` counts characters |
| ChangePassword.LengthBoundary | Dashboard/app/api/auth/change-password/route.ts:19-27 | "1234567" is refused with 400 and "12345678" accepted |
| MessagesTable.OrElse | client/components/dashboard/messages-table.tsx:28-35 | `v \|\| fallback` is the value when it is present and non-empty, and the fallback otherwise |
| MessagesTable.TitleNeverEmpty | client/components/dashboard/messages-table.tsx:28-35 | every message gets a non-empty title |
| MessagesTable.TitleSource | client/components/dashboard/messages-table.tsx:28-35 | a non-funeral shows its own non-empty title; a funeral notice ignores its title and shows "Funeral Notice - " and its place |
| MessagesTable.BadgeIff | client/components/dashboard/messages-table.tsx:82 | the badge says Announcement exactly for announcements; every other type is badged as a funeral |
| MessagesTable.DetailsEmptyIff | client/components/dashboard/messages-table.tsx:37-44 | the details line is empty exactly for messages that are neither announcements nor funeral notices |
| MessagesTable.DeathTypeLabel | client/components/dashboard/messages-table.tsx:41 | funeral details end with "New" for the death type "new" and with "Anniversary" for any other or a missing one |
| MessagesTable.RenderRows | client/components/dashboard/messages-table.tsx:24-90 | loading shows the placeholder; an empty list the empty row; otherwise one row per message, in order, with its title and badge |
| SendMessageForm.Form.constructor | client/components/dashboard/send-message-dialog.tsx:19-29 | a new dialog is an announcement with both drafts empty and death type "new" |
| SendMessageForm.Form.HandleSubmit | client/components/dashboard/send-message-dialog.tsx:31-63 | sends the payload of the chosen type and clears that type's draft only; the other draft and the type stay |
| SendMessageForm.Form.ResetForm | client/components/dashboard/send-message-dialog.tsx:65-74 | both drafts are cleared and the type kept |
| SendMessageForm.Form.OnOpenChange | client/components/dashboard/send-message-dialog.tsx:79-82 | closing clears both drafts; opening changes nothing; the new state is passed on |
| SendMessageForm.PayloadKeys | client/components/dashboard/send-message-dialog.tsx:34-59 | an announcement sends exactly type, title, place, time and content; a funeral type, place, address, deathType and content; any other type only its type |
| AddMemberForm.Form.constructor | client/components/dashboard/add-member-dialog.tsx:17-18 | both fields start empty |
| AddMemberForm.Form.HandleSubmit | client/components/dashboard/add-member-dialog.tsx:20-29 | submits exactly when neither field is all white space, passing both as typed and clearing them; a refused submit keeps them |
| AddMemberForm.SpacesKept | client/components/dashboard/add-member-dialog.tsx:22-28 | " Ann " is accepted with its spaces, and a field of spaces, tab and newline is blank |

## Left out

- The `fetch`-based `apiCall` helper and every non-mock branch of the data-access layer (Dashboard/lib/api-client.ts:17-39): network I/O.
- `analyticsApi`, `authApi` and `profileApi` (Dashboard/lib/api-client.ts:217-291): network calls, or constants in demo mode.
- The analytics, profile, logout and dashboard-statistics routes, the login form and the auth context: constants, `localStorage` and routing.
- Calendar arithmetic for the period cutoffs (client/app/api/messages/route.ts:56-64): the cutoffs are parameters, with their ordering as a precondition where it matters. `now` and the starting `startDate` are taken to be the same instant.
- `MessagesRoute.NewMessage` and `MembersRoute.NewMember`: the `Date.now()` of the id and the `new Date()` of `sentAt` or `joinedAt` are two clock reads in the source; the model uses one `now` for both, so it does not capture a millisecond tick between them.
- `MessagesRoute.SentAt`: a string `sentAt` would be parsed as a date; the model gives no time for it, so such a message is never counted. A number beyond the `Date` range (magnitude over 8.64e15 ms) is an invalid date that never compares as later in the source; the model still counts it when it is at or after the cutoff.
- `Date` values compare by their time, as strict equality; two distinct `Date` objects with the same time would differ under `===`.
- Locale formatting (`toLocaleString`, `toLocaleDateString`) and today's date string: parameters.
- `Text.ToLower`: folds ASCII letters only, not the full Unicode case mapping of `toLowerCase`.
- `ListPage.TextOf`: a searched property that is not a string counts as "", where the source would throw on `.toLowerCase()`.
- `ClientLogin.Token`: requires an ASCII organization id, because UTF-8 for other characters is not modelled; both built-in ids are ASCII.
- Numbers are integers: fractional values, NaN, infinities and negative zero in JSON bodies and stored records are not modelled, so their truthiness, their string form as property keys and their use as times or passwords are not covered.
- Request bodies that are valid JSON but not objects, and nested values inside bodies: a body is an object of flat values or unreadable.
- `SettingsRoute`: inherited object properties such as `__proto__` or `toString` as organization ids are not modelled; the record is a plain map.
- React rendering, the browser's `required` field validation, `confirm` (a boolean parameter) and `alert`.
- The `onOpenChange` callback of `SendMessageForm.Form.OnOpenChange`: its argument is returned instead of being passed to a parent.
- Async ordering and concurrency between handlers and widgets: each operation runs to completion.
