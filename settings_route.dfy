/** The organization console's `/api/settings` handlers over their module-level
    settings record, keyed by organization id. */
module SettingsRoute {
  import opened Opt
  import opened Js

  /** The record starts with the settings of `org-1`. */
  const SeedSettings: map<string, Obj> := map[
    "org-1" := map[
      "name" := Str("Acme Organization"),
      "email" := Str("admin@acme.com"),
      "phone" := Str("+1-555-0123"),
      "address" := Str("123 Main St, City, State")
    ]
  ]

  /** `settings[orgId!] || {}`: the entry under the query parameter (a missing
      parameter is `null`, which becomes the key "null"), or an empty object when
      there is none. Every stored entry is an object, so it is always truthy. */
  function SettingsFor(settings: map<string, Obj>, orgId: Option<string>): Obj {
    var key := PropertyKey(SearchParam(orgId));
    if key in settings then settings[key] else map[]
  }

  /** The entry `PUT` writes: exactly the four settings fields of the body,
      each possibly `undefined`. */
  function Entry(body: Obj): (r: Obj)
    ensures r.Keys == {"name", "email", "phone", "address"}
    ensures forall k :: k in r ==> r[k] == Get(body, k)
  {
    map["name" := Get(body, "name"), "email" := Get(body, "email"),
        "phone" := Get(body, "phone"), "address" := Get(body, "address")]
  }

  /** `settings[orgId] = {...}`: the key is the body's `orgId` converted to a
      property name. */
  function Save(settings: map<string, Obj>, body: Obj): map<string, Obj>
    requires !Get(body, "orgId").Date?
  {
    settings[PropertyKey(Get(body, "orgId")) := Entry(body)]
  }

  /** After a `PUT` for an organization, a `GET` for it returns the four values
      just sent, whatever was there before. */
  lemma PutThenGet(settings: map<string, Obj>, body: Obj, orgId: string)
    requires Get(body, "orgId") == Str(orgId)
    ensures SettingsFor(Save(settings, body), Some(orgId)) == Entry(body)
    ensures forall k :: k in {"name", "email", "phone", "address"} ==>
      Get(SettingsFor(Save(settings, body), Some(orgId)), k) == Get(body, k)
  {
  }

  /** A `PUT` for one organization leaves every other organization's settings as
      they were. */
  lemma PutKeepsOthers(settings: map<string, Obj>, body: Obj, orgId: string, other: string)
    requires Get(body, "orgId") == Str(orgId)
    requires other != orgId
    ensures SettingsFor(Save(settings, body), Some(other)) == SettingsFor(settings, Some(other))
  {
    StringKeysDistinct(orgId, other);
  }

  /** A `PUT` whose body has no `orgId` files the settings under the key
      "undefined", where no `GET` with an organization id finds them. */
  lemma PutWithoutOrgId(settings: map<string, Obj>, body: Obj)
    requires "orgId" !in body
    ensures Save(settings, body) == settings["undefined" := Entry(body)]
    ensures SettingsFor(Save(settings, body), Some("undefined")) == Entry(body)
  {
  }

  /** The `PUT` reply: `{success: true}`, or an error with its status. */
  datatype PutReply = Saved | Failed(status: nat, error: string)

  /** The module-level record and its two handlers. */
  class SettingsStore {
    var settings: map<string, Obj>

    constructor ()
      ensures settings == SeedSettings
    {
      settings := SeedSettings;
    }

    /** `GET /api/settings?orgId=`. */
    method Get(orgId: Option<string>) returns (r: Obj)
      ensures r == SettingsFor(settings, orgId)
    {
      var key := PropertyKey(SearchParam(orgId));
      if key in settings {
        r := settings[key];
      } else {
        r := map[];
      }
    }

    /** `PUT /api/settings`: replace the organization's entry and reply
        `{success: true}`. `body` is None when the request body cannot be read
        as a JSON object; the handler then answers 500 and changes nothing. */
    method Put(body: Option<Obj>) returns (r: PutReply)
      requires body.Some? ==> !Js.Get(body.value, "orgId").Date?
      modifies this
      ensures body.None? ==> r == Failed(500, "Failed to update settings") && settings == old(settings)
      ensures body.Some? ==> r == Saved && settings == Save(old(settings), body.value)
    {
      if body.None? {
        return Failed(500, "Failed to update settings");
      }
      var b := body.value;
      settings := settings[PropertyKey(Js.Get(b, "orgId")) := Entry(b)];
      r := Saved;
    }
  }
}
