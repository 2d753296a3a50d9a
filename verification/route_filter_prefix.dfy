/** DirectConnect `RouteFilterPrefix`: one presence-flagged string field read from and written to
    a JSON object under the key "cidr". */
module DirectConnectModel {
  import opened Wrappers
  import Json

  /** `cidr` is `None` exactly when its "has been set" flag is false. */
  datatype RouteFilterPrefix = RouteFilterPrefix(cidr: Option<string>)

  /** `RouteFilterPrefix()`: the flag is false. */
  function NewPrefix(): (p: RouteFilterPrefix)
    ensures p.cidr.None?
  {
    RouteFilterPrefix(None)
  }

  /** `operator=(JsonValue)`: the field is replaced and flagged only when the key exists; otherwise
      the prefix is unchanged. */
  function Assign(p: RouteFilterPrefix, json: Json.JsonValue): (r: RouteFilterPrefix)
    ensures Json.ValueExists(json, "cidr") ==> r.cidr == Some(Json.GetString(json, "cidr"))
    ensures !Json.ValueExists(json, "cidr") ==> r == p
  {
    if Json.ValueExists(json, "cidr") then RouteFilterPrefix(Some(Json.GetString(json, "cidr"))) else p
  }

  /** `RouteFilterPrefix(JsonValue)`: assignment into a fresh prefix. */
  function FromJson(json: Json.JsonValue): (p: RouteFilterPrefix)
    ensures p.cidr.Some? <==> Json.ValueExists(json, "cidr")
  {
    Assign(NewPrefix(), json)
  }

  /** `Jsonize`: an object with the "cidr" key exactly when the flag is set. */
  function Jsonize(p: RouteFilterPrefix): (json: Json.JsonValue)
    ensures json.JObject?
    ensures Json.ValueExists(json, "cidr") <==> p.cidr.Some?
    ensures p.cidr.Some? ==> Json.GetString(json, "cidr") == p.cidr.value
    ensures p.cidr.None? ==> json == Json.EmptyObject
  {
    if p.cidr.Some? then Json.WithString(Json.EmptyObject, "cidr", p.cidr.value) else Json.EmptyObject
  }

  /** Round trip: reading back what `Jsonize` wrote gives the same field and flag. */
  lemma JsonRoundTrip(p: RouteFilterPrefix)
    ensures FromJson(Jsonize(p)) == p
  {
  }

  /** Round trip the other way: writing out a prefix read from an object whose "cidr" is a string
      (or absent) gives back exactly that key and value, and no other key. */
  lemma ObjectRoundTrip(json: Json.JsonValue)
    requires json.JObject?
    requires Json.ValueExists(json, "cidr") ==> json.fields["cidr"].JString?
    ensures Jsonize(FromJson(json)) == Json.JObject(if "cidr" in json.fields then map["cidr" := json.fields["cidr"]] else map[])
  {
    if "cidr" in json.fields {
      assert map[]["cidr" := json.fields["cidr"]] == map["cidr" := json.fields["cidr"]];
    }
  }

  /** Assigning the same object twice is the same as assigning it once. */
  lemma AssignIdempotent(p: RouteFilterPrefix, json: Json.JsonValue)
    ensures Assign(Assign(p, json), json) == Assign(p, json)
  {
  }
}
