/** DeviceFarm `OfferingTypeMapper`: the one known name maps to a fixed enum value; any other name
    is hashed, remembered in the enum overflow registry, and returned as the enum value equal to its
    hash, so that the reverse lookup can give the original name back. */
module DeviceFarmModel {
  import opened Wrappers

  /** An `OfferingType` value, identified with its underlying integer (the cast in the source makes
      any integer a value of the enum). */
  type OfferingType = int

  /** Enumerator values in declaration order. */
  const NOT_SET: OfferingType := 0
  const RECURRING: OfferingType := 1

  /** `HashingUtils::HashString`, defined outside this model. */
  type Hash = string -> int

  function RecurringHash(hash: Hash): int {
    hash("RECURRING")
  }

  /** The process-wide overflow registry: absent (`None`), or a map from hash to stored name. */
  type Registry = Option<map<int, string>>

  /** `EnumParseOverflowContainer::RetrieveOverflow`: the stored name, or "" when none is stored. */
  function RetrieveOverflow(store: map<int, string>, code: int): (r: string)
    ensures code in store ==> r == store[code]
    ensures code !in store ==> r == ""
  {
    if code in store then store[code] else ""
  }

  /** `GetOfferingTypeForName`: the value for `name` and the registry after the call. */
  function GetOfferingTypeForName(registry: Registry, hash: Hash, name: string): (r: (OfferingType, Registry))
    ensures hash(name) == RecurringHash(hash) ==> r == (RECURRING, registry)
    ensures hash(name) != RecurringHash(hash) && registry.Some? ==>
      r.0 == hash(name) && r.1 == Some(registry.value[hash(name) := name])
    ensures hash(name) != RecurringHash(hash) && registry.None? ==> r == (NOT_SET, None)
  {
    var hashCode := hash(name);
    if hashCode == RecurringHash(hash) then (RECURRING, registry)
    else if registry.Some? then (hashCode, Some(registry.value[hashCode := name]))
    else (NOT_SET, registry)
  }

  /** `GetNameForOfferingType`. */
  function GetNameForOfferingType(registry: Registry, value: OfferingType): (r: string)
    ensures value == RECURRING ==> r == "RECURRING"
    ensures value != RECURRING && registry.Some? ==> r == RetrieveOverflow(registry.value, value)
    ensures value != RECURRING && registry.None? ==> r == ""
  {
    if value == RECURRING then "RECURRING"
    else if registry.Some? then RetrieveOverflow(registry.value, value)
    else ""
  }

  /** The registry is only ever extended: a lookup changes at most the entry for the name's own hash,
      and never creates or removes the registry. */
  lemma RegistryOnlyGrows(registry: Registry, hash: Hash, name: string)
    ensures GetOfferingTypeForName(registry, hash, name).1.Some? <==> registry.Some?
    ensures registry.Some? ==>
      var after := GetOfferingTypeForName(registry, hash, name).1.value;
      registry.value.Keys <= after.Keys &&
      forall code :: code in registry.value && code != hash(name) ==> after[code] == registry.value[code]
  {
  }

  /** Round trip: with a registry present, a name whose hash neither equals the hash of "RECURRING"
      nor the numeric value of `RECURRING` maps to a value that maps back to the same name. */
  lemma NameRoundTrip(registry: Registry, hash: Hash, name: string)
    requires registry.Some?
    requires hash(name) != RecurringHash(hash) && hash(name) != RECURRING
    ensures
      var (value, after) := GetOfferingTypeForName(registry, hash, name);
      GetNameForOfferingType(after, value) == name
  {
  }

  /** Without the second condition the round trip fails: a name whose hash happens to equal the
      numeric value of `RECURRING` comes back as "RECURRING". */
  lemma HashEqualToRecurringValueBreaksRoundTrip(registry: Registry, hash: Hash, name: string)
    requires hash(name) != RecurringHash(hash) && hash(name) == RECURRING
    ensures
      var (value, after) := GetOfferingTypeForName(registry, hash, name);
      GetNameForOfferingType(after, value) == (if registry.Some? then "RECURRING" else "")
  {
  }

  /** The known name needs no registry in either direction. */
  lemma KnownNameRoundTrip(registry: Registry, hash: Hash)
    ensures
      var (value, after) := GetOfferingTypeForName(registry, hash, "RECURRING");
      value == RECURRING && after == registry && GetNameForOfferingType(after, value) == "RECURRING"
  {
  }

  /** The registry after resolving `names` one after another. */
  function ResolveAll(registry: Registry, hash: Hash, names: seq<string>): (r: Registry)
    ensures r.Some? <==> registry.Some?
    decreases |names|
  {
    if names == [] then registry
    else ResolveAll(GetOfferingTypeForName(registry, hash, names[0]).1, hash, names[1..])
  }

  /** A later lookup of a name with a different hash does not disturb an earlier name's entry. */
  lemma {:induction false} ResolveAllKeepsEntry(registry: Registry, hash: Hash, names: seq<string>, code: int)
    requires registry.Some? && code in registry.value
    requires forall j :: 0 <= j < |names| ==> hash(names[j]) != code
    ensures ResolveAll(registry, hash, names).Some?
    ensures code in ResolveAll(registry, hash, names).value
    ensures ResolveAll(registry, hash, names).value[code] == registry.value[code]
    decreases |names|
  {
    if names != [] {
      var next := GetOfferingTypeForName(registry, hash, names[0]).1;
      RegistryOnlyGrows(registry, hash, names[0]);
      ResolveAllKeepsEntry(next, hash, names[1..], code);
    }
  }

  /** Round trip across many lookups: after resolving `names` in order, the value returned for
      `names[i]` still maps back to `names[i]`, provided no later name shares its hash. */
  lemma {:induction false} ResolveAllRoundTrip(registry: Registry, hash: Hash, names: seq<string>, i: nat)
    requires registry.Some? && i < |names|
    requires hash(names[i]) != RecurringHash(hash) && hash(names[i]) != RECURRING
    requires forall j :: i < j < |names| ==> hash(names[j]) != hash(names[i])
    ensures GetNameForOfferingType(ResolveAll(registry, hash, names), hash(names[i])) == names[i]
    decreases |names|
  {
    var next := GetOfferingTypeForName(registry, hash, names[0]).1;
    if i == 0 {
      ResolveAllKeepsEntry(next, hash, names[1..], hash(names[0]));
    } else {
      ResolveAllRoundTrip(next, hash, names[1..], i - 1);
    }
  }
}
