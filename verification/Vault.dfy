/** The key vault behind the secret client, reduced to what the plugin observes:
    whether calls succeed, which names the listing yields, and each secret's value. */
module Vault {
  import opened Js

  /** `reachable` false makes every call throw; a listed name that is missing from
      `values` makes its `getSecret` call throw; a `None` value is a secret whose
      `value` property is undefined. */
  datatype Vault = Vault(reachable: bool, listed: seq<string>, values: map<string, Option<string>>)

  /** The JavaScript value of a secret's `value` property. */
  function ValueOf(v: Option<string>): (j: Json)
    ensures j != Null && (j == Undefined <==> v.None?)
  {
    match v
    case Some(s) => Str(s)
    case None => Undefined
  }

  /** One `getSecret(name)` round trip: `None` when the call throws. */
  function Get(vault: Vault, name: string): Option<Json> {
    if vault.reachable && name in vault.values then Some(ValueOf(vault.values[name])) else None
  }

  /** Every call of a full enumeration succeeds. */
  predicate Enumerable(vault: Vault) {
    vault.reachable && forall i :: 0 <= i < |vault.listed| ==> vault.listed[i] in vault.values
  }

  /** What enumerating the vault yields: one entry per listed name, or `None` when a call throws. */
  function Fetched(vault: Vault): Option<map<string, Json>> {
    if Enumerable(vault) then Some(map n | n in vault.listed :: ValueOf(vault.values[n])) else None
  }

  /** The bulk fetch agrees with single lookups: it succeeds exactly when every listed
      name can be fetched alone, and then holds exactly the listed names with the values
      those single lookups return. */
  lemma FetchedAgreesWithGet(vault: Vault)
    ensures Fetched(vault).Some? <==> vault.reachable && forall n :: n in vault.listed ==> Get(vault, n).Some?
    ensures Fetched(vault).Some? ==>
      && (forall n :: n in Fetched(vault).value <==> n in vault.listed)
      && (forall n :: n in Fetched(vault).value ==> Some(Fetched(vault).value[n]) == Get(vault, n))
  {
    if vault.reachable && forall n :: n in vault.listed ==> Get(vault, n).Some? {
      forall i | 0 <= i < |vault.listed| ensures vault.listed[i] in vault.values {
        assert Get(vault, vault.listed[i]).Some?;
      }
    }
  }

  /** The enumeration loop shared by both plugin variants: list the names, fetch each
      secret in turn and record its value; the first call that throws abandons the loop. */
  method FetchAll(vault: Vault) returns (r: Option<map<string, Json>>)
    ensures r == Fetched(vault)
  {
    if !vault.reachable {
      return None;
    }
    var secrets: map<string, Json> := map[];
    var i := 0;
    while i < |vault.listed|
      invariant 0 <= i <= |vault.listed|
      invariant forall j :: 0 <= j < i ==> vault.listed[j] in vault.values
      invariant forall n :: n in secrets <==> n in vault.listed[..i]
      invariant forall n :: n in secrets ==> n in vault.values && secrets[n] == ValueOf(vault.values[n])
    {
      var name := vault.listed[i];
      var got := Get(vault, name);
      if got.None? {
        return None;
      }
      secrets := secrets[name := got.value];
      assert vault.listed[..i + 1] == vault.listed[..i] + [name];
      i := i + 1;
    }
    assert vault.listed[..i] == vault.listed;
    assert Enumerable(vault);
    assert secrets == map n | n in vault.listed :: ValueOf(vault.values[n]);
    return Some(secrets);
  }
}
