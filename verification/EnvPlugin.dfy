/** The environment plugin variant: a cache-less `getSecrets` that falls back to fixed
    placeholder values when the vault fails, and the `sys:env,hook:vars` handler that
    lays the secrets over the variables of the earlier stage. */
module EnvPlugin {
  import opened Js
  import opened Vault

  /** The reply when the client is absent. */
  const NotInitialized: map<string, Json> :=
    map["ok" := Bool(false), "why" := Str("azure-client-not-initialized")]

  /** The fixed values returned whenever a vault call throws. */
  const Placeholder: map<string, Json> :=
    map["azurekey1" := Str("value1"), "azurekey2" := Str("value2")]

  /** What `getSecrets()` resolves to. On success it holds exactly the listed names,
      each with the value a single lookup of that name returns. */
  function SecretsFor(hasClient: bool, vault: Vault): (r: map<string, Json>)
    ensures !hasClient ==> r == NotInitialized
    ensures hasClient && !Enumerable(vault) ==> r == Placeholder
    ensures hasClient && Enumerable(vault) ==>
      && (forall n :: n in r <==> n in vault.listed)
      && (forall n :: n in r ==> Get(vault, n) == Some(r[n]))
  {
    if !hasClient then NotInitialized
    else match Fetched(vault)
      case Some(secrets) => secrets
      case None => Placeholder
  }

  /** `getSecrets()`: the enumeration loop, with the placeholder fallback. */
  method GetSecrets(hasClient: bool, vault: Vault) returns (secrets: map<string, Json>)
    ensures secrets == SecretsFor(hasClient, vault)
  {
    if !hasClient {
      return NotInitialized;
    }
    var fetched := FetchAll(vault);
    if fetched.None? {
      return Placeholder;
    }
    secrets := fetched.value;
  }

  /** A JavaScript object whose properties are updated in place. */
  class VarSet {
    var vars: map<string, Json>

    constructor (vars: map<string, Json>)
      ensures this.vars == vars
    {
      this.vars := vars;
    }

    /** `Object.assign(this, src)`: every property of `src` is copied over, replacing
        a property of the same name; the others stay. */
    method Assign(src: map<string, Json>)
      modifies this
      ensures vars.Keys == old(vars).Keys + src.Keys
      ensures forall k :: k in src ==> vars[k] == src[k]
      ensures forall k :: k in old(vars) && k !in src ==> vars[k] == old(vars)[k]
    {
      vars := vars + src;
    }
  }

  /** `sys:env,hook:vars`. `prior` is the earlier stage's result, null when it was
      falsy. The secrets are written into that very object, which is returned; a
      fresh empty object stands in when there is none. A secret wins on a name
      collision and every other earlier variable survives unchanged. */
  method VarsHook(hasClient: bool, vault: Vault, prior: VarSet?) returns (result: VarSet)
    modifies prior
    ensures prior != null ==> result == prior
    ensures prior == null ==> fresh(result)
    ensures var before := if prior == null then map[] else old(prior.vars);
      && result.vars.Keys == before.Keys + SecretsFor(hasClient, vault).Keys
      && (forall k :: k in SecretsFor(hasClient, vault) ==> result.vars[k] == SecretsFor(hasClient, vault)[k])
      && (forall k :: k in before && k !in SecretsFor(hasClient, vault) ==> result.vars[k] == before[k])
  {
    var secrets := GetSecrets(hasClient, vault);
    if prior == null {
      result := new VarSet(map[]);
    } else {
      result := prior;
    }
    result.Assign(secrets);
  }

  /** An unreachable vault still puts the placeholder values into the environment,
      next to the earlier stage's `BAR`. */
  method UnreachableVaultScenario(vault: Vault)
    requires !vault.reachable
  {
    var earlier := new VarSet(map["BAR" := Str("red")]);
    var env := VarsHook(true, vault, earlier);
    assert env == earlier;
    assert env.vars["azurekey1"] == Str("value1") && env.vars["azurekey2"] == Str("value2");
    assert env.vars["BAR"] == Str("red");
  }
}
