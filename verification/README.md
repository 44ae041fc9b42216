# seneca-azure-env, modelled in Dafny

This project models the self-contained logic of the `seneca-azure-env` Seneca plugin.
The plugin puts an Azure Key Vault behind Seneca messages and also acts as a request
gateway. The model covers:

- the **secret store** of `src/azure.ts`: `getSecret` and `getSecrets` in front of an
  in-memory cache with one shared `lastCacheTime`, and the `role:azure,cmd:get-secret`
  and `role:azure,cmd:list-secrets` messages (`SecretCache`, over the abstract vault in
  `Vault`);
- the **hook registry**: five append-only hook lists, the `sys:gateway,add:hook` and
  `sys:gateway,get:hooks` messages, the ordered runs of `prepare` and the action-hook
  short circuit (`Hooks`);
- the **allow-list**: how the `allow` option becomes stored entries, and the decision on
  an inbound message (`AllowList`);
- the **gateway handler**: the client timeout clamp, `nundef`, the refusal and
  error descriptors, the normalisation of dispatched replies, and the handler's whole
  decision path (`Gateway`);
- the **environment variant** of `dist/azure.js`: a cache-less `getSecrets` with its
  placeholder fallback, and the `sys:env,hook:vars` handler that writes the secrets into
  the earlier stage's variables (`EnvPlugin`).

JavaScript values are the `Js.Json` datatype, and `Js.Truthy` is JavaScript
truthiness. The vault is a value: whether it is reachable, the names its listing yields,
and each secret's value. A listed name that the vault lacks makes that call throw.
The clock, the random error id, and the host framework's functions are all parameters:
`seneca.find`, the parameter matcher, deep merge and hook calls, `seneca.act` with
transport externalisation, and the delegate's default timeout. The stateful parts are
classes: `SecretCache.SecretStore`, `Hooks.HookRegistry`, `Gateway.Gateway` and
`EnvPlugin.VarSet`. Their methods state the whole new state in terms of the old one.

Behaviours of the source that are easy to misread, and which the model keeps as the code
has them:

- `add:hook` (with an action) and `get:hooks` do not reject an unknown hook kind. The
  hook lists live in a plain object, so `add:hook` throws a TypeError for any other name.
  `get:hooks` also throws for most names. For a name the object inherits, though, it
  answers: `constructor` gives count 1, `toString` count 0 and `__proto__` count
  undefined. The model covers only the five kinds, as a precondition.
- The action-hook short circuit fires on any truthy result. An empty object counts;
  `0` or `""` do not.
- `getSecret` treats a cached empty string or an undefined value as a miss.
- The test that checks the environment variables loads `src/azure.ts`. That file
  registers no `sys:env,hook:vars` handler. Only `dist/azure.js` does, and its
  placeholder fallback yields the values the test expects (see
  `EnvPlugin.UnreachableVaultScenario`).

## Model

| member | source | states |
|---|---|---|
| `Vault.ValueOf` | src/azure.ts:124 | a secret's `value` is never null; it is undefined exactly when the vault holds no text |
| `Vault.FetchAll` | src/azure.ts:117-125 | the enumeration loop yields exactly `Fetched(vault)`: one entry per listed name with its vault value, or nothing when any call throws |
| `Vault.FetchedAgreesWithGet` | src/azure.ts:119-124 | the bulk fetch succeeds exactly when every listed name can be fetched alone, then holds exactly the listed names with the values single lookups return |
| `SecretCache.SecretStore.constructor` | src/azure.ts:78-98 | a client exists only when a URL is configured and construction did not throw; the cache starts empty with timestamp 0 |
| `SecretCache.SecretStore.GetSecret` | src/azure.ts:149-180 | no client: null, no vault call, no change; cache hit (caching on, entry truthy, fresh): cached value, no vault call, no change; otherwise one vault call whose value (null on error) is returned, and with caching on after a success only that key changes and the shared timestamp becomes the second clock reading; a failure changes nothing |
| `SecretCache.SecretStore.GetSecrets` | src/azure.ts:101-146 | no client: `{}`; caching on with a non-empty fresh cache: the cache as is, no vault call; otherwise the fetched map (or `{}` on error), and with caching on after a success the cache is replaced wholesale and stamped with `now`; a failure changes nothing |
| `SecretCache.SecretStore.GetSecretMessage` | src/azure.ts:232-246 | a missing or empty name answers `missing-secret-name` without a lookup; `secret-not-found` exactly when the client is absent or the lookup missed the cache and the vault call failed; otherwise the cached or fetched value, with the cache effects of `getSecret` |
| `SecretCache.SecretStore.ListSecretsMessage` | src/azure.ts:248-255 | always ok, `count` equals the number of names, which are the keys `getSecrets` returned, with its cache effects |
| `Hooks.KindNamed` | src/azure.ts:209-222 | exactly the five names `custom`, `fixed`, `delegate`, `action`, `result` denote a kind, and the kind's name is the one given |
| `Hooks.HookRegistry.constructor` | src/azure.ts:224 | every hook list starts empty |
| `Hooks.HookRegistry.AddHook` | src/azure.ts:257-271 | a missing action answers `no-action` and changes nothing; otherwise the action is appended at the end of its kind's list, every other list is unchanged, and `count` is the new length |
| `Hooks.HookRegistry.GetHooks` | src/azure.ts:273-277 | the reply carries the kind's list and its length |
| `Hooks.FoldAppend` | src/azure.ts:441-472 | a hook registered later runs on the result of all earlier ones |
| `Hooks.FoldThree` | src/azure.ts:442-450 | hooks registered A, B, C are applied as A, then B, then C |
| `Hooks.FirstTruthy` | src/azure.ts:370-379 | the action loop stops at the first hook with a truthy result: every earlier result is falsy, and if no hook answers, all results were falsy |
| `AllowList.RuleFor` | src/azure.ts:188-199 | `true` or an empty list stores allow-all, `false` a denial, a non-empty list a matcher over exactly its patterns |
| `AllowList.BuildTable` | src/azure.ts:182-206 | one entry per configured canon, each the rule for its configured value |
| `AllowList.Decide` | src/azure.ts:301-327 | a message passes exactly when its definition is found, the lookup of the definition's canon finds an entry, and that entry allows all or has a pattern accepting the full message; a refusal reports `null` for a matcher that found nothing and `false` otherwise |
| `AllowList.RuleAdmitsConfigured` | src/azure.ts:188-199 | a stored rule lets a message through exactly when its configured value does: `true`, an empty list, or a list with an accepting pattern |
| `AllowList.AllowedIffConfigured` | src/azure.ts:183-325 | from configuration to decision, for any lookup that returns stored entries: pass exactly when the lookup of the definition's canon finds the entry of a configured pattern whose value is `true`, an empty list, or a list one of whose patterns accepts the message |
| `AllowList.RefusedWithoutEntry` | src/azure.ts:305-327 | an unresolved message, or one whose definition's canon the lookup finds no entry for, is refused with `allowed` false whatever it carries |
| `AllowList.MatcherChecksParameters` | src/azure.ts:308-325 | when the lookup finds a matcher, two messages resolving to the same definition are judged by their full parameters |
| `Gateway.ClientTimeout` | src/azure.ts:290-298 | a timeout is set only when client timeouts are on and the directive is a number, and then only up to `timeout.max` when positive, else up to the host's timeout; within that bound it is always set |
| `Gateway.DefaultsIgnoreClientTimeout` | src/azure.ts:527-535 | with the default options no client timeout is ever applied |
| `Gateway.Nundef` | src/azure.ts:504-511 | the deletion loop removes exactly the undefined-valued keys and keeps every other key and value |
| `Gateway.TrimMeta` | src/azure.ts:400-407 | outside debug mode a truthy `meta$` is cut down to its id; all other keys are untouched; in debug mode, or when `meta$` is absent or falsy, the reply is unchanged |
| `Gateway.ErrorOut` | src/azure.ts:419-430 | the error descriptor has only `meta$`, name, id, code, message and details keys; `meta$` is the reply's trimmed meta with `error` set to true; the id is the error's own when truthy, else the fresh id; name and code appear exactly when defined, message and details exactly when enabled and defined, each with the error's value |
| `Gateway.Normalize` | src/azure.ts:398-433 | `error` is set exactly on a dispatch error; `gateway$` is moved out of `out` into the envelope (`{}` when falsy); a success keeps every other key of the reply, with `meta$` cut down to its id outside debug mode; an error replaces `out` by the error descriptor |
| `Gateway.DefaultsHideErrorText` | src/azure.ts:537-543 | with the default options an error reply has no `message` and no `details` key |
| `Gateway.NotAllowedDesc` | src/azure.ts:328-339 | the refusal descriptor: name, id, code `not-allowed` and a fixed message, with the pattern and the flag set only in debug mode |
| `Gateway.Rejection` | src/azure.ts:327-361 | a refusal is an error envelope with exactly the keys name, id, code, message, `meta$` and `error$`, plus pattern and `allowed` only in debug mode with a found definition (then the definition's pattern and the falsy verdict); code `not-allowed`, the fresh id, `meta$` `{id, error: true}`, and the same descriptor nested as `error$` |
| `Gateway.Gateway.constructor` | src/azure.ts:182-207 | the allow table exists exactly when the allow option is set, and is built from it |
| `Gateway.Gateway.Prepare` | src/azure.ts:438-475 | the delegate comes from the custom and fixed hooks folded over their bases in registration order, then the delegate hooks in order |
| `Gateway.Gateway.Handle` | src/azure.ts:280-436 | for any request, whatever dispatch would do when it never happens: a refused message gets the rejection and nothing is dispatched; else the first truthy action hook answers and nothing is dispatched; else the clamped message, marked local when asked, is dispatched and its reply normalised |
| `EnvPlugin.SecretsFor` | dist/azure.js:17-40 | no client: `{ok: false, why: 'azure-client-not-initialized'}`; any vault error: exactly the two placeholder secrets; success: exactly the listed names with the values single lookups give |
| `EnvPlugin.GetSecrets` | dist/azure.js:17-40 | the loop with its fallback yields `SecretsFor` |
| `EnvPlugin.VarSet.Assign` | dist/azure.js:45 | every source property is copied over, replacing one of the same name; the others stay |
| `EnvPlugin.VarsHook` | dist/azure.js:41-46 | the secrets are written into the earlier stage's own object, which is returned (a fresh one when that result was falsy); a secret wins on a collision and every other earlier variable survives |

## Left out

- Azure SDK calls, credentials and the client URL: the vault is a value, and client construction is a flag.
- `Date.now` and the random id generator: the clock readings and the fresh id are parameters.
- Logging: it has no effect on results.
- async/await: the model runs each call to completion in sequence. The accepted races on the cache and hook lists are not modelled.
- `parseJSON`: a thin wrapper over `JSON.parse`.
- The plugin tag fix in `src/azure.ts`: it only rebinds the framework instance.
- The plugin-load failure throw in `dist/azure.js`: it happens at load time, outside the modelled operations.
- Seneca internals are parameters (`Gateway.Host`): message resolution, parameter-pattern matching, deep merge, hook calls, dispatch, and transport internalise, clean and externalise.
- `AllowList.Decide`: the lookup of a canon in the allow table is a parameter (`Gateway.Host.lookup`). Jsonic parsing of the canon and Patrun's choice of the most specific matching pattern are not modelled; `AllowList.AllowedIffConfigured` assumes only that the lookup returns some stored entry.
- `Gateway.Gateway.Handle`: result hooks are called for their side effects on shared objects, and the model does not track them.
- `Gateway.Gateway.Handle`: mutations that hooks make to the message are not modelled.
- `Gateway.Gateway.Handle`: every host function (hooks, `find`, `act`) is total in the model, so the source's throw paths are not modelled. A throwing custom, fixed or delegate hook makes the handler reject from `prepare`. A throwing action or result hook, or the TypeError on a non-object `meta$`, leaves the handler's promise pending forever, because the promise executor and the act callback are async functions whose rejections are dropped and never reach `resolve`.
- `Gateway.Gateway.Handle`: when the message is dispatched and fails, the error path needs an object `meta$` after trimming, where the source would throw a TypeError. This is a precondition on requests that reach dispatch only.
- `Gateway.Gateway.Prepare`: object hooks and function hooks are both one abstract step, and the delegate hooks' effect is abstract.
- `SecretCache.SecretStore.ListSecretsMessage`: `names` is a set. The source's key order is not kept.
- `SecretCache.SecretStore.GetSecret`: keys that an empty object inherits (`constructor`, `__proto__`) are not modelled. The source would find such a key truthy.
- `SecretCache.SecretStore.GetSecrets`: the returned cache is the cache object itself. The model returns a value, so later in-place updates that callers would see are not captured.
- `Gateway.Nundef`: it deletes in place on a shared descriptor. The model computes the cleaned descriptor once and uses it in both places, which gives the same result.
- `Gateway.ClientTimeout`: the numeric conversion of `timeout$` is given as the directive. Numbers are integers, so fractional and non-finite values are not modelled.
- `EnvPlugin.VarsHook`: an earlier-stage result that is truthy but not an object (which `Object.assign` would wrap) is not modelled.
- `Hooks.HookRegistry.AddHook`: an unknown kind is a precondition, because the source throws there.
- `Hooks.HookRegistry.GetHooks`: the precondition also excludes the names the hook object inherits (`constructor`, `toString`, `__proto__` and the like), for which the source answers with the inherited value's `length` instead of throwing.
- `SecretCache.SecretStore.GetSecretMessage`: a `name` that is not a string is not modelled.
