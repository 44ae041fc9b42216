/** The gateway's hook registry: five append-only lists of hooks, one per hook kind,
    the `sys:gateway,add:hook` and `sys:gateway,get:hooks` messages that grow and read
    them, and the two ways the request handler runs a list. */
module Hooks {
  import opened Js

  datatype HookKind = Custom | Fixed | Delegate | Action | Result

  /** The kind's name as the messages spell it. */
  function NameOf(kind: HookKind): string {
    match kind
    case Custom => "custom"
    case Fixed => "fixed"
    case Delegate => "delegate"
    case Action => "action"
    case Result => "result"
  }

  /** The kind a message names, if it names one of the five. */
  function KindNamed(name: string): (k: Option<HookKind>)
    ensures k.Some? ==> NameOf(k.value) == name
    ensures forall kind :: NameOf(kind) == name ==> k == Some(kind)
  {
    if name == "custom" then Some(Custom)
    else if name == "fixed" then Some(Fixed)
    else if name == "delegate" then Some(Delegate)
    else if name == "action" then Some(Action)
    else if name == "result" then Some(Result)
    else None
  }

  /** A registered hook: an object merged into the accumulator or a function that is
      called. Which it is, and what it does, is left to the caller's interpretation. */
  datatype Hook = Hook(id: nat)

  /** Replies of the hook messages. */
  datatype HookReply =
    | Added(hook: string, count: nat)                      // { ok: true, hook, count }
    | Listed(hook: string, count: nat, hooks: seq<Hook>)   // { ok: true, hook, count, hooks }
    | NoAction                                             // { ok: false, why: 'no-action' }

  class HookRegistry {
    var custom: seq<Hook>
    var fixed: seq<Hook>
    var delegate: seq<Hook>
    var action: seq<Hook>
    var result: seq<Hook>

    /** Every list starts empty. */
    constructor ()
      ensures forall kind :: Of(kind) == []
    {
      custom, fixed, delegate, action, result := [], [], [], [], [];
    }

    /** The list registered under `kind`. */
    function Of(kind: HookKind): seq<Hook>
      reads this
    {
      match kind
      case Custom => custom
      case Fixed => fixed
      case Delegate => delegate
      case Action => action
      case Result => result
    }

    /** `sys:gateway,add:hook`. A missing action is refused and nothing changes;
        otherwise the action goes to the end of its kind's list, the other lists stay
        as they were, and the reply counts the new length. The kind must be one of the
        five: for any other name with an action present the handler throws. */
    method AddHook(hook: string, hookAction: Option<Hook>) returns (reply: HookReply)
      requires hookAction.Some? ==> KindNamed(hook).Some?
      modifies this
      ensures hookAction.None? ==> reply == NoAction && unchanged(this)
      ensures hookAction.Some? ==>
        var kind := KindNamed(hook).value;
        && Of(kind) == old(Of(kind)) + [hookAction.value]
        && (forall other :: other != kind ==> Of(other) == old(Of(other)))
        && reply == Added(hook, |Of(kind)|)
    {
      if hookAction.None? {
        return NoAction;
      }
      var h := hookAction.value;
      match KindNamed(hook).value {
        case Custom => custom := custom + [h];
        case Fixed => fixed := fixed + [h];
        case Delegate => delegate := delegate + [h];
        case Action => action := action + [h];
        case Result => result := result + [h];
      }
      reply := Added(hook, |Of(KindNamed(hook).value)|);
    }

    /** `sys:gateway,get:hooks` for one of the five kinds: the list and its length. */
    method GetHooks(hook: string) returns (reply: HookReply)
      requires KindNamed(hook).Some?
      ensures reply.Listed? && reply.hook == hook
      ensures reply.hooks == Of(KindNamed(hook).value) && reply.count == |reply.hooks|
    {
      var hooks := Of(KindNamed(hook).value);
      reply := Listed(hook, |hooks|, hooks);
    }
  }

  /** Running a list of hooks over an accumulator, first registered first: what
      `prepare` does with the custom, fixed and delegate hooks. */
  function Fold<A>(step: (A, Hook) -> A, acc: A, hooks: seq<Hook>): A
    decreases |hooks|
  {
    if hooks == [] then acc else Fold(step, step(acc, hooks[0]), hooks[1..])
  }

  /** A hook registered later runs on what all earlier hooks produced, so it sees and
      can override their work. */
  lemma {:induction false} FoldAppend<A>(step: (A, Hook) -> A, acc: A, hooks: seq<Hook>, last: Hook)
    ensures Fold(step, acc, hooks + [last]) == step(Fold(step, acc, hooks), last)
    decreases |hooks|
  {
    if hooks == [] {
      assert hooks + [last] == [last];
    } else {
      assert (hooks + [last])[1..] == hooks[1..] + [last];
      FoldAppend(step, step(acc, hooks[0]), hooks[1..], last);
    }
  }

  /** Hooks A, B, C registered in that order run as A, then B, then C. */
  lemma FoldThree<A>(step: (A, Hook) -> A, acc: A, a: Hook, b: Hook, c: Hook)
    ensures Fold(step, acc, [a, b, c]) == step(step(step(acc, a), b), c)
  {
    FoldAppend(step, acc, [a, b], c);
    FoldAppend(step, acc, [a], b);
    assert [a, b] + [c] == [a, b, c];
    assert [a] + [b] == [a, b];
  }

  /** The action-hook loop of the request handler: call the hooks in registration order
      and stop at the first truthy result. `k` is that hook's index, or `|hooks|` when
      every result was falsy; the hooks after `k` are never called. */
  method FirstTruthy(hooks: seq<Hook>, call: Hook -> Json) returns (k: nat)
    ensures k <= |hooks|
    ensures forall j :: 0 <= j < k ==> !Truthy(call(hooks[j]))
    ensures k < |hooks| ==> Truthy(call(hooks[k]))
  {
    k := 0;
    while k < |hooks|
      invariant k <= |hooks|
      invariant forall j :: 0 <= j < k ==> !Truthy(call(hooks[j]))
    {
      var out := call(hooks[k]);
      if Truthy(out) {
        return;
      }
      k := k + 1;
    }
  }
}
