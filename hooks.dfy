/** WordPress's filter API (`add_filter` / `apply_filters`) as a value:
    for every hook name, the callbacks registered under it, in the order they
    were added. Applying a hook threads a value through those callbacks. */
module Hooks {

  /** Hook name -> callbacks in registration order. */
  type HookMap<!T> = map<string, seq<T -> T>>

  /** The callbacks registered under `tag`; a hook nobody registered has none. */
  function CallbacksFor<T>(hooks: HookMap<T>, tag: string): seq<T -> T>
  {
    if tag in hooks then hooks[tag] else []
  }

  /** Runs `callbacks` over `value`, the first registered first. */
  function Fold<T>(callbacks: seq<T -> T>, value: T): T
    decreases |callbacks|
  {
    if callbacks == [] then value else Fold(callbacks[1..], callbacks[0](value))
  }

  /** `apply_filters(tag, value)`. */
  function Apply<T>(hooks: HookMap<T>, tag: string, value: T): T
  {
    Fold(CallbacksFor(hooks, tag), value)
  }

  /** The registry after `add_filter(tag, callback)`: the callback joins the
      end of its hook's list, every other hook keeps its list. */
  function WithFilter<T>(hooks: HookMap<T>, tag: string, callback: T -> T): (r: HookMap<T>)
    ensures CallbacksFor(r, tag) == CallbacksFor(hooks, tag) + [callback]
    ensures forall other :: other != tag ==> CallbacksFor(r, other) == CallbacksFor(hooks, other)
  {
    hooks[tag := CallbacksFor(hooks, tag) + [callback]]
  }

  /** A callback added last sees the value every earlier callback produced. */
  lemma {:induction false} FoldAppend<T>(callbacks: seq<T -> T>, callback: T -> T, value: T)
    ensures Fold(callbacks + [callback], value) == callback(Fold(callbacks, value))
    decreases |callbacks|
  {
    if callbacks == [] {
      assert [] + [callback] == [callback];
    } else {
      assert (callbacks + [callback])[1..] == callbacks[1..] + [callback];
      FoldAppend(callbacks[1..], callback, callbacks[0](value));
    }
  }

  /** Registering a filter changes the hook's result to that filter applied
      to what the hook produced before; no other hook's result changes. */
  lemma AddFilterRunsLast<T>(hooks: HookMap<T>, tag: string, callback: T -> T, value: T)
    ensures Apply(WithFilter(hooks, tag, callback), tag, value) == callback(Apply(hooks, tag, value))
    ensures forall other :: other != tag ==>
      Apply(WithFilter(hooks, tag, callback), other, value) == Apply(hooks, other, value)
  {
    FoldAppend(CallbacksFor(hooks, tag), callback, value);
  }

  /** A hook without callbacks hands its value back unchanged. */
  lemma UnhookedPassesThrough<T>(hooks: HookMap<T>, tag: string, value: T)
    requires tag !in hooks || hooks[tag] == []
    ensures Apply(hooks, tag, value) == value
  {
  }

  /** A callback that ignores its argument, registered last, decides the
      hook's result whatever was registered before it. */
  lemma ConstantFilterWins<T>(hooks: HookMap<T>, tag: string, callback: T -> T, c: T, value: T)
    requires forall x :: callback(x) == c
    ensures Apply(WithFilter(hooks, tag, callback), tag, value) == c
  {
    AddFilterRunsLast(hooks, tag, callback, value);
  }

  /** `apply_filters`: walks the hook's callbacks in registration order. */
  method ApplyFilters<T>(hooks: HookMap<T>, tag: string, value: T) returns (r: T)
    ensures r == Apply(hooks, tag, value)
  {
    var callbacks := CallbacksFor(hooks, tag);
    r := value;
    var i := 0;
    while i < |callbacks|
      invariant 0 <= i <= |callbacks|
      invariant Fold(callbacks[i..], r) == Fold(callbacks, value)
    {
      assert callbacks[i..][1..] == callbacks[i + 1..];
      r := callbacks[i](r);
      i := i + 1;
    }
  }
}
