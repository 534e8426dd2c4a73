/** WooCommerce's data-store locator (`WC_Data_Store`): it turns a store name
    such as "product" or "dummy_sub" into the name of the class that persists
    that kind of object, consulting the `woocommerce_data_stores` filter for
    the name -> class mapping and `woocommerce_<name>_data_store` for a
    per-store override. */
module DataStores {
  import opened Hooks

  type ClassName = string

  /** Store name -> class name (PHP's `$stores` array). */
  type Stores = map<string, ClassName>

  datatype Option<T> = None | Some(value: T)

  /** A PHP `Exception`, reduced to its message. */
  datatype Exception = Exception(message: string)

  datatype Result<T> = Ok(value: T) | Err(error: Exception)

  /** The handle `new WC_Data_Store(name)` yields: the class it resolved to. */
  datatype WcDataStore = WcDataStore(currentClassName: ClassName)
  {
    function GetCurrentClassName(): ClassName
    {
      currentClassName
    }
  }

  const InvalidDataStoreMessage: string := "Invalid data store."

  /** Splits a compound store name into its base and its sub-type. */
  const Separator: char := '_'

  /** The hook that filters the whole store mapping. */
  const StoresHook: string := "woocommerce_data_stores"

  /** The hook that filters the class chosen for store `name`. */
  function ClassHook(name: string): string
  {
    "woocommerce_" + name + "_data_store"
  }

  /** Different stores are filtered through different hooks. */
  lemma ClassHookInjective(a: string, b: string)
    requires ClassHook(a) == ClassHook(b)
    ensures a == b
  {
    var prefix := "woocommerce_";
    var h := ClassHook(a);
    assert |h| == |prefix| + |a| + |"_data_store"| == |prefix| + |b| + |"_data_store"|;
    assert a == h[|prefix|..|prefix| + |a|];
    assert b == ClassHook(b)[|prefix|..|prefix| + |b|];
  }

  /** The base segment of a store name: everything before its first separator
      (the whole name when it has none). */
  function BaseName(name: string): (base: string)
    ensures |base| <= |name| && base == name[..|base|]
    ensures Separator !in base
    ensures |base| < |name| ==> name[|base|] == Separator
    ensures base == name <==> Separator !in name
    decreases |name|
  {
    if name == [] || name[0] == Separator then [] else [name[0]] + BaseName(name[1..])
  }

  /** The base of `base + "_" + rest` is `base`, whatever `rest` holds. */
  lemma {:induction false} BaseNameOfCompound(base: string, rest: string)
    requires Separator !in base
    ensures BaseName(base + [Separator] + rest) == base
    decreases |base|
  {
    if base != [] {
      assert (base + [Separator] + rest)[1..] == base[1..] + [Separator] + rest;
      BaseNameOfCompound(base[1..], rest);
    }
  }

  /** The key a name is stored under: the name itself when present, otherwise
      the base of a compound name when that is present. */
  function ObjectType(stores: Stores, name: string): (t: Option<string>)
    ensures t.Some? ==> t.value in stores
    ensures name in stores ==> t == Some(name)
    ensures t.Some? && t.value != name ==>
      name !in stores && Separator in name && t.value == BaseName(name)
    ensures t.None? <==> name !in stores && (Separator !in name || BaseName(name) !in stores)
  {
    if name in stores then Some(name)
    else if Separator in name && BaseName(name) in stores then Some(BaseName(name))
    else None
  }

  /** The mapping a resolution reads: the defaults passed through every
      `woocommerce_data_stores` callback. */
  function MergedStores(defaults: Stores, storesFilters: HookMap<Stores>): Stores
  {
    Apply(storesFilters, StoresHook, defaults)
  }

  /** `new WC_Data_Store(name)`: a handle, or the "Invalid data store."
      exception when neither the name nor its base is a known store. */
  function Resolve(defaults: Stores, storesFilters: HookMap<Stores>,
                   classFilters: HookMap<ClassName>, name: string): (r: Result<WcDataStore>)
    ensures r.Err? <==> ObjectType(MergedStores(defaults, storesFilters), name).None?
    ensures r.Err? ==> r.error.message == InvalidDataStoreMessage
  {
    var stores := MergedStores(defaults, storesFilters);
    match ObjectType(stores, name)
    case None => Err(Exception(InvalidDataStoreMessage))
    case Some(t) => Ok(WcDataStore(Apply(classFilters, ClassHook(t), stores[t])))
  }

  /** `WC_Data_Store::load(name)`: the same resolution, with null in place of
      the exception. */
  function LoadOrNull(defaults: Stores, storesFilters: HookMap<Stores>,
                      classFilters: HookMap<ClassName>, name: string): (r: Option<WcDataStore>)
    ensures r.None? <==> Resolve(defaults, storesFilters, classFilters, name).Err?
    ensures r.Some? ==> Resolve(defaults, storesFilters, classFilters, name) == Ok(r.value)
  {
    match Resolve(defaults, storesFilters, classFilters, name)
    case Ok(store) => Some(store)
    case Err(_) => None
  }

  /** A name that is neither stored nor a compound name with a stored base
      fails: strictly with exactly "Invalid data store.", tolerantly with null. */
  lemma UnknownStoreIsInvalid(defaults: Stores, storesFilters: HookMap<Stores>,
                              classFilters: HookMap<ClassName>, name: string)
    requires name !in MergedStores(defaults, storesFilters)
    requires Separator !in name || BaseName(name) !in MergedStores(defaults, storesFilters)
    ensures Resolve(defaults, storesFilters, classFilters, name) == Err(Exception("Invalid data store."))
    ensures LoadOrNull(defaults, storesFilters, classFilters, name) == None
  {
  }

  /** A stored name resolves to its mapped class, passed through its own
      per-store hook. */
  lemma StoredNameUsesItsEntry(defaults: Stores, storesFilters: HookMap<Stores>,
                               classFilters: HookMap<ClassName>, name: string)
    requires name in MergedStores(defaults, storesFilters)
    ensures Resolve(defaults, storesFilters, classFilters, name)
         == Ok(WcDataStore(Apply(classFilters, ClassHook(name),
                                 MergedStores(defaults, storesFilters)[name])))
  {
  }

  /** A stored name with no per-store filter resolves to its mapped class. */
  lemma UnfilteredStoredNameUsesItsEntry(defaults: Stores, storesFilters: HookMap<Stores>,
                                         classFilters: HookMap<ClassName>, name: string)
    requires name in MergedStores(defaults, storesFilters)
    requires CallbacksFor(classFilters, ClassHook(name)) == []
    ensures Resolve(defaults, storesFilters, classFilters, name)
         == Ok(WcDataStore(MergedStores(defaults, storesFilters)[name]))
  {
    StoredNameUsesItsEntry(defaults, storesFilters, classFilters, name);
    UnhookedPassesThrough(classFilters, ClassHook(name), MergedStores(defaults, storesFilters)[name]);
  }

  /** A compound name without an entry of its own resolves through its base:
      the base's entry, passed through the base's per-store hook. */
  lemma SubTypeFallsBackToBase(defaults: Stores, storesFilters: HookMap<Stores>,
                               classFilters: HookMap<ClassName>, name: string)
    requires name !in MergedStores(defaults, storesFilters)
    requires Separator in name && BaseName(name) in MergedStores(defaults, storesFilters)
    ensures Resolve(defaults, storesFilters, classFilters, name)
         == Ok(WcDataStore(Apply(classFilters, ClassHook(BaseName(name)),
                                 MergedStores(defaults, storesFilters)[BaseName(name)])))
  {
  }

  /** A `woocommerce_data_stores` callback added now runs on the mapping every
      earlier one produced, at the next resolution. */
  lemma StoresFilterRunsLast(defaults: Stores, storesFilters: HookMap<Stores>, callback: Stores -> Stores)
    ensures MergedStores(defaults, WithFilter(storesFilters, StoresHook, callback))
         == callback(MergedStores(defaults, storesFilters))
  {
    AddFilterRunsLast(storesFilters, StoresHook, callback, defaults);
  }

  /** A per-store filter added between two resolutions applies to the class the
      earlier resolution reported; nothing is cached from the earlier call. */
  lemma ClassFilterAppliesToNextResolution(defaults: Stores, storesFilters: HookMap<Stores>,
                                           classFilters: HookMap<ClassName>, name: string,
                                           t: string, callback: ClassName -> ClassName)
    requires ObjectType(MergedStores(defaults, storesFilters), name) == Some(t)
    ensures Resolve(defaults, storesFilters, WithFilter(classFilters, ClassHook(t), callback), name)
         == Ok(WcDataStore(callback(Resolve(defaults, storesFilters, classFilters, name).value.currentClassName)))
  {
    AddFilterRunsLast(classFilters, ClassHook(t), callback, MergedStores(defaults, storesFilters)[t]);
  }

  /** A per-store filter for another store does not change a resolution. */
  lemma OtherStoresFilterIgnored(defaults: Stores, storesFilters: HookMap<Stores>,
                                 classFilters: HookMap<ClassName>, name: string,
                                 t: string, other: string, callback: ClassName -> ClassName)
    requires ObjectType(MergedStores(defaults, storesFilters), name) == Some(t)
    requires other != t
    ensures Resolve(defaults, storesFilters, WithFilter(classFilters, ClassHook(other), callback), name)
         == Resolve(defaults, storesFilters, classFilters, name)
  {
    if ClassHook(other) == ClassHook(t) {
      ClassHookInjective(other, t);
    }
    AddFilterRunsLast(classFilters, ClassHook(other), callback, MergedStores(defaults, storesFilters)[t]);
  }

  /** The process-wide state a resolution reads: WooCommerce's built-in store
      list and WordPress's filter registry, split by the kind of value a hook
      filters (the whole mapping, or one class name). */
  class Runtime {
    const defaults: Stores
    var storesFilters: HookMap<Stores>
    var classFilters: HookMap<ClassName>

    constructor (defaults: Stores)
      ensures this.defaults == defaults
      ensures storesFilters == map[] && classFilters == map[]
    {
      this.defaults := defaults;
      storesFilters := map[];
      classFilters := map[];
    }

    /** `add_filter(tag, callback)` for a hook that filters the store mapping. */
    method AddStoresFilter(tag: string, callback: Stores -> Stores)
      modifies this
      ensures storesFilters == WithFilter(old(storesFilters), tag, callback)
      ensures classFilters == old(classFilters)
    {
      storesFilters := WithFilter(storesFilters, tag, callback);
    }

    /** `add_filter(tag, callback)` for a hook that filters one class name. */
    method AddClassFilter(tag: string, callback: ClassName -> ClassName)
      modifies this
      ensures classFilters == WithFilter(old(classFilters), tag, callback)
      ensures storesFilters == old(storesFilters)
    {
      classFilters := WithFilter(classFilters, tag, callback);
    }

    /** `new WC_Data_Store(name)`, reading the filters as they are now. */
    method NewDataStore(name: string) returns (r: Result<WcDataStore>)
      ensures r == Resolve(defaults, storesFilters, classFilters, name)
    {
      var stores := ApplyFilters(storesFilters, StoresHook, defaults);
      match ObjectType(stores, name)
      case None =>
        r := Err(Exception(InvalidDataStoreMessage));
      case Some(t) =>
        var className := ApplyFilters(classFilters, ClassHook(t), stores[t]);
        r := Ok(WcDataStore(className));
    }

    /** `WC_Data_Store::load(name)`: catches the constructor's exception. */
    method Load(name: string) returns (r: Option<WcDataStore>)
      ensures r == LoadOrNull(defaults, storesFilters, classFilters, name)
    {
      var attempt := NewDataStore(name);
      match attempt
      case Ok(store) =>
        r := Some(store);
      case Err(_) =>
        r := None;
    }
  }
}
