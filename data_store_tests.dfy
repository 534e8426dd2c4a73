/** The data-store scenarios of WooCommerce's unit tests: the filter callbacks
    they register, each scenario stated for any prior filter state as a
    lemma, and the two scenarios that register filters before resolving are
    written step by step against a fresh `Runtime`. */
module DataStoreTests {
  import opened Hooks
  import opened DataStores

  const DummyCpt: ClassName := "WC_Dummy_Data_Store_CPT"
  const DummyCustomTable: ClassName := "WC_Dummy_Data_Store_Custom_Table"

  /** `add_dummy_data_store`: registers the 'dummy' store. */
  function AddDummyDataStore(stores: Stores): (r: Stores)
    ensures r.Keys == stores.Keys + {"dummy"}
    ensures r["dummy"] == DummyCpt
    ensures forall k :: k in stores && k != "dummy" ==> r[k] == stores[k]
  {
    stores["dummy" := DummyCpt]
  }

  /** `set_dummy_store`: swaps in the custom-table class. */
  function SetDummyStore(store: ClassName): ClassName
  {
    DummyCustomTable
  }

  /** `set_default_product_store`: swaps the CPT class back in. */
  function SetDefaultProductStore(store: ClassName): ClassName
  {
    DummyCpt
  }

  /** Both override callbacks ignore the class they are given, so applying one
      twice is the same as applying it once. */
  lemma OverridesIgnoreTheirInput(a: ClassName, b: ClassName)
    ensures SetDummyStore(a) == SetDummyStore(b) == DummyCustomTable
    ensures SetDefaultProductStore(a) == SetDefaultProductStore(b) == DummyCpt
    ensures SetDummyStore(SetDummyStore(a)) == SetDummyStore(a)
    ensures SetDefaultProductStore(SetDefaultProductStore(a)) == SetDefaultProductStore(a)
  {
  }

  /** Registering an override callback a second time does not change what
      the hook yields. */
  lemma OverrideRegisteredTwice(hooks: HookMap<ClassName>, tag: string, value: ClassName)
    ensures Apply(WithFilter(WithFilter(hooks, tag, SetDummyStore), tag, SetDummyStore), tag, value)
         == Apply(WithFilter(hooks, tag, SetDummyStore), tag, value)
    ensures Apply(WithFilter(WithFilter(hooks, tag, SetDefaultProductStore), tag, SetDefaultProductStore), tag, value)
         == Apply(WithFilter(hooks, tag, SetDefaultProductStore), tag, value)
  {
    AddFilterRunsLast(WithFilter(hooks, tag, SetDummyStore), tag, SetDummyStore, value);
    AddFilterRunsLast(hooks, tag, SetDummyStore, value);
    AddFilterRunsLast(WithFilter(hooks, tag, SetDefaultProductStore), tag, SetDefaultProductStore, value);
    AddFilterRunsLast(hooks, tag, SetDefaultProductStore, value);
  }

  /** `test_invalid_store_throws_exception`: 'bogus' is no store and has no
      separator, so construction throws "Invalid data store.". */
  lemma InvalidStoreThrowsException(defaults: Stores, storesFilters: HookMap<Stores>,
                                    classFilters: HookMap<ClassName>)
    requires "bogus" !in MergedStores(defaults, storesFilters)
    ensures Resolve(defaults, storesFilters, classFilters, "bogus") == Err(Exception("Invalid data store."))
  {
    assert Separator !in "bogus";
    UnknownStoreIsInvalid(defaults, storesFilters, classFilters, "bogus");
  }

  /** `test_invalid_store_load_returns_null`: a hyphen is not a separator, so
      'product-test' is null even when 'product' is a store. */
  lemma InvalidStoreLoadReturnsNull(defaults: Stores, storesFilters: HookMap<Stores>,
                                    classFilters: HookMap<ClassName>)
    requires "product-test" !in MergedStores(defaults, storesFilters)
    ensures LoadOrNull(defaults, storesFilters, classFilters, "product-test") == None
  {
    assert Separator !in "product-test";
    UnknownStoreIsInvalid(defaults, storesFilters, classFilters, "product-test");
  }

  /** `test_store_swap`: once `add_dummy_data_store` is registered, 'dummy'
      resolves to the CPT class; after `set_dummy_store` is added to
      `woocommerce_dummy_data_store`, the next resolution reports the
      custom-table class. */
  lemma StoreSwap(defaults: Stores, storesFilters: HookMap<Stores>, classFilters: HookMap<ClassName>)
    requires CallbacksFor(classFilters, ClassHook("dummy")) == []
    ensures var withDummy := WithFilter(storesFilters, StoresHook, AddDummyDataStore);
      && Resolve(defaults, withDummy, classFilters, "dummy") == Ok(WcDataStore(DummyCpt))
      && Resolve(defaults, withDummy, WithFilter(classFilters, ClassHook("dummy"), SetDummyStore), "dummy")
         == Ok(WcDataStore(DummyCustomTable))
  {
    var withDummy := WithFilter(storesFilters, StoresHook, AddDummyDataStore);
    StoresFilterRunsLast(defaults, storesFilters, AddDummyDataStore);
    UnfilteredStoredNameUsesItsEntry(defaults, withDummy, classFilters, "dummy");
    ClassFilterAppliesToNextResolution(defaults, withDummy, classFilters, "dummy", "dummy", SetDummyStore);
  }

  /** `test_store_sub_type`: 'dummy_sub' has no entry of its own and resolves
      through its base 'dummy' to the CPT class. */
  lemma StoreSubType(defaults: Stores, storesFilters: HookMap<Stores>, classFilters: HookMap<ClassName>)
    requires "dummy_sub" !in MergedStores(defaults, storesFilters)
    requires CallbacksFor(classFilters, ClassHook("dummy")) == []
    ensures LoadOrNull(defaults, WithFilter(storesFilters, StoresHook, AddDummyDataStore), classFilters, "dummy_sub")
         == Some(WcDataStore(DummyCpt))
  {
    var withDummy := WithFilter(storesFilters, StoresHook, AddDummyDataStore);
    StoresFilterRunsLast(defaults, storesFilters, AddDummyDataStore);
    assert "dummy_sub" == "dummy" + [Separator] + "sub";
    BaseNameOfCompound("dummy", "sub");
    SubTypeFallsBackToBase(defaults, withDummy, classFilters, "dummy_sub");
  }

  /** `test_store_swap` written step by step against a fresh runtime: the
      first handle keeps the class it was resolved to, the second sees the
      filter added in between. */
  method TestStoreSwap(defaults: Stores) returns (before: Result<WcDataStore>, after: Result<WcDataStore>)
    ensures before == Ok(WcDataStore(DummyCpt))
    ensures after == Ok(WcDataStore(DummyCustomTable))
  {
    var runtime := new Runtime(defaults);
    runtime.AddStoresFilter("woocommerce_data_stores", AddDummyDataStore);
    before := runtime.NewDataStore("dummy");
    assert "woocommerce_dummy_data_store" == ClassHook("dummy");
    runtime.AddClassFilter("woocommerce_dummy_data_store", SetDummyStore);
    after := runtime.NewDataStore("dummy");
    StoreSwap(defaults, map[], map[]);
  }

  /** `test_store_sub_type` written step by step against a fresh runtime. */
  method TestStoreSubType(defaults: Stores) returns (store: Option<WcDataStore>)
    requires "dummy_sub" !in defaults
    ensures store.Some? && store.value.GetCurrentClassName() == DummyCpt
  {
    var runtime := new Runtime(defaults);
    runtime.AddStoresFilter("woocommerce_data_stores", AddDummyDataStore);
    store := runtime.Load("dummy_sub");
    StoreSubType(defaults, map[], map[]);
  }
}
