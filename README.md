# WooCommerce data-store locator, modelled in Dafny

WooCommerce does not hard-wire where a product, order or coupon is stored.
`WC_Data_Store` looks the store up by name. A name such as `"product"` is
mapped to a class name. The mapping is WooCommerce's built-in list, passed
through the `woocommerce_data_stores` filter. The chosen class is then passed
through the per-store filter `woocommerce_<name>_data_store`. A compound name
such as `"dummy_sub"` that has no entry of its own is retried with its base,
the part before the first `_`. `new WC_Data_Store(name)` throws
`Exception("Invalid data store.")` when nothing is found. `WC_Data_Store::load(name)`
returns null in that case. The handle reports the class it resolved to
through `get_current_class_name()`.

The locator's own source is not part of this model. Its behaviour is the one
pinned down by `tests/unit-tests/crud/data-store.php`: its four tests and the
filter callbacks they register.

Files:

- `hooks.dfy`, module `Hooks`: WordPress's filter registry as a value. It
  maps each hook name to its callbacks in registration order. `Apply` is
  `apply_filters`, a fold over those callbacks. `WithFilter` is `add_filter`.
  `ApplyFilters` is the same fold written as a loop.
- `data_stores.dfy`, module `DataStores`: the locator. `BaseName`,
  `ObjectType`, `Resolve` (the constructor) and `LoadOrNull` (`load`) are
  pure functions of the default mapping, the filters and the name. The class
  `Runtime` holds the process-wide state the tests change between
  resolutions: the default mapping and the registered filters. Its
  `AddStoresFilter` and `AddClassFilter` methods register callbacks. Its
  `NewDataStore` and `Load` methods read the filters as they are at the
  moment of the call.
- `data_store_tests.dfy`, module `DataStoreTests`: the test callbacks
  `add_dummy_data_store`, `set_dummy_store` and `set_default_product_store`.
  Each test scenario is stated as a lemma over any prior filter state. The
  two scenarios that register filters before resolving are also written
  step by step as methods against a fresh `Runtime`.

Modelling choices:

- Class names are strings. A handle (`WcDataStore`) is a record holding the
  resolved class name. The object the locator would instantiate is not
  modelled.
- The built-in store list is not visible, so it is a parameter (`defaults`)
  everywhere.
- The filter registry is split by the kind of value a hook filters. One part
  holds hooks over the whole mapping (`woocommerce_data_stores`). The other
  holds hooks over one class name (`woocommerce_<name>_data_store`). PHP
  keeps both in one untyped registry. The tests never register a callback
  of one kind under a hook of the other kind.
- Sub-type fallback is an assumption of this model, since no test fixes it
  for names with several `_`. The base is everything before the first `_`,
  and the name is retried once, with that base only. So `"a_b_c"` is
  retried as `"a"`, never as `"a_b"`. When the base is found, the per-store
  filter consulted is the base's (`woocommerce_dummy_data_store` for
  `"dummy_sub"`).
- The merged mapping and the per-store filter are evaluated afresh on every
  resolution. Nothing is cached between calls.

## Model

| member | source | states |
|---|---|---|
| `Hooks.WithFilter` | tests/unit-tests/crud/data-store.php:46 | `add_filter` appends the callback to the end of its hook's list and leaves every other hook's list as it was |
| `Hooks.Apply` | tests/unit-tests/crud/data-store.php:46-49 | `apply_filters`; its contract is carried by `FoldAppend`, `AddFilterRunsLast` and `UnhookedPassesThrough` |
| `Hooks.FoldAppend` | tests/unit-tests/crud/data-store.php:46-49 | a callback registered last runs on the value all earlier callbacks produced (callbacks run in registration order) |
| `Hooks.AddFilterRunsLast` | tests/unit-tests/crud/data-store.php:46-49 | after `add_filter`, applying the hook yields the new callback applied to the hook's previous result; every other hook yields what it did before |
| `Hooks.UnhookedPassesThrough` | tests/unit-tests/crud/data-store.php:41-44 | a hook with no callbacks returns its value unchanged |
| `Hooks.ConstantFilterWins` | tests/unit-tests/crud/data-store.php:92-94 | a callback that ignores its input, registered last, decides the hook's result whatever was registered before |
| `Hooks.ApplyFilters` | tests/unit-tests/crud/data-store.php:43-49 | the loop that runs a hook's callbacks in order returns exactly the fold of those callbacks over the value |
| `DataStores.ClassHook` | tests/unit-tests/crud/data-store.php:46 | builds the per-store hook name `woocommerce_<name>_data_store`; its contract is carried by `ClassHookInjective` |
| `DataStores.MergedStores` | tests/unit-tests/crud/data-store.php:74 | the mapping a resolution reads, the defaults passed through `woocommerce_data_stores`; its contract is carried by `StoresFilterRunsLast` |
| `DataStores.WcDataStore.GetCurrentClassName` | tests/unit-tests/crud/data-store.php:44 | `get_current_class_name()` reports the class the handle resolved to; stated through `StoreSwap` and `TestStoreSubType` |
| `DataStores.ClassHookInjective` | tests/unit-tests/crud/data-store.php:46 | two different store names never share a `woocommerce_<name>_data_store` hook |
| `DataStores.BaseName` | tests/unit-tests/crud/data-store.php:55-63 | the base is the prefix of the name before its first `_`; it contains no `_`, and it is the whole name exactly when the name has no `_` |
| `DataStores.BaseNameOfCompound` | tests/unit-tests/crud/data-store.php:55-62 | the base of `base_rest` is `base` for any `rest`, when `base` has no `_` |
| `DataStores.ObjectType` | tests/unit-tests/crud/data-store.php:55-63 | the key used is the name when it is stored, else the base of a compound name when that is stored; nothing is found exactly when the name is absent and it has no `_` or its base is absent too |
| `DataStores.Resolve` | tests/unit-tests/crud/data-store.php:15-23 | construction fails exactly when no key is found, and the failure's message is "Invalid data store." |
| `DataStores.LoadOrNull` | tests/unit-tests/crud/data-store.php:30-33 | `load` returns null exactly when construction would throw, and otherwise the same handle |
| `DataStores.UnknownStoreIsInvalid` | tests/unit-tests/crud/data-store.php:15-33 | an absent name with no `_`, or with an absent base, throws `Exception("Invalid data store.")` on construction and gives null from `load` |
| `DataStores.StoredNameUsesItsEntry` | tests/unit-tests/crud/data-store.php:41-49 | a stored name resolves to its class in the merged mapping, passed through its own per-store filter |
| `DataStores.UnfilteredStoredNameUsesItsEntry` | tests/unit-tests/crud/data-store.php:41-44 | a stored name with no per-store filter resolves to the class in the merged mapping |
| `DataStores.SubTypeFallsBackToBase` | tests/unit-tests/crud/data-store.php:59-63 | an absent compound name with a stored base resolves to the base's class, passed through the base's per-store filter |
| `DataStores.StoresFilterRunsLast` | tests/unit-tests/crud/data-store.php:72-85 | a `woocommerce_data_stores` callback registered now transforms the mapping every earlier callback produced, from the next resolution on |
| `DataStores.ClassFilterAppliesToNextResolution` | tests/unit-tests/crud/data-store.php:46-49 | a per-store filter added between two resolutions changes the next one to the filter applied to the class the earlier one reported, so nothing is cached from the earlier call |
| `DataStores.OtherStoresFilterIgnored` | tests/unit-tests/crud/data-store.php:46 | a per-store filter registered for a different store leaves a resolution unchanged |
| `DataStores.Runtime.AddStoresFilter` | tests/unit-tests/crud/data-store.php:74 | registering a mapping filter appends it to that hook and leaves the class-name filters untouched |
| `DataStores.Runtime.AddClassFilter` | tests/unit-tests/crud/data-store.php:46 | registering a class-name filter appends it to that hook and leaves the mapping filters untouched |
| `DataStores.Runtime.NewDataStore` | tests/unit-tests/crud/data-store.php:43-49 | constructing a handle reads the filters registered at the moment of the call and yields exactly `Resolve` of them |
| `DataStores.Runtime.Load` | tests/unit-tests/crud/data-store.php:61 | `load` on the current filters yields exactly `LoadOrNull` of them |
| `DataStoreTests.AddDummyDataStore` | tests/unit-tests/crud/data-store.php:82-85 | the callback sets exactly the key `dummy` to `WC_Dummy_Data_Store_CPT` and keeps every other entry |
| `DataStoreTests.SetDummyStore` | tests/unit-tests/crud/data-store.php:92-94 | `set_dummy_store` returns the custom-table class for any input; its contract is carried by `OverridesIgnoreTheirInput` |
| `DataStoreTests.SetDefaultProductStore` | tests/unit-tests/crud/data-store.php:101-103 | `set_default_product_store` returns the CPT class for any input; its contract is carried by `OverridesIgnoreTheirInput` |
| `DataStoreTests.OverridesIgnoreTheirInput` | tests/unit-tests/crud/data-store.php:92-103 | `set_dummy_store` and `set_default_product_store` return a constant class name whatever they are given, so applying one twice equals applying it once |
| `DataStoreTests.OverrideRegisteredTwice` | tests/unit-tests/crud/data-store.php:92-103 | registering either override callback a second time does not change what the hook yields |
| `DataStoreTests.InvalidStoreThrowsException` | tests/unit-tests/crud/data-store.php:15-23 | constructing `bogus`, which no mapping holds, throws with the message "Invalid data store." |
| `DataStoreTests.InvalidStoreLoadReturnsNull` | tests/unit-tests/crud/data-store.php:30-33 | `load('product-test')` is null even when `product` is stored, because `-` is not a separator |
| `DataStoreTests.StoreSwap` | tests/unit-tests/crud/data-store.php:40-49 | after the dummy store is registered, `dummy` resolves to `WC_Dummy_Data_Store_CPT`; after `set_dummy_store` is added, the next resolution gives `WC_Dummy_Data_Store_Custom_Table` |
| `DataStoreTests.StoreSubType` | tests/unit-tests/crud/data-store.php:59-63 | with the dummy store registered, `load('dummy_sub')` falls back to `dummy` and reports `WC_Dummy_Data_Store_CPT` |
| `DataStoreTests.TestStoreSwap` | tests/unit-tests/crud/data-store.php:40-49 | written step by step on a fresh runtime, the first handle reports the CPT class and the one created after the filter is added reports the custom-table class |
| `DataStoreTests.TestStoreSubType` | tests/unit-tests/crud/data-store.php:59-63 | written step by step on a fresh runtime, `load('dummy_sub')` returns a handle whose current class name is `WC_Dummy_Data_Store_CPT` |

## Left out

- Instantiating the resolved class is not modelled. PHP loads the class by its name at run time, and the dummy classes' file `framework/class-wc-dummy-data-store.php` is not part of this model. So the failure for a resolved class that does not exist is not modelled either.
- The storage operations a resolved store performs are left out. The tests do not exercise them.
- WooCommerce's built-in store list is not visible, so it is a parameter.
- WordPress filter priorities, `remove_filter`, and the way WordPress ignores a second registration of the same callback at the same priority are left out. Every filter is modelled at the default priority, in the order it was added.
- A per-store filter that returns an object instead of a class name is not modelled. Neither is a filter that returns a value of another type than it receives.
- The cleanup at line 51 registers `set_default_dummy_store`, a callback the test class does not define, and nothing is asserted afterwards. It is not modelled as a restoring round trip.
- `include_once`, the unit-test base class, and PHPUnit's `fail` and `assertEquals` machinery are left out. The assertions become lemma and method postconditions.
- Names with more than one `_`: the one-retry, first-separator fallback is an assumption of the model (see above), not a property proved against the source.
