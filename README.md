# External-string cache and `<meter>` values

This project models two pieces of a browser engine in Dafny and proves properties of the models.

**The V8 external-string cache** (`Source/bindings/v8/V8ValueCache.cpp`). `StringCache` maps the
identity of a native `StringImpl` to a weak persistent handle on the V8 string that shares that
string's characters. It also keeps a one-entry last-access slot and holds one native reference on
each string it has externalised. The model is `v8_value_cache.dfy`. Its pure layer (`CacheState`,
`EngineState`, `World`) gives each operation as a state transition: `Resolved` for
`v8ExternalStringSlow`, `Created` for `createStringAndInsertIntoCache`, `MadeExternal` for
`makeExternalString`, `Removed` for `remove` and `Finalized` for `makeWeakCallback`. The classes
`Engine` and `StringCache` hold the same state in fields. Their methods are proved to perform
exactly those transitions. `Inv` is the cache invariant:
- the last slot names a live entry;
- every entry's handle is weak, and its finaliser parameter is the entry's own string, so no two
  strings share a handle;
- every key holds the cache's reference.

`SameForeignRefs` states the reference accounting: a string's count changes by exactly the change
in its membership of the table. `Run` extends both facts to any interleaving of resolves and
collections.

**`<meter>` value derivation** (`Source/core/html/HTMLMeterElement.cpp`). This follows section
4.10.14 of the WHATWG HTML Living Standard and is modelled in `html_meter_element.dfy`. The getters
are functions over the element's attribute map, with numbers as reals. Each attribute holds
`Some(x)` when its text parses to x and `None` otherwise. The standard's step-by-step definitions
(`StandardMaximum`, `StandardHigh`, `StandardRegion`, …) are written separately, and
`GettersFollowStandard` proves the source's `std::min`/`std::max` formulas equal to them. The
setters are methods of the class `HTMLMeterElement`, specified by `Assigned`.

`wrappers.dfy` holds the `Option` type.

The engine is abstract. `Engine.NewExternal` may fail at any call (a nondeterministic choice);
otherwise it returns a handle on a new object. The pure functions take that outcome as the
parameter `ok`, and each method is proved to match the pure function for one of the two outcomes.
`V8PerIsolateData::current()` is replaced by passing the cache to the finaliser explicitly.

`StringCache::remove` is the removal entry point that the finaliser calls; the model has it as
`StringCache.Remove`.

## Model

| member | source | states |
|---|---|---|
| V8ValueCache.MadeExternal | Source/bindings/v8/V8ValueCache.cpp:35-50 | the resource is 8-bit exactly when the string is 8-bit and wraps that string; on failure the result is the empty handle and the engine keeps nothing (the resource is deleted); on success the handle is on a new object |
| V8ValueCache.Engine.NewExternal | Source/bindings/v8/V8ValueCache.cpp:39-40 | either fails and changes nothing, or returns a handle on a new object backed by the given resource |
| V8ValueCache.StringCache.MakeExternalString | Source/bindings/v8/V8ValueCache.cpp:35-50 | the engine state and result are those of `MadeExternal` for the allocator's outcome |
| V8ValueCache.Removed | Source/bindings/v8/V8ValueCache.cpp:59-66 | the key leaves the table, every other entry is unchanged, the last slot is cleared, counts untouched |
| V8ValueCache.StringCache.Remove | Source/bindings/v8/V8ValueCache.cpp:59-66 | requires the key to be present (the source's assertion) and performs `Removed` |
| V8ValueCache.StringCache.ClearOnGC | Source/bindings/v8/V8ValueCache.cpp:63-65 | the last-access slot is empty afterwards |
| V8ValueCache.Finalized | Source/bindings/v8/V8ValueCache.cpp:52-57 | the entry is gone and every other entry keeps its handle, the last slot is cleared, the string's count drops by exactly one and no other count moves; the invariant and the foreign references are preserved |
| V8ValueCache.StringCache.MakeWeakCallback | Source/bindings/v8/V8ValueCache.cpp:52-57 | with the cache passed explicitly, performs `Finalized` and keeps `Valid` |
| V8ValueCache.StringCache.Deref | Source/bindings/v8/V8ValueCache.cpp:56 | the string's count drops by one |
| V8ValueCache.Created | Source/bindings/v8/V8ValueCache.cpp:83-100 | failure returns the empty handle with nothing changed; success gives a new handle, maps the string to it, sets the last slot to it, adds exactly one reference to that string alone; a miss keeps the invariant and the foreign references |
| V8ValueCache.StringCache.Ref | Source/bindings/v8/V8ValueCache.cpp:92 | the string's count rises by one |
| V8ValueCache.Engine.MakeWeak | Source/bindings/v8/V8ValueCache.cpp:94 | the handle becomes weak with the string as its finaliser parameter |
| V8ValueCache.StringCache.CreateStringAndInsertIntoCache | Source/bindings/v8/V8ValueCache.cpp:83-100 | the new cache and engine state and the result are those of `Created` for the allocator's outcome |
| V8ValueCache.Resolved | Source/bindings/v8/V8ValueCache.cpp:68-81 | the canonical empty string is returned exactly for zero-length strings; an empty handle means nothing changed; the invariant and the reference accounting are preserved |
| V8ValueCache.StringCache.V8ExternalStringSlow | Source/bindings/v8/V8ValueCache.cpp:68-81 | the new state and result are those of `Resolved` for the allocator's outcome, and `Valid` is kept |
| V8ValueCache.EmptyStringShortcut | Source/bindings/v8/V8ValueCache.cpp:70-71 | a zero-length string yields the canonical empty handle and leaves table, slot, counts and engine unchanged |
| V8ValueCache.CacheHit | Source/bindings/v8/V8ValueCache.cpp:73-78 | under the invariant a present entry is weak; a hit returns the stored handle, sets the last slot to it, and changes nothing else, whatever the allocator would do |
| V8ValueCache.AllocationFailure | Source/bindings/v8/V8ValueCache.cpp:85-88 | a miss whose allocation fails returns the empty handle and changes nothing |
| V8ValueCache.SuccessfulCreation | Source/bindings/v8/V8ValueCache.cpp:90-98 | a successful miss returns a handle distinct from every cached one, maps the string to it, sets the last slot, adds exactly one reference and changes no other entry or count |
| V8ValueCache.ResolveTwice | Source/bindings/v8/V8ValueCache.cpp:73-96 | a second resolve with no collection between returns the same handle and changes nothing, so only the first call can take the creation path |
| V8ValueCache.FinalizeUndoesCreation | Source/bindings/v8/V8ValueCache.cpp:52-98 | finalising a freshly created entry restores the table and every reference count |
| V8ValueCache.StaleHandleNotReturned | Source/bindings/v8/V8ValueCache.cpp:59-66 | after an entry is finalised no resolve of any string returns its handle |
| V8ValueCache.HelloScenario | Source/bindings/v8/V8ValueCache.cpp:68-100 | resolve, resolve again, finalise, resolve: the handle is reused, then replaced by a new object, with table size and count moving 1/2, 1/2, 0/1, 1 |
| V8ValueCache.Run | Source/bindings/v8/V8ValueCache.cpp:52-100 | any sequence of resolves and finalisations keeps the invariant, and each string carries exactly one cache-owned reference while it has an entry |
| HTMLMeter.Min | Source/core/html/HTMLMeterElement.cpp:73-76 | the parsed min attribute, or 0 when it is missing or invalid |
| HTMLMeter.Max | Source/core/html/HTMLMeterElement.cpp:87-90 | at least min; one of min, the parsed attribute or the default 1; without a usable attribute, the larger of 1 and min |
| HTMLMeter.Value | Source/core/html/HTMLMeterElement.cpp:101-105 | lies in [min, max]; an in-range parsed value is kept; the default is 0 before clamping |
| HTMLMeter.Low | Source/core/html/HTMLMeterElement.cpp:116-120 | lies in [min, max] and defaults to min |
| HTMLMeter.High | Source/core/html/HTMLMeterElement.cpp:131-135 | lies in [low, max] and defaults to max |
| HTMLMeter.Optimum | Source/core/html/HTMLMeterElement.cpp:146-150 | lies in [min, max] and defaults to the midpoint of min and max |
| HTMLMeter.GaugeRegionOf | Source/core/html/HTMLMeterElement.cpp:161-192 | never even-less-good when the optimum lies in [low, high]; a value at the optimum point is always in the optimum region |
| HTMLMeter.ValueRatio | Source/core/html/HTMLMeterElement.cpp:194-203 | in [0, 1]; 0 when max <= min; otherwise the fraction r with r * (max - min) == value - min |
| HTMLMeter.GettersFollowStandard | Source/core/html/HTMLMeterElement.cpp:73-192 | the getters and gaugeRegion equal the standard's step-by-step definitions of minimum, maximum, actual value, low and high boundaries, optimum point and regions |
| HTMLMeter.Ordering | Source/core/html/HTMLMeterElement.cpp:73-150 | min <= low <= high <= max, and value and optimum lie in [min, max] |
| HTMLMeter.Assigned | Source/core/html/HTMLMeterElement.cpp:78-85 | non-finite input gives NotSupportedError and leaves the attributes unchanged; finite input stores the reparsed number under its own attribute and no other |
| HTMLMeter.SetMinEffect | Source/core/html/HTMLMeterElement.cpp:78-85 | after a finite setMin, min is the stored (reparsed) number |
| HTMLMeter.SetMaxEffect | Source/core/html/HTMLMeterElement.cpp:92-99 | after a finite setMax(x), min is unchanged and max is the larger of the stored number and min |
| HTMLMeter.SetValueOnlyMovesValue | Source/core/html/HTMLMeterElement.cpp:107-114 | a finite setValue(x) changes no getter but value, which becomes the stored number clamped to [min, max] |
| HTMLMeter.SetLowOnlyMovesLow | Source/core/html/HTMLMeterElement.cpp:122-129 | a finite setLow(x) keeps min, max, value and optimum, and low becomes the stored number clamped to [min, max] |
| HTMLMeter.SetHighOnlyMovesHigh | Source/core/html/HTMLMeterElement.cpp:137-144 | a finite setHigh(x) keeps min, max, low, value and optimum, and high becomes the stored number clamped to [low, max] |
| HTMLMeter.SetOptimumOnlyMovesOptimum | Source/core/html/HTMLMeterElement.cpp:152-159 | a finite setOptimum(x) changes no getter but optimum, which becomes the stored number clamped to [min, max] |
| HTMLMeter.HTMLMeterElement.SetMin | Source/core/html/HTMLMeterElement.cpp:78-85 | attributes and exception code are those of `Assigned` for the min attribute |
| HTMLMeter.HTMLMeterElement.SetMax | Source/core/html/HTMLMeterElement.cpp:92-99 | attributes and exception code are those of `Assigned` for the max attribute |
| HTMLMeter.HTMLMeterElement.SetValue | Source/core/html/HTMLMeterElement.cpp:107-114 | attributes and exception code are those of `Assigned` for the value attribute |
| HTMLMeter.HTMLMeterElement.SetLow | Source/core/html/HTMLMeterElement.cpp:122-129 | attributes and exception code are those of `Assigned` for the low attribute |
| HTMLMeter.HTMLMeterElement.SetHigh | Source/core/html/HTMLMeterElement.cpp:137-144 | attributes and exception code are those of `Assigned` for the high attribute |
| HTMLMeter.HTMLMeterElement.SetOptimum | Source/core/html/HTMLMeterElement.cpp:152-159 | attributes and exception code are those of `Assigned` for the optimum attribute |
| HTMLMeter.HTMLMeterElement.ParseAttribute | Source/core/html/HTMLMeterElement.cpp:65-71 | the element-state-change hook runs exactly for the six numeric attributes; every other name goes to the base class |

## Left out

- The inline fast path `StringCache::v8ExternalString` and the body of `clearOnGC` are in `V8ValueCache.h`, which is not part of this model. `clearOnGC` is modelled as clearing the last-access slot, the purpose its call site states.
- V8 engine internals are abstract: handle memory, `newLocal`, the `Persistent` constructor (the model reuses the same handle), `MarkIndependent` (a collector hint with no effect on cache state) and `Dispose` (no effect on model state).
- V8ValueCache.StringCache.MakeWeakCallback: besides presence of the key (the assertion in `remove`), it requires the string's count to be at least one, which the C++ leaves to `deref` on a live object. Under the invariant this always holds.
- The reference that a `WebCoreStringResource` holds through its own `String` copy is not modelled. Neither is the temporary `String(stringImpl)` at line 85, whose effect on the count is zero. Only the reference the cache takes with `ref()` is counted.
- Whole-cache teardown is not in `V8ValueCache.cpp` and is not modelled.
- Concurrency: the cache is single-threaded. Collection is modelled as a `Collect` event between operations; a finaliser firing inside an allocation is not modelled.
- Number parsing with `parseToDoubleForNumberType` and serialisation with `String::number` are not modelled. An attribute is its parse result `Option<real>`. A setter takes as a parameter the number that `String::number`'s text parses back to, and the setter lemmas hold for any such number; how that number relates to the setter's argument (rounding to a limited number of significant digits) is not modelled.
- IEEE-754 behaviour (rounding, infinities, NaN ordering in `std::min`/`std::max`) is not modelled: numbers are reals, and non-finite numbers exist only as setter input, which the guard rejects.
- Rendering and shadow DOM are not modelled: `createRenderer`, `renderMeter`, `didAddUserAgentShadowRoot`, and the updates in `didElementStateChange` (bar width, pseudo classes, renderer). `ParseAttribute` reports only whether that hook runs. It forwards nothing to `LabelableElement::parseAttribute`, which is not part of this model.
- The standard's regions have no stated boundary convention. `StandardRegion` uses the source's: a value on a boundary belongs to the better region.
