/**
 * WebCore's StringCache (Source/bindings/v8/V8ValueCache.cpp): a table from the identity of a
 * native StringImpl to a weak persistent handle on the V8 external string that shares its
 * characters, a one-entry last-access slot, and the native reference that the cache holds on
 * every string it has externalised.
 *
 * The model has two layers. The pure layer (CacheState, EngineState, World and the functions
 * Touched, Removed, Finalized, MadeExternal, Created, Resolved) says what each operation does to
 * the state; the classes Engine and StringCache hold that state in fields and their methods are
 * proved to perform exactly those transitions. The engine is abstract: NewExternal may fail at
 * any call and otherwise returns a handle on a new string object.
 */
module V8ValueCache {
  import opened Wrappers

  /** Identity of a native StringImpl (its address), not its contents. */
  type StringId = nat

  /** What the cache reads of a native string: its identity, its length and its width. */
  datatype StringImpl = StringImpl(id: StringId, length: nat, is8Bit: bool)

  /** A handle on a V8 string object; handles with equal serials denote the same object. */
  datatype Handle = Handle(serial: nat)

  /** WebCoreStringResource8 (8-bit characters) or WebCoreStringResource16 (16-bit characters). */
  datatype ResourceKind = Resource8 | Resource16

  /** An external-string resource: its kind and the native string whose buffer it lends to V8. */
  datatype Resource = Resource(kind: ResourceKind, buffer: StringId)

  /** A v8::Local<v8::String> as the cache hands it out:
      EmptyHandle is a handle for which IsEmpty() holds (the engine could not allocate);
      CanonicalEmpty is v8::String::Empty, the engine's shared empty string;
      Local(h) is a local handle on the string object h. */
  datatype LocalString = EmptyHandle | CanonicalEmpty | Local(handle: Handle)

  /** The part of the engine the cache depends on.
      next: serial of the next string object NewExternal creates (every earlier one is below it);
      resources: the external resource behind each external string object;
      weak: the handles made weak by MakeWeak, each with the parameter its finaliser receives. */
  datatype EngineState = EngineState(next: nat, resources: map<Handle, Resource>, weak: map<Handle, StringId>)

  /** The cache's fields m_stringCache and m_lastStringImpl/m_lastV8String (None once cleared),
      and the native reference counts (a string absent from refs has count zero). */
  datatype CacheState = CacheState(table: map<StringId, Handle>, last: Option<(StringId, Handle)>, refs: map<StringId, nat>)

  datatype World = World(cache: CacheState, engine: EngineState)

  /** The world after an operation, and the handle the operation returned. */
  datatype Step = Step(world: World, result: LocalString)

  function RefCount(c: CacheState, id: StringId): nat
  {
    if id in c.refs then c.refs[id] else 0
  }

  /** The references to `id` that the cache does not own: each key of the table owns one. */
  function ForeignRefs(c: CacheState, id: StringId): int
  {
    RefCount(c, id) - (if id in c.table then 1 else 0)
  }

  /** UnsafePersistent::isWeak of a stored handle. */
  predicate IsWeak(e: EngineState, h: Handle)
  {
    h in e.weak
  }

  /** Every object the engine knows was created before `next`; only external strings are weak. */
  ghost predicate EngineInv(e: EngineState)
  {
    (forall h :: h in e.resources ==> h.serial < e.next) &&
    (forall h :: h in e.weak ==> h in e.resources)
  }

  /** The last-access slot, when set, holds an entry of the table together with its handle. */
  ghost predicate LastSlotCoherent(c: CacheState)
  {
    c.last.Some? ==> c.last.value.0 in c.table && c.table[c.last.value.0] == c.last.value.1
  }

  /** The cache invariant: the last slot is coherent, and every entry's handle is weak with the
      entry's own string as finaliser parameter (so no two strings share a handle), and the
      string carries the reference the cache took when it created the entry. */
  ghost predicate Inv(w: World)
  {
    EngineInv(w.engine) &&
    LastSlotCoherent(w.cache) &&
    forall id :: id in w.cache.table ==>
      w.cache.table[id] in w.engine.weak && w.engine.weak[w.cache.table[id]] == id &&
      RefCount(w.cache, id) >= 1
  }

  /** Every operation leaves each string's non-cache references as they were: the count moves
      by exactly the change in the string's membership of the table. */
  ghost predicate SameForeignRefs(c: CacheState, c': CacheState)
  {
    forall id :: ForeignRefs(c', id) == ForeignRefs(c, id)
  }

  // ---------------------------------------------------------------- engine

  /** v8::String::NewExternal; `ok` is the engine's choice whether the allocation succeeds. */
  function ExternalCreated(e: EngineState, resource: Resource, ok: bool): (r: (EngineState, LocalString))
    ensures EngineInv(e) ==> EngineInv(r.0)
    ensures r.0.weak == e.weak
  {
    if ok then
      var h := Handle(e.next);
      (e.(next := e.next + 1, resources := e.resources[h := resource]), Local(h))
    else
      (e, EmptyHandle)
  }

  /** Persistent::MakeWeak(parameter, callback): the collector will finalise h with `parameter`. */
  function MadeWeak(e: EngineState, h: Handle, parameter: StringId): EngineState
  {
    e.(weak := e.weak[h := parameter])
  }

  // ---------------------------------------------------------------- cache

  /** StringCache::makeExternalString: wrap the string's buffer in the resource of its width. */
  function MadeExternal(e: EngineState, s: StringImpl, ok: bool): (r: (EngineState, LocalString))
    ensures r.1.EmptyHandle? || r.1.Local?
    ensures r.1.EmptyHandle? <==> !ok
    // on failure the resource is deleted and the engine keeps nothing
    ensures r.1.EmptyHandle? ==> r.0 == e
    ensures r.1.Local? ==>
      r.1.handle.serial == e.next && r.0.next == e.next + 1 && r.0.weak == e.weak &&
      r.1.handle in r.0.resources && r.0.resources == e.resources[r.1.handle := r.0.resources[r.1.handle]] &&
      r.0.resources[r.1.handle].buffer == s.id &&
      (r.0.resources[r.1.handle].kind == Resource8 <==> s.is8Bit)
    ensures EngineInv(e) ==> EngineInv(r.0)
  {
    if s.is8Bit then ExternalCreated(e, Resource(Resource8, s.id), ok)
    else ExternalCreated(e, Resource(Resource16, s.id), ok)
  }

  /** A cache hit refreshes the last-access slot. */
  function Touched(c: CacheState, id: StringId): (c': CacheState)
    requires id in c.table
    ensures LastSlotCoherent(c')
  {
    c.(last := Some((id, c.table[id])))
  }

  /** StringCache::remove: the entry goes, the others stay, and the last slot is cleared. */
  function Removed(c: CacheState, id: StringId): (c': CacheState)
    requires id in c.table
    ensures c'.table.Keys == c.table.Keys - {id}
    ensures forall other :: other in c'.table ==> c'.table[other] == c.table[other]
    ensures c'.last == None && c'.refs == c.refs
  {
    CacheState(c.table - {id}, None, c.refs)
  }

  /** StringCache::makeWeakCallback: remove the entry, dispose the wrapper (no effect on the
      model) and drop the reference the cache took at creation. */
  function Finalized(w: World, id: StringId): (w': World)
    requires id in w.cache.table && RefCount(w.cache, id) >= 1
    ensures w'.cache.table == w.cache.table - {id} && w'.cache.last == None
    ensures RefCount(w'.cache, id) == RefCount(w.cache, id) - 1
    ensures forall other :: other != id ==> RefCount(w'.cache, other) == RefCount(w.cache, other)
    ensures w'.engine == w.engine
    ensures Inv(w) ==> Inv(w')
    ensures SameForeignRefs(w.cache, w'.cache)
  {
    var c := Removed(w.cache, id);
    World(c.(refs := c.refs[id := RefCount(c, id) - 1]), w.engine)
  }

  /** StringCache::createStringAndInsertIntoCache. */
  function Created(w: World, s: StringImpl, ok: bool): (st: Step)
    ensures st.result.EmptyHandle? || st.result.Local?
    ensures st.result.EmptyHandle? <==> !ok
    ensures st.result.EmptyHandle? ==> st.world == w
    ensures st.result.Local? ==>
      var h := st.result.handle;
      h.serial == w.engine.next &&
      st.world.cache.table == w.cache.table[s.id := h] &&
      st.world.cache.last == Some((s.id, h)) &&
      RefCount(st.world.cache, s.id) == RefCount(w.cache, s.id) + 1 &&
      forall other :: other != s.id ==> RefCount(st.world.cache, other) == RefCount(w.cache, other)
    ensures Inv(w) && s.id !in w.cache.table ==> Inv(st.world)
    ensures Inv(w) && s.id !in w.cache.table ==> SameForeignRefs(w.cache, st.world.cache)
  {
    var (e, newString) := MadeExternal(w.engine, s, ok);
    if newString.EmptyHandle? then
      Step(w, newString)
    else
      var wrapper := newString.handle;
      var refs := w.cache.refs[s.id := RefCount(w.cache, s.id) + 1];
      Step(World(CacheState(w.cache.table[s.id := wrapper], Some((s.id, wrapper)), refs),
                 MadeWeak(e, wrapper, s.id)),
           newString)
  }

  /** StringCache::v8ExternalStringSlow: the empty string, a hit on a weak entry, or creation. */
  function Resolved(w: World, s: StringImpl, ok: bool): (st: Step)
    ensures st.result.CanonicalEmpty? <==> s.length == 0
    ensures st.result.EmptyHandle? ==> st.world == w
    ensures Inv(w) ==> Inv(st.world)
    ensures Inv(w) ==> SameForeignRefs(w.cache, st.world.cache)
  {
    if s.length == 0 then
      Step(w, CanonicalEmpty)
    else if s.id in w.cache.table && IsWeak(w.engine, w.cache.table[s.id]) then
      Step(w.(cache := Touched(w.cache, s.id)), Local(w.cache.table[s.id]))
    else
      Created(w, s, ok)
  }

  // ---------------------------------------------------------------- properties of resolve

  /** A zero-length string gets the canonical empty string; nothing else is touched. */
  lemma EmptyStringShortcut(w: World, s: StringImpl, ok: bool)
    requires s.length == 0
    ensures Resolved(w, s, ok) == Step(w, CanonicalEmpty)
  {
  }

  /** Under the invariant a present entry is always weak, so the defensive branch that re-creates
      a present but non-weak entry is never taken: a hit returns the stored handle, updates only
      the last slot, and allocates nothing whatever the allocator would do. */
  lemma CacheHit(w: World, s: StringImpl, ok: bool)
    requires Inv(w) && s.length > 0 && s.id in w.cache.table
    ensures IsWeak(w.engine, w.cache.table[s.id])
    ensures Resolved(w, s, ok) ==
      Step(World(w.cache.(last := Some((s.id, w.cache.table[s.id]))), w.engine), Local(w.cache.table[s.id]))
  {
  }

  /** A miss whose allocation fails returns the empty handle and changes nothing. */
  lemma AllocationFailure(w: World, s: StringImpl)
    requires Inv(w) && s.length > 0 && s.id !in w.cache.table
    ensures Resolved(w, s, false) == Step(w, EmptyHandle)
  {
  }

  /** A miss whose allocation succeeds returns a handle on a new object, different from every
      handle in the table; the string gains exactly one reference, its entry is the new handle,
      the last slot names it, and every other entry and count are as before. */
  lemma SuccessfulCreation(w: World, s: StringImpl)
    requires Inv(w) && s.length > 0 && s.id !in w.cache.table
    ensures var st := Resolved(w, s, true);
      st.result.Local? &&
      (forall id :: id in w.cache.table ==> w.cache.table[id] != st.result.handle) &&
      st.world.cache.table == w.cache.table[s.id := st.result.handle] &&
      st.world.cache.last == Some((s.id, st.result.handle)) &&
      RefCount(st.world.cache, s.id) == RefCount(w.cache, s.id) + 1 &&
      (forall other :: other != s.id ==> RefCount(st.world.cache, other) == RefCount(w.cache, other))
  {
  }

  /** Resolving a string again with no collection in between returns the same handle and is a
      no-op: the second call neither allocates nor changes the table, the slot or the counts. */
  lemma ResolveTwice(w: World, s: StringImpl, ok1: bool, ok2: bool)
    requires Inv(w) && s.length > 0
    requires Resolved(w, s, ok1).result.Local?
    ensures var st := Resolved(w, s, ok1);
      Resolved(st.world, s, ok2) == st
  {
  }

  /** The finaliser undoes a creation: the table and every reference count are back to what they
      were before the string was first resolved. */
  lemma FinalizeUndoesCreation(w: World, s: StringImpl)
    requires Inv(w) && s.length > 0 && s.id !in w.cache.table
    ensures var st := Resolved(w, s, true);
      s.id in st.world.cache.table && RefCount(st.world.cache, s.id) >= 1 &&
      var w' := Finalized(st.world, s.id);
      w'.cache.table == w.cache.table &&
      forall id :: RefCount(w'.cache, id) == RefCount(w.cache, id)
  {
  }

  /** Once an entry has been finalised, no resolve returns its handle again: a hit finds another
      string's handle, and a creation makes a new object. */
  lemma StaleHandleNotReturned(w: World, id: StringId, s: StringImpl, ok: bool)
    requires Inv(w) && id in w.cache.table
    ensures RefCount(w.cache, id) >= 1
    ensures Resolved(Finalized(w, id), s, ok).result != Local(w.cache.table[id])
  {
  }

  /** The end-to-end scenario: "hello" is created, reused, finalised, and created afresh as a
      different object; each step moves the table size and the reference count as it should. */
  lemma HelloScenario()
    ensures
      var hello := StringImpl(7, 5, true);
      var w0 := World(CacheState(map[], None, map[7 := 1]), EngineState(0, map[], map[]));
      var st1 := Resolved(w0, hello, true);
      var st2 := Resolved(st1.world, hello, true);
      var w3 := Finalized(st2.world, 7);
      var st4 := Resolved(w3, hello, true);
      st1.result == Local(Handle(0)) && |st1.world.cache.table| == 1 && RefCount(st1.world.cache, 7) == 2 &&
      st2.result == st1.result && |st2.world.cache.table| == 1 && RefCount(st2.world.cache, 7) == 2 &&
      |w3.cache.table| == 0 && RefCount(w3.cache, 7) == 1 &&
      st4.result == Local(Handle(1)) && st4.result != st1.result && |st4.world.cache.table| == 1
  {
  }

  // ---------------------------------------------------------------- any interleaving

  /** What can happen to the cache between two observations: a resolve (with the allocator's
      outcome) or the collector finalising the object cached for a string. */
  datatype Event = Resolve(s: StringImpl, ok: bool) | Collect(id: StringId)

  /** One event; a collection of a string with no entry has no object to collect. */
  function Applied(w: World, ev: Event): World
  {
    match ev
    case Resolve(s, ok) => Resolved(w, s, ok).world
    case Collect(id) =>
      if id in w.cache.table && RefCount(w.cache, id) >= 1 then Finalized(w, id) else w
  }

  /** Any sequence of resolves and finalisations keeps the invariant and the reference
      accounting: each string's count is its foreign references plus one exactly while it
      has an entry. */
  function Run(w: World, events: seq<Event>): (w': World)
    ensures Inv(w) ==> Inv(w')
    ensures Inv(w) ==> SameForeignRefs(w.cache, w'.cache)
    decreases |events|
  {
    if events == [] then w else Run(Applied(w, events[0]), events[1..])
  }

  /** A fresh cache over a fresh engine satisfies the invariant. */
  lemma InitialInv(refs: map<StringId, nat>)
    ensures Inv(World(CacheState(map[], None, refs), EngineState(0, map[], map[])))
  {
  }

  // ---------------------------------------------------------------- the objects

  /** The script engine (v8::Isolate) as far as the cache uses it. */
  class Engine {
    var next: nat
    var resources: map<Handle, Resource>
    var weak: map<Handle, StringId>

    function State(): EngineState
      reads this
    {
      EngineState(next, resources, weak)
    }

    constructor ()
      ensures State() == EngineState(0, map[], map[])
    {
      next, resources, weak := 0, map[], map[];
    }

    /** v8::String::NewExternal: may fail at any call; otherwise a new object backed by `resource`. */
    method NewExternal(resource: Resource) returns (newString: LocalString)
      modifies this
      ensures (State(), newString) == ExternalCreated(old(State()), resource, true) ||
              (State(), newString) == ExternalCreated(old(State()), resource, false)
    {
      var ok: bool :| true;
      if ok {
        newString := Local(Handle(next));
        resources := resources[newString.handle := resource];
        next := next + 1;
      } else {
        newString := EmptyHandle;
      }
    }

    /** Persistent::MakeWeak(parameter, callback). */
    method MakeWeak(h: Handle, parameter: StringId)
      modifies this
      ensures State() == MadeWeak(old(State()), h, parameter)
    {
      weak := weak[h := parameter];
    }
  }

  class StringCache {
    var table: map<StringId, Handle>
    var last: Option<(StringId, Handle)>
    var refs: map<StringId, nat>

    function State(): CacheState
      reads this
    {
      CacheState(table, last, refs)
    }

    ghost predicate Valid(isolate: Engine)
      reads this, isolate
    {
      Inv(World(State(), isolate.State()))
    }

    /** An empty cache over strings whose reference counts are `refs`. */
    constructor (refs: map<StringId, nat>)
      ensures State() == CacheState(map[], None, refs)
    {
      table, last := map[], None;
      this.refs := refs;
    }

    /** StringImpl::ref. */
    method Ref(id: StringId)
      modifies this`refs
      ensures refs == old(refs)[id := RefCount(old(State()), id) + 1]
    {
      refs := refs[id := RefCount(State(), id) + 1];
    }

    /** StringImpl::deref; the buffer is freed when the count reaches zero. */
    method Deref(id: StringId)
      requires RefCount(State(), id) >= 1
      modifies this`refs
      ensures refs == old(refs)[id := RefCount(old(State()), id) - 1]
    {
      refs := refs[id := RefCount(State(), id) - 1];
    }

    /** StringCache::clearOnGC: forget the last-access slot. */
    method ClearOnGC()
      modifies this`last
      ensures last == None
    {
      last := None;
    }

    method Remove(stringImpl: StringId)
      requires stringImpl in table
      modifies this
      ensures State() == Removed(old(State()), stringImpl)
    {
      table := table - {stringImpl};
      ClearOnGC();
    }

    static method MakeExternalString(isolate: Engine, s: StringImpl) returns (newString: LocalString)
      modifies isolate
      ensures (isolate.State(), newString) == MadeExternal(old(isolate.State()), s, true) ||
              (isolate.State(), newString) == MadeExternal(old(isolate.State()), s, false)
    {
      if s.is8Bit {
        newString := isolate.NewExternal(Resource(Resource8, s.id));
        return;
      }
      newString := isolate.NewExternal(Resource(Resource16, s.id));
    }

    /** The finaliser the collector runs on an entry's object; the cache is passed explicitly. */
    static method MakeWeakCallback(isolate: Engine, cache: StringCache, wrapper: Handle, stringImpl: StringId)
      requires stringImpl in cache.table && RefCount(cache.State(), stringImpl) >= 1
      modifies cache
      ensures World(cache.State(), isolate.State()) == Finalized(old(World(cache.State(), isolate.State())), stringImpl)
      ensures old(cache.Valid(isolate)) ==> cache.Valid(isolate)
    {
      cache.Remove(stringImpl);
      cache.Deref(stringImpl);
    }

    method V8ExternalStringSlow(stringImpl: StringImpl, isolate: Engine) returns (r: LocalString)
      modifies this, isolate
      ensures Step(World(State(), isolate.State()), r) == Resolved(old(World(State(), isolate.State())), stringImpl, true) ||
              Step(World(State(), isolate.State()), r) == Resolved(old(World(State(), isolate.State())), stringImpl, false)
      ensures old(Valid(isolate)) ==> Valid(isolate)
    {
      if stringImpl.length == 0 {
        return CanonicalEmpty;
      }
      if stringImpl.id in table && IsWeak(isolate.State(), table[stringImpl.id]) {
        var cached := table[stringImpl.id];
        last := Some((stringImpl.id, cached));
        return Local(cached);
      }
      r := CreateStringAndInsertIntoCache(stringImpl, isolate);
    }

    method CreateStringAndInsertIntoCache(stringImpl: StringImpl, isolate: Engine) returns (newString: LocalString)
      modifies this, isolate
      ensures Step(World(State(), isolate.State()), newString) == Created(old(World(State(), isolate.State())), stringImpl, true) ||
              Step(World(State(), isolate.State()), newString) == Created(old(World(State(), isolate.State())), stringImpl, false)
    {
      newString := MakeExternalString(isolate, stringImpl);
      if newString.EmptyHandle? {
        return;
      }
      var wrapper := newString.handle;
      Ref(stringImpl.id);
      isolate.MakeWeak(wrapper, stringImpl.id);
      last := Some((stringImpl.id, wrapper));
      table := table[stringImpl.id := wrapper];
    }
  }
}
