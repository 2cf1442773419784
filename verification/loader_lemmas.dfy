/** Properties of the loader registry and of its load/unload state machine. */
module LoaderProperties {
  import opened Wrappers
  import opened Loaders
  import opened Seqs

  /** Asking twice for the same `(profile, name)` gives back the first instance and
      leaves the registry as the first call left it. */
  lemma GetOrCreateIsIdempotent(gl: GlobalLoader, name: string, cls: ClassDef, cls2: ClassDef, profile: Option<string>)
    requires RegistryOk(gl) && GetOrCreateLoader(gl, name, cls, profile).Ok?
    ensures var first := GetOrCreateLoader(gl, name, cls, profile).value;
            GetOrCreateLoader(first.gl, name, cls2, profile) == Ok(first)
  {
  }

  /** No profile means the default profile. */
  lemma NoProfileIsDefaultProfile(gl: GlobalLoader, name: string, cls: ClassDef)
    requires RegistryOk(gl)
    ensures GetOrCreateLoader(gl, name, cls, None) == GetOrCreateLoader(gl, name, cls, Some(DefaultProfileName))
  {
  }

  /** The same loader name in two different profiles gives two registrations: creating
      it in the second profile keeps the first profile's instance, and asking the first
      profile again returns that instance. */
  lemma ProfilesAreSeparate(gl: GlobalLoader, name: string, cls: ClassDef, cls2: ClassDef, p1: string, p2: string)
    requires RegistryOk(gl) && p1 != p2
    requires GetOrCreateLoader(gl, name, cls, Some(p1)).Ok?
    requires GetOrCreateLoader(GetOrCreateLoader(gl, name, cls, Some(p1)).value.gl, name, cls, Some(p2)).Ok?
    ensures var a := GetOrCreateLoader(gl, name, cls, Some(p1)).value;
            var c := GetOrCreateLoader(a.gl, name, cls, Some(p2)).value;
            && Lookup(c.gl, p1, name) == Some(a.loader)
            && Lookup(c.gl, p2, name) == Some(c.loader)
            && GetOrCreateLoader(c.gl, name, cls2, Some(p1)) == Ok(Created(c.gl, a.loader))
            && (Lookup(gl, p2, name).None? ==> c.loader == NewLoader(cls))
  {
  }

  /** Registering a loader class in a fresh registry under "plop" and then under the
      default profile creates two instances. */
  lemma ProfilesAreSeparateFresh(name: string, cls: ClassDef)
    requires cls.ClassDef? && cls.isLoader && cls.name != "AbstractLoader"
    ensures var a := GetOrCreateLoader(NewGlobalLoader(), name, cls, Some("plop"));
            && a.Ok?
            && GetOrCreateLoader(a.value.gl, name, cls, None).Ok?
  {
    var a := GetOrCreateLoader(NewGlobalLoader(), name, cls, Some("plop"));
    assert Lookup(a.value.gl, DefaultProfileName, name).None? by {
      assert DefaultProfileName != "plop";
    }
  }

  /** A class that is no loader, `AbstractLoader` itself, or no class at all is refused
      when the name is not registered yet. */
  lemma GetOrCreateRefusals(gl: GlobalLoader, name: string, profile: Option<string>, other: string, p: Option<int>, o: bool)
    requires RegistryOk(gl) && Lookup(gl, ProfileOf(profile), name).None?
    ensures GetOrCreateLoader(gl, name, NotAClass, profile) == Err(RegisterError)
    ensures GetOrCreateLoader(gl, name, ClassDef(other, false, p, o), profile) == Err(RegisterError)
    ensures GetOrCreateLoader(gl, name, ClassDef("AbstractLoader", true, p, o), profile) == Err(RegisterError)
  {
  }

  /** The heap hands out each loader of a profile once, by ascending priority and, for
      equal priorities, in registration order. */
  lemma HeapOrder(slots: seq<Slot>)
    ensures var o := SortKeys(Keys(slots));
            && |o| == |slots|
            && (forall i | 0 <= i < |o| :: o[i].order < |slots| && o[i] == Keyed(slots[o[i].order].1.priority, o[i].order, slots[o[i].order].0))
            && (forall k | 0 <= k < |slots| :: Keys(slots)[k] in o)
            && (forall i, j | 0 <= i < j < |o| ::
                  o[i].priority < o[j].priority || (o[i].priority == o[j].priority && o[i].order < o[j].order))
  {
    var o := SortKeys(Keys(slots));
    forall i | 0 <= i < |o| ensures o[i].order < |slots| && o[i] == Keyed(slots[o[i].order].1.priority, o[i].order, slots[o[i].order].0) {
      HeapEntry(slots, i);
    }
    forall k | 0 <= k < |slots| ensures Keys(slots)[k] in o {
      HeapHasKey(slots, k);
    }
    forall i, j | 0 <= i < j < |o|
      ensures o[i].priority < o[j].priority || (o[i].priority == o[j].priority && o[i].order < o[j].order)
    {
      HeapStrict(slots, i, j);
    }
  }

  /** The registration numbers make the heap entries of a profile distinct. */
  lemma KeysDistinct(slots: seq<Slot>)
    ensures Distinct(Keys(slots))
  {
    var keys := Keys(slots);
    forall i, j | 0 <= i < j < |keys| ensures Apart(keys, i, j) {
      assert keys[i].order == i && keys[j].order == j;
    }
  }

  /** Two heap entries are never tied: priority first, then registration order. */
  lemma HeapStrict(slots: seq<Slot>, i: nat, j: nat)
    requires i < j < |SortKeys(Keys(slots))|
    ensures var o := SortKeys(Keys(slots));
            o[i].priority < o[j].priority || (o[i].priority == o[j].priority && o[i].order < o[j].order)
  {
    var o := SortKeys(Keys(slots));
    HeapEntry(slots, i);
    HeapEntry(slots, j);
    KeysDistinct(slots);
    OrdersAreDistinct(Keys(slots), o, i, j);
    assert Le(o[i], o[j]);
  }

  /** Two places of the sorted heap never hold the same loader. */
  lemma OrdersAreDistinct(keys: seq<Keyed>, o: seq<Keyed>, i: nat, j: nat)
    requires Distinct(keys)
    requires multiset(o) == multiset(keys)
    requires i < j < |o|
    ensures o[i] != o[j]
  {
    CountTwo(o, i, j);
    CountAtMostOne(keys, o[i]);
  }

  lemma CountTwo(o: seq<Keyed>, i: nat, j: nat)
    requires i < j < |o|
    ensures o[i] == o[j] ==> multiset(o)[o[i]] >= 2
  {
    assert o == o[..i] + [o[i]] + o[i + 1..j] + [o[j]] + o[j + 1..];
  }

  lemma {:induction false} CountAtMostOne(keys: seq<Keyed>, x: Keyed)
    requires Distinct(keys)
    ensures multiset(keys)[x] <= 1
  {
    if |keys| > 0 {
      var last := keys[|keys| - 1];
      var front := keys[..|keys| - 1];
      assert keys == front + [last];
      DistinctFront(keys);
      CountAtMostOne(front, x);
    }
  }

  /** A run calls the loaders of the profile in heap order, every one of them whatever
      the others do; it raises exactly when some call raised, and the state it records
      says so. */
  lemma RunCallsEveryLoaderInOrder(gl: GlobalLoader, m: Method, p: string, next: LoadState, nextIfError: LoadState,
                                   fails: (Loader, Method, string) -> bool)
    requires RegistryOk(gl) && p in gl.profiles
    ensures var r := InnerLoad(gl, m, p, next, nextIfError, fails);
            var slots := gl.profiles[p];
            && |r.trace| == |slots|
            && (forall k | 0 <= k < |slots| :: slots[k].0 in r.trace)
            && (forall k | 0 <= k < |slots| :: r.gl.profiles[p][k].1.lastFailed == Fails(fails, slots[k].1, m, p))
            && (r.error.Some? <==> exists k | 0 <= k < |slots| :: Fails(fails, slots[k].1, m, p))
            && r.gl.last == Some(LastUpdate(p, if r.error.Some? then nextIfError else next))
  {
    var slots := gl.profiles[p];
    HeapOrder(slots);
    var o := SortKeys(Keys(slots));
    forall k | 0 <= k < |slots| ensures slots[k].0 in Names(o) {
      assert Keys(slots)[k] in o;
      var i :| 0 <= i < |o| && o[i] == Keys(slots)[k];
      assert Names(o)[i] == slots[k].0;
    }
  }

  /** Loading a profile nobody registered a loader for changes nothing: the state is
      not even recorded. */
  lemma LoadUnknownProfileChangesNothing(gl: GlobalLoader, p: string, fails: (Loader, Method, string) -> bool)
    requires RegistryOk(gl) && p !in gl.profiles
    requires gl.last.None? || LoadAllowed(gl.last.value.state)
    ensures Load(gl, Some(p), fails) == Outcome(gl, None, [])
  {
  }

  /** While a profile is loaded, loading it again is silent and loading another one
      raises; unloading or reloading any other profile raises. */
  lemma LoadedProfileGuards(gl: GlobalLoader, p: string, q: string, fails: (Loader, Method, string) -> bool)
    requires RegistryOk(gl) && IsLoaded(gl, p) && q != p
    ensures Load(gl, Some(p), fails) == Outcome(gl, None, [])
    ensures Load(gl, Some(q), fails) == Outcome(gl, Some(LoadError), [])
    ensures Unload(gl, Some(q), fails) == Outcome(gl, Some(LoadError), [])
    ensures Reload(gl, Some(q), fails) == Outcome(gl, Some(LoadError), [])
  {
  }

  /** A run in which no loader raises records the state it aims at and keeps the
      profile. */
  lemma CleanRun(gl: GlobalLoader, m: Method, p: string, next: LoadState, nextIfError: LoadState,
                 fails: (Loader, Method, string) -> bool)
    requires RegistryOk(gl) && p in gl.profiles
    requires forall l, m, q :: !fails(l, m, q)
    ensures var r := InnerLoad(gl, m, p, next, nextIfError, fails);
            r.error.None? && r.gl.last == Some(LastUpdate(p, next)) && p in r.gl.profiles
  {
  }

  /** With loaders that never raise, a fresh registry goes load, reload, unload, load
      through LOADED, LOADED, UNLOADED, LOADED. */
  lemma LoadUnloadCycle(gl: GlobalLoader, p: string, fails: (Loader, Method, string) -> bool)
    requires RegistryOk(gl) && p in gl.profiles && gl.last.None?
    requires forall l, m, q :: !fails(l, m, q)
    ensures var a := Load(gl, Some(p), fails);
            && a.error.None? && a.gl.last == Some(LastUpdate(p, Loaded))
            && var b := Reload(a.gl, Some(p), fails);
               && b.error.None? && b.gl.last == Some(LastUpdate(p, Loaded))
               && var c := Unload(b.gl, Some(p), fails);
                  && c.error.None? && c.gl.last == Some(LastUpdate(p, Unloaded))
                  && var d := Load(c.gl, Some(p), fails);
                     d.error.None? && d.gl.last == Some(LastUpdate(p, Loaded))
  {
    CleanRun(gl, LoadMethod, p, Loaded, LoadedWithErrors, fails);
    var a := Load(gl, Some(p), fails);
    assert a == InnerLoad(gl, LoadMethod, p, Loaded, LoadedWithErrors, fails);
    CleanRun(a.gl, ReloadMethod, p, Loaded, LoadedWithErrors, fails);
    var b := Reload(a.gl, Some(p), fails);
    assert b == InnerLoad(a.gl, ReloadMethod, p, Loaded, LoadedWithErrors, fails);
    CleanRun(b.gl, UnloadMethod, p, Unloaded, UnloadedWithErrors, fails);
    var c := Unload(b.gl, Some(p), fails);
    assert c == InnerLoad(b.gl, UnloadMethod, p, Unloaded, UnloadedWithErrors, fails);
    CleanRun(c.gl, LoadMethod, p, Loaded, LoadedWithErrors, fails);
    var d := Load(c.gl, Some(p), fails);
    assert d == InnerLoad(c.gl, LoadMethod, p, Loaded, LoadedWithErrors, fails);
  }

  /** A load in which some loader raised leaves the profile LOADED_E, which can still be
      unloaded. */
  lemma FailedLoadCanBeUnloaded(gl: GlobalLoader, p: string, fails: (Loader, Method, string) -> bool, k: nat)
    requires RegistryOk(gl) && p in gl.profiles && gl.last.None?
    requires k < |gl.profiles[p]| && Fails(fails, gl.profiles[p][k].1, LoadMethod, p)
    ensures var a := Load(gl, Some(p), fails);
            && a.error.Some? && a.error.value.Errors?
            && a.gl.last == Some(LastUpdate(p, LoadedWithErrors))
            && IsLoaded(a.gl, p)
  {
  }

  /** The inherited `reload` raises exactly when `unload` or `load` would: a reload of a
      profile whose loaders keep the inherited method fails exactly when one of them
      fails to unload or to load. */
  lemma InheritedReloadIsUnloadThenLoad(gl: GlobalLoader, p: string, fails: (Loader, Method, string) -> bool)
    requires RegistryOk(gl) && IsLoaded(gl, p) && p in gl.profiles
    requires forall k | 0 <= k < |gl.profiles[p]| :: gl.profiles[p][k].1.cls.ClassDef? && !gl.profiles[p][k].1.cls.ownReload
    ensures Reload(gl, Some(p), fails).error.Some? <==>
              exists k | 0 <= k < |gl.profiles[p]| ::
                fails(gl.profiles[p][k].1, UnloadMethod, p) || fails(gl.profiles[p][k].1, LoadMethod, p)
  {
    RunCallsEveryLoaderInOrder(gl, ReloadMethod, p, Loaded, LoadedWithErrors, fails);
  }

  /** The profile state machine, from any registry: an allowed load ends in LOADED or
      LOADED_E, an allowed unload in UNLOADED or UNLOADED_E, and an allowed reload in
      LOADED or LOADED_E, each with the error state exactly when some loader raised; a
      profile without loaders keeps the registry as it is. */
  lemma StateMachine(gl: GlobalLoader, p: string, fails: (Loader, Method, string) -> bool)
    requires RegistryOk(gl)
    ensures gl.last.None? || LoadAllowed(gl.last.value.state) ==>
              var r := Load(gl, Some(p), fails);
              && (p in gl.profiles ==>
                    && (r.error.Some? <==> exists k | 0 <= k < |gl.profiles[p]| :: Fails(fails, gl.profiles[p][k].1, LoadMethod, p))
                    && r.gl.last == Some(LastUpdate(p, if r.error.Some? then LoadedWithErrors else Loaded))
                    && IsLoaded(r.gl, p))
              && (p !in gl.profiles ==> r == Outcome(gl, None, []))
    ensures IsLoaded(gl, p) ==>
              var r := Unload(gl, Some(p), fails);
              && (p in gl.profiles ==>
                    && (r.error.Some? <==> exists k | 0 <= k < |gl.profiles[p]| :: Fails(fails, gl.profiles[p][k].1, UnloadMethod, p))
                    && r.gl.last == Some(LastUpdate(p, if r.error.Some? then UnloadedWithErrors else Unloaded))
                    && LoadAllowed(r.gl.last.value.state))
              && (p !in gl.profiles ==> r == Outcome(gl, None, []))
    ensures IsLoaded(gl, p) ==>
              var r := Reload(gl, Some(p), fails);
              && (p in gl.profiles ==>
                    && (r.error.Some? <==> exists k | 0 <= k < |gl.profiles[p]| :: Fails(fails, gl.profiles[p][k].1, ReloadMethod, p))
                    && r.gl.last == Some(LastUpdate(p, if r.error.Some? then LoadedWithErrors else Loaded)))
              && IsLoaded(Reload(gl, Some(p), fails).gl, p)
  {
  }
}
