/** The loader registry of an addon: per profile, the loaders registered under their
    names, and the state machine that loads, unloads and reloads a whole profile by
    calling its loaders in priority order. */
module Loaders {
  import opened Wrappers
  import opened Seqs

  /** The profile used when none is given (its value lives in a constants module that
      is not part of this model). */
  const DefaultProfileName: string := "default"

  /** The priority `AbstractLoader.__init__` gives when none is passed. */
  const DefaultPriority: int := 100

  datatype LoadState = Loaded | LoadedWithErrors | Unloaded | UnloadedWithErrors

  datatype Method = LoadMethod | UnloadMethod | ReloadMethod

  /** A class handed to `getOrCreateLoader`: not a class at all, or a class with its
      name, whether it inherits from `AbstractLoader`, the priority its constructor
      passes up (`None` when it relies on the default), and whether it overrides
      `reload`. */
  datatype ClassDef =
    | NotAClass
    | ClassDef(name: string, isLoader: bool, priority: Option<int>, ownReload: bool)

  /** One registered dependency: an addon name and, optionally, its profile. */
  datatype Dependency = Dependency(addon: string, profile: Option<string>)

  /** A loader instance: its class, priority, whether its last call raised, and the
      dependency list a dependency loader keeps (empty for other classes). */
  datatype Loader = Loader(cls: ClassDef, priority: int, lastFailed: bool, dep: seq<Dependency>)

  /** `RegisterException`, `LoadException`, an `AttributeError` raised by reading a
      missing attribute, or the collected exceptions of a run, named by the loaders that
      raised them. */
  datatype LoaderError = RegisterError | LoadError | AttributeMissing | Errors(failed: seq<string>)

  type Slot = (string, Loader)

  datatype LastUpdate = LastUpdate(profile: string, state: LoadState)

  /** `GlobalLoader`: the loaders of each profile in registration order, and the last
      profile a run updated with the state it left. */
  datatype GlobalLoader = GlobalLoader(profiles: map<string, seq<Slot>>, last: Option<LastUpdate>)

  /** The names of a profile's loaders, in registration order. */
  function SlotNames(slots: seq<Slot>): (r: seq<string>)
    ensures |r| == |slots| && forall i | 0 <= i < |slots| :: r[i] == slots[i].0
  {
    seq(|slots|, i requires 0 <= i < |slots| => slots[i].0)
  }

  /** A profile's loaders form a dictionary: no name is registered twice. */
  predicate DistinctNames(slots: seq<Slot>) {
    Distinct(SlotNames(slots))
  }

  predicate RegistryOk(gl: GlobalLoader) {
    forall p | p in gl.profiles :: DistinctNames(gl.profiles[p])
  }

  function NewGlobalLoader(): (r: GlobalLoader)
    ensures RegistryOk(r) && r.last.None?
  {
    GlobalLoader(map[], None)
  }

  /** A missing profile means the default one. */
  function ProfileOf(profile: Option<string>): (r: string)
    ensures profile.None? ==> r == DefaultProfileName
    ensures profile.Some? ==> r == profile.value
  {
    profile.GetOr(DefaultProfileName)
  }

  /** The loader registered under `(profile, name)`, if any. */
  function Lookup(gl: GlobalLoader, profile: string, name: string): Option<Loader> {
    if profile !in gl.profiles then None
    else match IndexOf(SlotNames(gl.profiles[profile]), name)
      case None => None
      case Some(i) => Some(gl.profiles[profile][i].1)
  }

  /** `class_definition()`: a fresh instance. */
  function NewLoader(cls: ClassDef): (r: Loader)
    requires cls.ClassDef?
    ensures r.cls == cls && !r.lastFailed && r.dep == []
    ensures cls.priority.None? ==> r.priority == 100
    ensures cls.priority.Some? ==> r.priority == cls.priority.value
  {
    Loader(cls, cls.priority.GetOr(DefaultPriority), false, [])
  }

  datatype Created = Created(gl: GlobalLoader, loader: Loader)

  /** `getOrCreateLoader`: the loader already registered under the name in the profile,
      or a new instance of the class, which must be a proper subclass of
      `AbstractLoader`. */
  function GetOrCreateLoader(gl: GlobalLoader, name: string, cls: ClassDef, profile: Option<string>)
    : (r: Result<Created, LoaderError>)
    requires RegistryOk(gl)
    ensures Lookup(gl, ProfileOf(profile), name).Some? ==>
              r == Ok(Created(gl, Lookup(gl, ProfileOf(profile), name).value))
    ensures Lookup(gl, ProfileOf(profile), name).None? ==>
              (r.Ok? <==> cls.ClassDef? && cls.isLoader && cls.name != "AbstractLoader")
              && (r.Ok? ==> r.value.loader == NewLoader(cls))
    ensures r.Err? ==> r == Err(RegisterError)
    ensures r.Ok? ==> && RegistryOk(r.value.gl) && r.value.gl.last == gl.last
                      && Lookup(r.value.gl, ProfileOf(profile), name) == Some(r.value.loader)
                      && forall q, n | q != ProfileOf(profile) || n != name :: Lookup(r.value.gl, q, n) == Lookup(gl, q, n)
  {
    var p := ProfileOf(profile);
    match Lookup(gl, p, name)
    case Some(l) => Ok(Created(gl, l))
    case None =>
      if cls.NotAClass? || !cls.isLoader || cls.name == "AbstractLoader" then Err(RegisterError)
      else
        var slots := if p in gl.profiles then gl.profiles[p] else [];
        var l := NewLoader(cls);
        var slots' := slots + [(name, l)];
        assert SlotNames(slots') == SlotNames(slots) + [name];
        DistinctAppend(SlotNames(slots), name);
        forall n ensures IndexOf(SlotNames(slots'), n) == if n == name then Some(|slots|) else IndexOf(SlotNames(slots), n) {
          IndexOfAppend(SlotNames(slots), name, n);
        }
        Ok(Created(gl.(profiles := gl.profiles[p := slots']), l))
  }

  /** Replaces the instance registered under `(profile, name)`. */
  function SetLoader(gl: GlobalLoader, profile: string, name: string, l: Loader): (r: GlobalLoader)
    requires RegistryOk(gl) && Lookup(gl, profile, name).Some?
    ensures RegistryOk(r) && r.last == gl.last && r.profiles.Keys == gl.profiles.Keys
    ensures Lookup(r, profile, name) == Some(l)
    ensures forall q, n | q != profile || n != name :: Lookup(r, q, n) == Lookup(gl, q, n)
  {
    var slots := gl.profiles[profile];
    var i := IndexOf(SlotNames(slots), name).value;
    var slots' := slots[i := (name, l)];
    assert SlotNames(slots') == SlotNames(slots);
    gl.(profiles := gl.profiles[profile := slots'])
  }

  // ---------------------------------------------------------------------------
  // Priority order (utils.py:153-163)
  // ---------------------------------------------------------------------------

  /** The heap entry of a loader: `(priority, insert_order, loader)`. */
  datatype Keyed = Keyed(priority: int, order: nat, name: string)

  /** The heap pops the smaller `(priority, insert_order)` first. */
  predicate Le(a: Keyed, b: Keyed) {
    a.priority < b.priority || (a.priority == b.priority && a.order <= b.order)
  }

  predicate Sorted(s: seq<Keyed>) {
    forall i, j | 0 <= i < j < |s| :: Le(s[i], s[j])
  }

  function Insert(x: Keyed, s: seq<Keyed>): (r: seq<Keyed>)
    requires Sorted(s)
    ensures Sorted(r) && multiset(r) == multiset(s) + multiset{x} && |r| == |s| + 1
  {
    if |s| == 0 then [x]
    else if Le(x, s[0]) then [x] + s
    else
      var rest := Insert(x, s[1..]);
      assert s == [s[0]] + s[1..];
      assert forall k | 0 <= k < |rest| :: Le(s[0], rest[k]) by {
        forall k | 0 <= k < |rest| ensures Le(s[0], rest[k]) {
          assert rest[k] in multiset(rest);
        }
      }
      [s[0]] + rest
  }

  /** The order in which the heap hands out its entries. */
  function SortKeys(s: seq<Keyed>): (r: seq<Keyed>)
    ensures Sorted(r) && multiset(r) == multiset(s) && |r| == |s|
  {
    if |s| == 0 then []
    else
      assert s == [s[0]] + s[1..];
      Insert(s[0], SortKeys(s[1..]))
  }

  /** The heap entries of a profile's loaders, numbered in registration order. */
  function Keys(slots: seq<Slot>): (r: seq<Keyed>)
    ensures |r| == |slots|
    ensures forall i | 0 <= i < |r| :: r[i] == Keyed(slots[i].1.priority, i, slots[i].0)
  {
    seq(|slots|, i requires 0 <= i < |slots| => Keyed(slots[i].1.priority, i, slots[i].0))
  }

  function Names(s: seq<Keyed>): (r: seq<string>)
    ensures |r| == |s| && forall i | 0 <= i < |s| :: r[i] == s[i].name
  {
    seq(|s|, i requires 0 <= i < |s| => s[i].name)
  }

  // ---------------------------------------------------------------------------
  // Running a profile (utils.py:139-183)
  // ---------------------------------------------------------------------------

  /** Whether a loader's method raises: the subclass decides for `load` and `unload`,
      and for `reload` when it overrides it; the inherited `reload` is `unload` then
      `load`, and raises when either does. */
  function Fails(fails: (Loader, Method, string) -> bool, l: Loader, m: Method, p: string): bool {
    if m == ReloadMethod && !(l.cls.ClassDef? && l.cls.ownReload) then
      fails(l, UnloadMethod, p) || fails(l, LoadMethod, p)
    else fails(l, m, p)
  }

  /** Every loader of the profile after the run: its `last_exception` records whether
      its call raised. */
  function MarkAll(slots: seq<Slot>, fails: (Loader, Method, string) -> bool, m: Method, p: string): (r: seq<Slot>)
    ensures |r| == |slots|
    ensures forall i | 0 <= i < |slots| ::
              r[i] == (slots[i].0, slots[i].1.(lastFailed := Fails(fails, slots[i].1, m, p)))
    ensures SlotNames(r) == SlotNames(slots)
  {
    seq(|slots|, i requires 0 <= i < |slots| =>
      (slots[i].0, slots[i].1.(lastFailed := Fails(fails, slots[i].1, m, p))))
  }

  /** The names of the loaders that raised, in the order they were called. */
  function FailedNames(order: seq<Keyed>, slots: seq<Slot>, fails: (Loader, Method, string) -> bool, m: Method, p: string)
    : (r: seq<string>)
    requires forall i | 0 <= i < |order| :: order[i].order < |slots|
    ensures |r| == 0 <==> forall i | 0 <= i < |order| :: !Fails(fails, slots[order[i].order].1, m, p)
  {
    if |order| == 0 then []
    else
      (if Fails(fails, slots[order[0].order].1, m, p) then [order[0].name] else [])
      + FailedNames(order[1..], slots, fails, m, p)
  }

  /** The heap hands out every loader of the profile, so some call raises exactly when
      some loader of the profile fails. */
  lemma RunReachesEveryLoader(slots: seq<Slot>, fails: (Loader, Method, string) -> bool, m: Method, p: string)
    ensures forall i | 0 <= i < |SortKeys(Keys(slots))| :: SortKeys(Keys(slots))[i].order < |slots|
    ensures (exists i | 0 <= i < |slots| :: Fails(fails, slots[i].1, m, p)) <==>
            |FailedNames(SortKeys(Keys(slots)), slots, fails, m, p)| > 0
  {
    var order := SortKeys(Keys(slots));
    forall i | 0 <= i < |order| ensures order[i].order < |slots| && order[i] == Keys(slots)[order[i].order] {
      HeapEntry(slots, i);
    }
    if i :| 0 <= i < |slots| && Fails(fails, slots[i].1, m, p) {
      HeapHasKey(slots, i);
    }
  }

  /** Each heap entry is the entry of the loader registered at its order. */
  lemma HeapEntry(slots: seq<Slot>, i: nat)
    requires i < |SortKeys(Keys(slots))|
    ensures var o := SortKeys(Keys(slots));
            o[i].order < |slots| && o[i] == Keys(slots)[o[i].order]
  {
    assert SortKeys(Keys(slots))[i] in multiset(Keys(slots));
  }

  /** Every registered loader has its entry in the heap. */
  lemma HeapHasKey(slots: seq<Slot>, k: nat)
    requires k < |slots|
    ensures Keys(slots)[k] in SortKeys(Keys(slots))
  {
    assert Keys(slots)[k] in multiset(SortKeys(Keys(slots)));
  }


  /** What a run leaves: the registry, the exception raised if any, and the names of
      the loaders in the order they were called. */
  datatype Outcome = Outcome(gl: GlobalLoader, error: Option<LoaderError>, trace: seq<string>)

  /** `_innerLoad`: an unknown profile is left alone; otherwise every loader of the
      profile is called once, in heap order, whatever the others do, and the profile's
      state becomes `next`, or `nextIfError` with the collected exceptions raised when
      any call raised. */
  function InnerLoad(gl: GlobalLoader, m: Method, p: string, next: LoadState, nextIfError: LoadState,
                     fails: (Loader, Method, string) -> bool): (r: Outcome)
    requires RegistryOk(gl)
    ensures RegistryOk(r.gl)
    ensures p !in gl.profiles ==> r == Outcome(gl, None, [])
    ensures p in gl.profiles ==>
              var slots := gl.profiles[p];
              && r.trace == Names(SortKeys(Keys(slots)))
              && r.gl.profiles == gl.profiles[p := MarkAll(slots, fails, m, p)]
              && ((exists i | 0 <= i < |slots| :: Fails(fails, slots[i].1, m, p)) <==> r.error.Some?)
              && r.gl.last == Some(LastUpdate(p, if r.error.Some? then nextIfError else next))
  {
    if p !in gl.profiles then Outcome(gl, None, [])
    else
      var slots := gl.profiles[p];
      var order := SortKeys(Keys(slots));
      RunReachesEveryLoader(slots, fails, m, p);
      var failed := FailedNames(order, slots, fails, m, p);
      var marked := MarkAll(slots, fails, m, p);
      var gl' := gl.(profiles := gl.profiles[p := marked]);
      assert RegistryOk(gl');
      if |failed| > 0 then Outcome(gl'.(last := Some(LastUpdate(p, nextIfError))), Some(Errors(failed)), Names(order))
      else Outcome(gl'.(last := Some(LastUpdate(p, next))), None, Names(order))
  }

  predicate LoadAllowed(s: LoadState) { s == Unloaded || s == UnloadedWithErrors }

  predicate UnloadAllowed(s: LoadState) { s == Loaded || s == LoadedWithErrors }

  /** `load`: while some profile is loaded, loading it again does nothing and loading
      another one raises. */
  function Load(gl: GlobalLoader, profile: Option<string>, fails: (Loader, Method, string) -> bool): (r: Outcome)
    requires RegistryOk(gl)
    ensures RegistryOk(r.gl)
    ensures gl.last.Some? && !LoadAllowed(gl.last.value.state) ==>
              r == Outcome(gl, if ProfileOf(profile) == gl.last.value.profile then None else Some(LoadError), [])
    ensures gl.last.None? || LoadAllowed(gl.last.value.state) ==>
              r == InnerLoad(gl, LoadMethod, ProfileOf(profile), Loaded, LoadedWithErrors, fails)
  {
    var p := ProfileOf(profile);
    if gl.last.Some? && !LoadAllowed(gl.last.value.state) then
      if p == gl.last.value.profile then Outcome(gl, None, [])
      else Outcome(gl, Some(LoadError), [])
    else InnerLoad(gl, LoadMethod, p, Loaded, LoadedWithErrors, fails)
  }

  /** The guard `unload` and `reload` share: the profile is the one last loaded. */
  predicate IsLoaded(gl: GlobalLoader, p: string) {
    gl.last.Some? && gl.last.value.profile == p && UnloadAllowed(gl.last.value.state)
  }

  /** `unload`: only the profile last loaded can be unloaded. */
  function Unload(gl: GlobalLoader, profile: Option<string>, fails: (Loader, Method, string) -> bool): (r: Outcome)
    requires RegistryOk(gl)
    ensures RegistryOk(r.gl)
    ensures !IsLoaded(gl, ProfileOf(profile)) ==> r == Outcome(gl, Some(LoadError), [])
    ensures IsLoaded(gl, ProfileOf(profile)) ==> r == InnerLoad(gl, UnloadMethod, ProfileOf(profile), Unloaded, UnloadedWithErrors, fails)
  {
    var p := ProfileOf(profile);
    if !IsLoaded(gl, p) then Outcome(gl, Some(LoadError), [])
    else InnerLoad(gl, UnloadMethod, p, Unloaded, UnloadedWithErrors, fails)
  }

  /** `reload`: only the profile last loaded can be reloaded; it stays loaded. */
  function Reload(gl: GlobalLoader, profile: Option<string>, fails: (Loader, Method, string) -> bool): (r: Outcome)
    requires RegistryOk(gl)
    ensures RegistryOk(r.gl)
    ensures !IsLoaded(gl, ProfileOf(profile)) ==> r == Outcome(gl, Some(LoadError), [])
    ensures IsLoaded(gl, ProfileOf(profile)) ==> r == InnerLoad(gl, ReloadMethod, ProfileOf(profile), Loaded, LoadedWithErrors, fails)
  {
    var p := ProfileOf(profile);
    if !IsLoaded(gl, p) then Outcome(gl, Some(LoadError), [])
    else InnerLoad(gl, ReloadMethod, p, Loaded, LoadedWithErrors, fails)
  }
}
