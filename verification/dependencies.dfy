/** The dependency loader of an addon: `registerDependOnAddon` records which other
    addons (and which of their profiles) must be present, and loading checks them
    against the addon list parameter. */
module Dependencies {
  import opened Wrappers
  import opened Loaders

  /** The sub-addon profile assumed when a dependency names none (its value lives in a
      constants module that is not part of this model). */
  const DefaultSubaddonName: string := "default"

  /** The key the dependency loader is registered under: its module and class name. */
  const DependencyLoaderKey: string := "pyshell.loader.dependancies.DependanciesLoader"

  /** `DependanciesLoader` as a class: a loader with the default priority that keeps
      the inherited `reload`. */
  const DependencyClass: ClassDef := ClassDef("DependanciesLoader", true, None, false)

  /** A Python argument that should be a string. */
  datatype NameArg = StrName(s: string) | OtherName

  /** A Python argument that should be a string or `None`. */
  datatype ProfileArg = NoProfile | StrProfile(s: string) | OtherProfile

  /** `registerDependOnAddon(name, dependancyProfile, profile)`: the addon name must be a
      string and its profile a string or `None`; the dependency is appended to the
      dependency loader of `profile`, created on first use. */
  function RegisterDependOnAddon(gl: GlobalLoader, name: NameArg, depProfile: ProfileArg, profile: Option<string>)
    : (r: Result<GlobalLoader, LoaderError>)
    requires RegistryOk(gl)
    ensures name.OtherName? || depProfile.OtherProfile? ==> r == Err(RegisterError)
    ensures r.Ok? ==> RegistryOk(r.value) && r.value.last == gl.last
    ensures r.Ok? ==>
              var p := ProfileOf(profile);
              var d := Dependency(name.s, if depProfile.StrProfile? then Some(depProfile.s) else None);
              && Lookup(r.value, p, DependencyLoaderKey).Some?
              && Lookup(r.value, p, DependencyLoaderKey).value.dep ==
                   (if Lookup(gl, p, DependencyLoaderKey).Some? then Lookup(gl, p, DependencyLoaderKey).value.dep else []) + [d]
              && forall q, n | q != p || n != DependencyLoaderKey :: Lookup(r.value, q, n) == Lookup(gl, q, n)
  {
    if name.OtherName? then Err(RegisterError)
    else if depProfile.OtherProfile? then Err(RegisterError)
    else
      match GetOrCreateLoader(gl, DependencyLoaderKey, DependencyClass, profile)
      case Err(x) => Err(x)
      case Ok(created) =>
        var d := Dependency(name.s, if depProfile.StrProfile? then Some(depProfile.s) else None);
        var l := created.loader.(dep := created.loader.dep + [d]);
        Ok(SetLoader(created.gl, ProfileOf(profile), DependencyLoaderKey, l))
  }

  /** The profile a dependency asks for. */
  function WantedProfile(d: Dependency): (r: string)
    ensures d.profile.None? ==> r == DefaultSubaddonName
  {
    d.profile.GetOr(DefaultSubaddonName)
  }

  /** One dependency is met when its addon is in the list and the wanted profile of that
      addon is registered and loaded: the last run of the addon's registry loaded it,
      with or without errors (the states `unload` accepts, utils.py:186). */
  predicate Met(addons: map<string, GlobalLoader>, d: Dependency) {
    && d.addon in addons
    && WantedProfile(d) in addons[d.addon].profiles
    && IsLoaded(addons[d.addon], WantedProfile(d))
  }

  /** The loop of `DependanciesLoader.load`: the first dependency not met raises. */
  function CheckAll(dep: seq<Dependency>, addons: map<string, GlobalLoader>): (r: Result<(), LoaderError>)
    ensures r.Ok? <==> forall i | 0 <= i < |dep| :: Met(addons, dep[i])
    ensures r.Err? ==> r == Err(LoadError)
  {
    if |dep| == 0 then Ok(())
    else if !Met(addons, dep[0]) then Err(LoadError)
    else
      var rest := CheckAll(dep[1..], addons);
      assert forall i | 1 <= i < |dep| :: dep[i] == dep[1..][i - 1];
      rest
  }

  /** `DependanciesLoader.load`: nothing to check without dependencies (the addon list
      is not even looked up); otherwise the addon list parameter must exist and meet
      every dependency. */
  function DependencyLoad(dep: seq<Dependency>, addonList: Option<map<string, GlobalLoader>>): (r: Result<(), LoaderError>)
    ensures |dep| == 0 ==> r == Ok(())
    ensures |dep| > 0 && addonList.None? ==> r == Err(LoadError)
    ensures |dep| > 0 && addonList.Some? ==> (r.Ok? <==> forall i | 0 <= i < |dep| :: Met(addonList.value, dep[i]))
    ensures r.Err? ==> r == Err(LoadError)
  {
    if |dep| == 0 then Ok(())
    else if addonList.None? then Err(LoadError)
    else CheckAll(dep, addonList.value)
  }

  /** `DependanciesLoader.load` as written: the first dependency whose addon is in the
      list reads `loader.profileList`, an attribute `GlobalLoader` does not have (it
      keeps its profiles in `profile_list`), so the load raises whatever the addon's
      profiles are. */
  function DependencyLoadAsWritten(dep: seq<Dependency>, addonList: Option<map<string, GlobalLoader>>)
    : (r: Result<(), LoaderError>)
    ensures |dep| == 0 <==> r.Ok?
    ensures |dep| > 0 && addonList.Some? && dep[0].addon in addonList.value ==> r == Err(AttributeMissing)
  {
    if |dep| == 0 then Ok(())
    else if addonList.None? then Err(LoadError)
    else if dep[0].addon !in addonList.value then Err(LoadError)
    else Err(AttributeMissing)
  }

  /** The behaviour of the loaders of an addon once the dependency loader is among
      them: its `load` checks the dependencies (as written when `asWritten` is set), its
      inherited `unload` does nothing, and every other loader behaves as `others` says. */
  function WithDependencies(addonList: Option<map<string, GlobalLoader>>, others: (Loader, Method, string) -> bool,
                            asWritten: bool)
    : (Loader, Method, string) -> bool
  {
    (l: Loader, m: Method, p: string) =>
      if l.cls == DependencyClass then
        m == LoadMethod
        && (if asWritten then DependencyLoadAsWritten(l.dep, addonList).Err? else DependencyLoad(l.dep, addonList).Err?)
      else others(l, m, p)
  }
}
