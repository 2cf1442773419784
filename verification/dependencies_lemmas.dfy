/** Properties of dependency registration and of the check run when an addon loads. */
module DependencyProperties {
  import opened Wrappers
  import opened Loaders
  import opened Seqs
  import opened Dependencies

  /** Two registrations in a fresh registry leave both dependencies, in registration
      order, on the one dependency loader of the default profile. */
  lemma RegistrationsKeepOrder(a: string, b: string, pb: string)
    ensures var r1 := RegisterDependOnAddon(NewGlobalLoader(), StrName(a), NoProfile, None);
            && r1.Ok?
            && var r2 := RegisterDependOnAddon(r1.value, StrName(b), StrProfile(pb), None);
               && r2.Ok?
               && Lookup(r2.value, DefaultProfileName, DependencyLoaderKey).Some?
               && Lookup(r2.value, DefaultProfileName, DependencyLoaderKey).value.dep ==
                    [Dependency(a, None), Dependency(b, Some(pb))]
  {
    var r1 := RegisterDependOnAddon(NewGlobalLoader(), StrName(a), NoProfile, None);
    assert GetOrCreateLoader(NewGlobalLoader(), DependencyLoaderKey, DependencyClass, None).Ok?;
    assert GetOrCreateLoader(r1.value, DependencyLoaderKey, DependencyClass, None).Ok?;
  }

  /** The registry a single registration of `addon` without a profile leaves in a fresh
      registry: one dependency loader in the default profile. */
  lemma FreshRegistration(addon: string)
    ensures var r := RegisterDependOnAddon(NewGlobalLoader(), StrName(addon), NoProfile, None);
            && r.Ok?
            && DefaultProfileName in r.value.profiles
            && |r.value.profiles[DefaultProfileName]| == 1
            && r.value.profiles[DefaultProfileName][0].1.dep == [Dependency(addon, None)]
            && r.value.profiles[DefaultProfileName][0].1.cls == DependencyClass
            && r.value.last.None?
  {
    var gl0 := NewGlobalLoader();
    assert GetOrCreateLoader(gl0, DependencyLoaderKey, DependencyClass, None).Ok?;
    var r := RegisterDependOnAddon(gl0, StrName(addon), NoProfile, None);
    var gl := r.value;
    var slots := gl.profiles[DefaultProfileName];
    assert |slots| == 1 && slots[0].0 == DependencyLoaderKey by {
      var created := GetOrCreateLoader(gl0, DependencyLoaderKey, DependencyClass, None).value;
      assert created.gl.profiles[DefaultProfileName] == [(DependencyLoaderKey, NewLoader(DependencyClass))];
    }
    assert IndexOf(SlotNames(slots), DependencyLoaderKey) == Some(0);
  }

  /** Registering one dependency and loading the default profile raises exactly when
      the addon is missing from the addon list or its default sub-addon is not loaded;
      the profile is left LOADED or LOADED_E accordingly. */
  lemma RegisterThenLoad(addon: string, addons: map<string, GlobalLoader>, others: (Loader, Method, string) -> bool)
    ensures var r := RegisterDependOnAddon(NewGlobalLoader(), StrName(addon), NoProfile, None);
            && r.Ok?
            && var out := Load(r.value, None, WithDependencies(Some(addons), others, false));
               && (out.error.Some? <==> !(addon in addons && DefaultSubaddonName in addons[addon].profiles
                                         && IsLoaded(addons[addon], DefaultSubaddonName)))
               && out.gl.last == Some(LastUpdate(DefaultProfileName, if out.error.Some? then LoadedWithErrors else Loaded))
  {
    FreshRegistration(addon);
    var gl := RegisterDependOnAddon(NewGlobalLoader(), StrName(addon), NoProfile, None).value;
    var l := gl.profiles[DefaultProfileName][0].1;
    var fails := WithDependencies(Some(addons), others, false);
    assert fails(l, LoadMethod, DefaultProfileName) == DependencyLoad(l.dep, Some(addons)).Err?;
    assert Fails(fails, l, LoadMethod, DefaultProfileName) <==> !Met(addons, Dependency(addon, None));
  }

  /** As written, the same load always raises: a missing addon raises the
      `LoadException`, a present one the `AttributeError` on `profileList`. The profile is
      left LOADED_E whatever the addon list holds. */
  lemma RegisterThenLoadAsWritten(addon: string, addons: map<string, GlobalLoader>, others: (Loader, Method, string) -> bool)
    ensures var r := RegisterDependOnAddon(NewGlobalLoader(), StrName(addon), NoProfile, None);
            && r.Ok?
            && var out := Load(r.value, None, WithDependencies(Some(addons), others, true));
               && out.error.Some?
               && out.gl.last == Some(LastUpdate(DefaultProfileName, LoadedWithErrors))
  {
    FreshRegistration(addon);
    var gl := RegisterDependOnAddon(NewGlobalLoader(), StrName(addon), NoProfile, None).value;
    var l := gl.profiles[DefaultProfileName][0].1;
    var fails := WithDependencies(Some(addons), others, true);
    assert l.dep == [Dependency(addon, None)];
    assert fails(l, LoadMethod, DefaultProfileName) == DependencyLoadAsWritten(l.dep, Some(addons)).Err?;
    assert Fails(fails, l, LoadMethod, DefaultProfileName);
  }

  /** A dependency passes the corrected check exactly when its addon is listed and the
      addon's registry last loaded the wanted profile, with or without errors. */
  lemma CheckMeansLoaded(d: Dependency, addons: map<string, GlobalLoader>)
    ensures DependencyLoad([d], Some(addons)).Ok? <==>
              && d.addon in addons
              && WantedProfile(d) in addons[d.addon].profiles
              && (addons[d.addon].last == Some(LastUpdate(WantedProfile(d), Loaded))
                  || addons[d.addon].last == Some(LastUpdate(WantedProfile(d), LoadedWithErrors)))
  {
  }

  /** The addon list of the dependency tests: the addon "addons.plop" whose registry has
      the profile "profile.plap" in the state `s`. */
  function PlopAddons(s: LoadState): map<string, GlobalLoader> {
    map["addons.plop" := GlobalLoader(map["profile.plap" := []], Some(LastUpdate("profile.plap", s)))]
  }

  /** The cases of the dependency tests: a missing addon, a profile other than the
      wanted one, and the wanted profile loaded or unloaded. */
  lemma StateCheckCases()
    ensures DependencyLoad([Dependency("addons.plop", None)], Some(map[])) == Err(LoadError)
    ensures DependencyLoad([Dependency("addons.plop", Some("profile.plap"))], Some(PlopAddons(Loaded))) == Ok(())
    ensures DependencyLoad([Dependency("addons.plop", Some("profile.plap"))], Some(PlopAddons(Unloaded))) == Err(LoadError)
    ensures DependencyLoad([Dependency("addons.plop", None)], Some(PlopAddons(Loaded))) == Err(LoadError)
  {
    assert DefaultSubaddonName != "profile.plap";
  }

  /** Finding: as written, a dependency whose addon is present and loaded still raises,
      on reading `profileList`; the corrected check accepts it. */
  lemma PresentAddonRaisesAsWritten(d: Dependency, addons: map<string, GlobalLoader>)
    requires Met(addons, d)
    ensures DependencyLoad([d], Some(addons)) == Ok(())
    ensures DependencyLoadAsWritten([d], Some(addons)) == Err(AttributeMissing)
  {
    assert CheckAll([d], addons) == CheckAll([], addons);
  }

  /** Without dependencies the check passes whatever the addon list, and neither version
      looks it up; with some, a missing addon list raises in both. */
  lemma NoDependenciesNoCheck(addonList: Option<map<string, GlobalLoader>>, d: Dependency)
    ensures DependencyLoad([], addonList) == Ok(())
    ensures DependencyLoadAsWritten([], addonList) == Ok(())
    ensures DependencyLoad([d], None) == Err(LoadError)
    ensures DependencyLoadAsWritten([d], None) == Err(LoadError)
  {
  }

  /** A load allowed on a registry whose dependency loader for the profile has a
      dependency not met raises, and records LOADED_E. */
  lemma UnmetDependencyFailsLoad(gl: GlobalLoader, profile: Option<string>, addons: map<string, GlobalLoader>,
                                 others: (Loader, Method, string) -> bool)
    requires RegistryOk(gl)
    requires gl.last.None? || LoadAllowed(gl.last.value.state)
    requires Lookup(gl, ProfileOf(profile), DependencyLoaderKey).Some?
    requires Lookup(gl, ProfileOf(profile), DependencyLoaderKey).value.cls == DependencyClass
    requires DependencyLoad(Lookup(gl, ProfileOf(profile), DependencyLoaderKey).value.dep, Some(addons)).Err?
    ensures var out := Load(gl, profile, WithDependencies(Some(addons), others, false));
            out.error.Some? && out.gl.last == Some(LastUpdate(ProfileOf(profile), LoadedWithErrors))
  {
    var p := ProfileOf(profile);
    var fails := WithDependencies(Some(addons), others, false);
    var k := IndexOf(SlotNames(gl.profiles[p]), DependencyLoaderKey).value;
    assert Fails(fails, gl.profiles[p][k].1, LoadMethod, p);
  }

  /** A registered dependency is checked by the next load of its profile: on any
      registry whose dependency loader, if any, is a `DependanciesLoader`, a load allowed
      after the registration raises and leaves the profile LOADED_E when the new
      dependency is not met. */
  lemma RegisteredDependencyIsChecked(gl: GlobalLoader, name: string, depProfile: ProfileArg, profile: Option<string>,
                                      addons: map<string, GlobalLoader>, others: (Loader, Method, string) -> bool)
    requires RegistryOk(gl) && !depProfile.OtherProfile?
    requires gl.last.None? || LoadAllowed(gl.last.value.state)
    requires Lookup(gl, ProfileOf(profile), DependencyLoaderKey).None?
             || Lookup(gl, ProfileOf(profile), DependencyLoaderKey).value.cls == DependencyClass
    ensures RegisterDependOnAddon(gl, StrName(name), depProfile, profile).Ok?
    ensures var d := Dependency(name, if depProfile.StrProfile? then Some(depProfile.s) else None);
            var out := Load(RegisterDependOnAddon(gl, StrName(name), depProfile, profile).value, profile,
                            WithDependencies(Some(addons), others, false));
            !Met(addons, d) ==>
              out.error.Some? && out.gl.last == Some(LastUpdate(ProfileOf(profile), LoadedWithErrors))
  {
    var p := ProfileOf(profile);
    assert GetOrCreateLoader(gl, DependencyLoaderKey, DependencyClass, profile).Ok?;
    var gl' := RegisterDependOnAddon(gl, StrName(name), depProfile, profile).value;
    var d := Dependency(name, if depProfile.StrProfile? then Some(depProfile.s) else None);
    if !Met(addons, d) {
      var l := Lookup(gl', p, DependencyLoaderKey).value;
      assert l.dep[|l.dep| - 1] == d;
      UnmetDependencyFailsLoad(gl', profile, addons, others);
    }
  }
}
