/**
 * The sidebar of the custom admin site.  Django builds the registered apps
 * with their models; the site then lists, section by section in the order the
 * `ADMIN_MODELS` setting gives, the registered models the setting names.
 */
module AdminSite {
  /** A registered model as the admin lists it (the fields kept are the ones
      the sidebar reads; `adminUrl` stands for the rest of the entry). */
  datatype ModelEntry = ModelEntry(objectName: string, adminUrl: string)

  /** An installed app with its registered models, from `_build_app_dict`. */
  datatype App = App(models: seq<ModelEntry>)

  /** A section of `ADMIN_MODELS`: a title and object names, in display order. */
  datatype SidebarSection = SidebarSection(title: string, models: seq<string>)

  /** A section of the resulting sidebar. */
  datatype AppSection = AppSection(name: string, models: seq<ModelEntry>)

  /** Every registered model, app after app. */
  function AllModels(apps: seq<App>): seq<ModelEntry> {
    if apps == [] then [] else AllModels(apps[..|apps| - 1]) + apps[|apps| - 1].models
  }

  /** The `app_models` lookup: each object name to the last model seen with it. */
  function Lookup(entries: seq<ModelEntry>): (m: map<string, ModelEntry>)
    ensures forall name :: name in m <==> exists k :: 0 <= k < |entries| && entries[k].objectName == name
    ensures NamesMatch(m)
  {
    if entries == [] then map[]
    else
      var init := entries[..|entries| - 1];
      var last := entries[|entries| - 1];
      assert forall k :: 0 <= k < |init| ==> init[k] == entries[k];
      Lookup(init)[last.objectName := last]
  }

  /** Each name of the lookup leads to a model of that name. */
  predicate NamesMatch(lookup: map<string, ModelEntry>) {
    forall name :: name in lookup ==> lookup[name].objectName == name
  }

  /** The models of a section: the named ones that are registered, in the
      order the section names them. */
  function SectionModels(names: seq<string>, lookup: map<string, ModelEntry>): (r: seq<ModelEntry>)
    ensures |r| <= |names|
    ensures NamesMatch(lookup) ==>
              forall k :: 0 <= k < |r| ==> r[k].objectName in names && r[k].objectName in lookup
                                           && r[k] == lookup[r[k].objectName]
  {
    if names == [] then []
    else
      var init := SectionModels(names[..|names| - 1], lookup);
      var name := names[|names| - 1];
      var r := init + (if name in lookup then [lookup[name]] else []);
      assert NamesMatch(lookup) ==> forall k :: 0 <= k < |r| ==> r[k].objectName in names by {
        forall k | NamesMatch(lookup) && 0 <= k < |r| ensures r[k].objectName in names {
          if k < |init| {
            assert r[k] == init[k];
            var x := r[k].objectName;
            assert x in names[..|names| - 1];
            var j :| 0 <= j < |names| - 1 && names[..|names| - 1][j] == x;
            assert names[j] == x;
          }
        }
      }
      r
  }

  /** The sidebar for `sections` over `lookup`. */
  function Sidebar(sections: seq<SidebarSection>, lookup: map<string, ModelEntry>): (r: seq<AppSection>)
    ensures |r| == |sections|
    ensures forall i :: 0 <= i < |r| ==>
              r[i].name == sections[i].title && r[i].models == SectionModels(sections[i].models, lookup)
  {
    if sections == [] then []
    else
      var init := sections[..|sections| - 1];
      var last := sections[|sections| - 1];
      Sidebar(init, lookup) + [AppSection(last.title, SectionModels(last.models, lookup))]
  }

  /** Registering one more model updates the lookup under its name. */
  lemma LookupSnoc(entries: seq<ModelEntry>, e: ModelEntry)
    ensures Lookup(entries + [e]) == Lookup(entries)[e.objectName := e]
  {
    assert (entries + [e])[..|entries|] == entries;
  }

  /** The models of one more app follow the earlier ones. */
  lemma AllModelsSnoc(apps: seq<App>, i: nat)
    requires i < |apps|
    ensures AllModels(apps[..i + 1]) == AllModels(apps[..i]) + apps[i].models
  {
    assert apps[..i + 1][..i] == apps[..i];
  }

  /** Taking the first `j` models of an app: none of them, or all of them. */
  lemma AppPrefix(before: seq<ModelEntry>, models: seq<ModelEntry>, j: nat)
    requires j == 0 || j == |models|
    ensures j == 0 ==> before + models[..j] == before
    ensures j == |models| ==> before + models[..j] == before + models
  {
  }

  /** One more model of the current app updates the lookup under its name. */
  lemma LookupStep(before: seq<ModelEntry>, models: seq<ModelEntry>, j: nat)
    requires j < |models|
    ensures Lookup(before + models[..j + 1]) == Lookup(before + models[..j])[models[j].objectName := models[j]]
  {
    assert before + models[..j + 1] == (before + models[..j]) + [models[j]];
    LookupSnoc(before + models[..j], models[j]);
  }

  /** The `app_models` loops: every app's models in turn, a later model
      replacing an earlier one with the same object name. */
  method BuildLookup(apps: seq<App>) returns (appModels: map<string, ModelEntry>)
    ensures appModels == Lookup(AllModels(apps))
  {
    appModels := map[];
    for i := 0 to |apps|
      invariant appModels == Lookup(AllModels(apps[..i]))
    {
      ghost var before := AllModels(apps[..i]);
      var models := apps[i].models;
      AppPrefix(before, models, 0);
      for j := 0 to |models|
        invariant appModels == Lookup(before + models[..j])
      {
        LookupStep(before, models, j);
        appModels := appModels[models[j].objectName := models[j]];
      }
      AppPrefix(before, models, |models|);
      AllModelsSnoc(apps, i);
    }
    assert apps[..|apps|] == apps;
  }

  /** One more name of a section adds its model, if registered. */
  lemma SectionStep(names: seq<string>, j: nat, lookup: map<string, ModelEntry>)
    requires j < |names|
    ensures SectionModels(names[..j + 1], lookup) ==
              SectionModels(names[..j], lookup) + (if names[j] in lookup then [lookup[names[j]]] else [])
  {
    assert names[..j + 1][..j] == names[..j];
  }

  /** One more section of the setting adds its sidebar section. */
  lemma SidebarStep(sections: seq<SidebarSection>, i: nat, lookup: map<string, ModelEntry>)
    requires i < |sections|
    ensures Sidebar(sections[..i + 1], lookup) ==
              Sidebar(sections[..i], lookup) + [AppSection(sections[i].title, SectionModels(sections[i].models, lookup))]
  {
    assert sections[..i + 1][..i] == sections[..i];
  }

  /** `CustomAdminSite.get_app_list` over the apps Django built and the
      `ADMIN_MODELS` setting. */
  method GetAppList(apps: seq<App>, sidebar: seq<SidebarSection>) returns (appList: seq<AppSection>)
    ensures appList == Sidebar(sidebar, Lookup(AllModels(apps)))
  {
    var appModels := BuildLookup(apps);
    appList := [];
    for i := 0 to |sidebar|
      invariant appList == Sidebar(sidebar[..i], appModels)
    {
      var models := CollectSection(sidebar[i].models, appModels);
      SidebarStep(sidebar, i, appModels);
      appList := appList + [AppSection(sidebar[i].title, models)];
    }
    assert sidebar[..|sidebar|] == sidebar;
  }

  /** The inner loop of `get_app_list`: the registered models of one
      section's configured names, in that order. */
  method CollectSection(names: seq<string>, appModels: map<string, ModelEntry>) returns (models: seq<ModelEntry>)
    ensures models == SectionModels(names, appModels)
  {
    models := [];
    for j := 0 to |names|
      invariant models == SectionModels(names[..j], appModels)
    {
      SectionStep(names, j, appModels);
      if names[j] in appModels {
        models := models + [appModels[names[j]]];
      }
    }
    assert names[..|names|] == names;
  }

  // ----- what the sidebar shows ------------------------------------------------------

  /** The last model registered under a name is the one shown for it. */
  lemma {:induction false} LastRegistrationWins(entries: seq<ModelEntry>, k: nat)
    requires k < |entries|
    requires forall j :: k < j < |entries| ==> entries[j].objectName != entries[k].objectName
    ensures Lookup(entries)[entries[k].objectName] == entries[k]
  {
    if k < |entries| - 1 {
      var init := entries[..|entries| - 1];
      assert init[k] == entries[k];
      LastRegistrationWins(init, k);
    }
  }

  /** A configured, registered name is shown in its section; a name that is
      not registered is skipped without leaving a gap. */
  lemma {:induction false} SectionShowsRegistered(names: seq<string>, lookup: map<string, ModelEntry>, name: string)
    requires name in names && name in lookup
    ensures lookup[name] in SectionModels(names, lookup)
  {
    var last := names[|names| - 1];
    if last != name {
      assert name in names[..|names| - 1] by {
        var k :| 0 <= k < |names| && names[k] == name;
        assert names[..|names| - 1][k] == name;
      }
      SectionShowsRegistered(names[..|names| - 1], lookup, name);
    }
  }

  /** Section models keep the configured order: configuring `first` before
      `second` lists the models of `first` first. */
  lemma {:induction false} SectionOrder(first: seq<string>, second: seq<string>, lookup: map<string, ModelEntry>)
    ensures SectionModels(first + second, lookup) == SectionModels(first, lookup) + SectionModels(second, lookup)
    decreases |second|
  {
    if second == [] {
      assert first + second == first;
    } else {
      var both := first + second;
      var init := second[..|second| - 1];
      var name := second[|second| - 1];
      var tail := if name in lookup then [lookup[name]] else [];
      assert both[..|both| - 1] == first + init && both[|both| - 1] == name;
      assert SectionModels(both, lookup) == SectionModels(first + init, lookup) + tail;
      assert SectionModels(second, lookup) == SectionModels(init, lookup) + tail;
      SectionOrder(first, init, lookup);
    }
  }

  /** A section whose models are all unregistered is still listed, empty. */
  lemma EmptySectionsListed(sidebar: seq<SidebarSection>, lookup: map<string, ModelEntry>, i: nat)
    requires i < |sidebar|
    requires forall name :: name in sidebar[i].models ==> name !in lookup
    ensures Sidebar(sidebar, lookup)[i] == AppSection(sidebar[i].title, [])
  {
    NoneRegisteredShowsNothing(sidebar[i].models, lookup);
  }

  lemma {:induction false} NoneRegisteredShowsNothing(names: seq<string>, lookup: map<string, ModelEntry>)
    requires forall name :: name in names ==> name !in lookup
    ensures SectionModels(names, lookup) == []
  {
    if names != [] {
      assert names[|names| - 1] in names;
      assert forall name :: name in names[..|names| - 1] ==> name in names;
      NoneRegisteredShowsNothing(names[..|names| - 1], lookup);
    }
  }
}
