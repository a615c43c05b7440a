/** What the build guarantees: which state each section may change, how an
    environment is selected, that the list-valued sections append in document
    order, and the properties of the whole pipeline. */
module BuildProperties {
  import opened Failures
  import opened Text
  import opened Nodes
  import opened Collaborators
  import opened ConfigSettings
  import opened Assembly

  // ---------------------------------------------------------------------
  // environments

  /** An `environment` child passes the selection loop: it has an id, and when
      the id is the target it builds an environment. */
  predicate Acceptable(child: XNode, target: string, aliases: map<string, string>, w: World) {
    Attr(child, "id").Some? && (Attr(child, "id").value == target ==> EnvironmentOf(child, target, aliases, w).Ok?)
  }

  /** Without a target, the first `environment` child fails the build. */
  lemma NoTargetFails(cs: seq<XNode>, st: ConfigState, w: World)
    requires cs != []
    ensures Fold(EnvironmentsSection(None), cs, st, w) == Err(NoEnvironmentSpecified)
  {
  }

  /** With a target, the section succeeds exactly when every child has an id
      and every child whose id is the target builds; the others are not looked at. */
  lemma {:induction false} EnvironmentsSucceedIff(target: string, cs: seq<XNode>, st: ConfigState, w: World)
    ensures Fold(EnvironmentsSection(Some(target)), cs, st, w).Ok? <==>
            forall c :: c in cs ==> Acceptable(c, target, st.typeAliases, w)
  {
    if cs != [] {
      var step := Step(EnvironmentsSection(Some(target)), cs[0], st, w);
      assert step.Ok? <==> Acceptable(cs[0], target, st.typeAliases, w);
      if step.Ok? {
        assert step.value.typeAliases == st.typeAliases;
        EnvironmentsSucceedIff(target, cs[1..], step.value, w);
      }
      assert forall c :: c in cs <==> c == cs[0] || c in cs[1..];
    }
  }

  /** The first child without an id fails the build with the id error, whatever follows it. */
  lemma {:induction false} MissingIdFails(target: string, cs: seq<XNode>, st: ConfigState, w: World, j: nat)
    requires j < |cs| && Attr(cs[j], "id").None?
    requires forall k :: 0 <= k < j ==> Acceptable(cs[k], target, st.typeAliases, w)
    ensures Fold(EnvironmentsSection(Some(target)), cs, st, w) == Err(EnvironmentRequiresId)
  {
    if j > 0 {
      var next := Step(EnvironmentsSection(Some(target)), cs[0], st, w).value;
      assert forall k :: 0 <= k < j - 1 ==> cs[1..][k] == cs[k + 1];
      MissingIdFails(target, cs[1..], next, w, j - 1);
    }
  }

  /** When no child has the target id, the section leaves the configuration as it was. */
  lemma {:induction false} NoMatchKeepsState(target: string, cs: seq<XNode>, st: ConfigState, w: World)
    requires forall c :: c in cs ==> Attr(c, "id") != Some(target)
    requires Fold(EnvironmentsSection(Some(target)), cs, st, w).Ok?
    ensures Fold(EnvironmentsSection(Some(target)), cs, st, w) == Ok(st)
  {
    if cs != [] {
      assert cs[0] in cs;
      assert forall c :: c in cs[1..] ==> c in cs;
      NoMatchKeepsState(target, cs[1..], st, w);
    }
  }

  /** Of several children with the target id, the last one is the environment installed. */
  lemma {:induction false} LastMatchWins(target: string, cs: seq<XNode>, st: ConfigState, w: World, j: nat)
    requires Fold(EnvironmentsSection(Some(target)), cs, st, w).Ok?
    requires j < |cs| && Attr(cs[j], "id") == Some(target)
    requires forall k :: j < k < |cs| ==> Attr(cs[k], "id") != Some(target)
    ensures EnvironmentOf(cs[j], target, st.typeAliases, w).Ok?
    ensures Fold(EnvironmentsSection(Some(target)), cs, st, w)
            == Ok(st.(environment := Some(EnvironmentOf(cs[j], target, st.typeAliases, w).value)))
  {
    var next := Step(EnvironmentsSection(Some(target)), cs[0], st, w).value;
    if j == 0 {
      assert forall c :: c in cs[1..] ==> Attr(c, "id") != Some(target) by {
        forall c | c in cs[1..] ensures Attr(c, "id") != Some(target) {
          var k :| 0 <= k < |cs[1..]| && cs[1..][k] == c;
          assert cs[k + 1] == c;
        }
      }
      NoMatchKeepsState(target, cs[1..], next, w);
    } else {
      assert forall k :: j - 1 < k < |cs[1..]| ==> cs[1..][k] == cs[k + 1];
      LastMatchWins(target, cs[1..], next, w, j - 1);
      assert next.typeAliases == st.typeAliases;
    }
  }

  /** Two lists of `environment` children that agree on every id and on every
      child with the target id build the same result: a child that is not
      selected is never materialised, so its factories may be anything. */
  predicate SameSelection(target: string, cs1: seq<XNode>, cs2: seq<XNode>) {
    && |cs1| == |cs2|
    && (forall i :: 0 <= i < |cs1| ==> Attr(cs1[i], "id") == Attr(cs2[i], "id"))
    && (forall i :: 0 <= i < |cs1| && Attr(cs1[i], "id") == Some(target) ==> cs1[i] == cs2[i])
  }

  lemma {:induction false} UnselectedChildrenIgnored(target: string, cs1: seq<XNode>, cs2: seq<XNode>, st: ConfigState, w: World)
    requires SameSelection(target, cs1, cs2)
    ensures Fold(EnvironmentsSection(Some(target)), cs1, st, w) == Fold(EnvironmentsSection(Some(target)), cs2, st, w)
  {
    if cs1 != [] {
      var step1 := Step(EnvironmentsSection(Some(target)), cs1[0], st, w);
      var step2 := Step(EnvironmentsSection(Some(target)), cs2[0], st, w);
      assert step1 == step2 by {
        assert Attr(cs1[0], "id") == Attr(cs2[0], "id");
      }
      if step1.Ok? {
        assert SameSelection(target, cs1[1..], cs2[1..]) by {
          assert forall i :: 0 <= i < |cs1| - 1 ==> cs1[1..][i] == cs1[i + 1] && cs2[1..][i] == cs2[i + 1];
        }
        UnselectedChildrenIgnored(target, cs1[1..], cs2[1..], step1.value, w);
      }
    }
  }

  // ---------------------------------------------------------------------
  // sections that append

  /** The interceptors the `plugins` children create, each with its own bag, in
      document order, or the first failure. */
  function Interceptors(cs: seq<XNode>, aliases: map<string, string>, w: World): (r: Result<seq<Instance>>)
    ensures r.Ok? ==> |r.value| == |cs|
    ensures r.Ok? ==> forall i :: 0 <= i < |cs| ==>
              Extension(Attr(cs[i], "interceptor"), ChildrenAsProperties(cs[i]), aliases, w) == Ok(r.value[i])
  {
    if cs == [] then Ok([])
    else
      var first :- Extension(Attr(cs[0], "interceptor"), ChildrenAsProperties(cs[0]), aliases, w);
      var rest :- Interceptors(cs[1..], aliases, w);
      Ok([first] + rest)
  }

  /** `pluginElement` appends one interceptor per child, in document order. */
  lemma {:induction false} PluginsAppendInOrder(cs: seq<XNode>, st: ConfigState, w: World)
    ensures Fold(PluginsSection, cs, st, w).Ok? <==> Interceptors(cs, st.typeAliases, w).Ok?
    ensures Fold(PluginsSection, cs, st, w).Err? ==> Fold(PluginsSection, cs, st, w).cause == Interceptors(cs, st.typeAliases, w).cause
    ensures Fold(PluginsSection, cs, st, w).Ok? ==>
              Fold(PluginsSection, cs, st, w).value == st.(interceptors := st.interceptors + Interceptors(cs, st.typeAliases, w).value)
  {
    if cs == [] {
      assert st.interceptors + [] == st.interceptors;
    } else {
      var first := Extension(Attr(cs[0], "interceptor"), ChildrenAsProperties(cs[0]), st.typeAliases, w);
      if first.Ok? {
        var next := st.(interceptors := st.interceptors + [first.value]);
        assert Step(PluginsSection, cs[0], st, w) == Ok(next);
        PluginsAppendInOrder(cs[1..], next, w);
        var rest := Interceptors(cs[1..], st.typeAliases, w);
        if rest.Ok? {
          SeqAssoc(st.interceptors, [first.value], rest.value);
        }
      }
    }
  }

  /** The registrations the `typeHandlers` children make, in document order, or the first failure. */
  function Handlers(cs: seq<XNode>, aliases: map<string, string>, w: World): (r: Result<seq<TypeHandlerRegistration>>)
    ensures r.Ok? ==> |r.value| == |cs|
    ensures r.Ok? ==> forall i :: 0 <= i < |cs| ==> HandlerEntry(cs[i], aliases, w) == Ok(r.value[i])
  {
    if cs == [] then Ok([])
    else
      var first :- HandlerEntry(cs[0], aliases, w);
      var rest :- Handlers(cs[1..], aliases, w);
      Ok([first] + rest)
  }

  /** `typeHandlerElement` makes one registration per child, in document order. */
  lemma {:induction false} TypeHandlersAppendInOrder(cs: seq<XNode>, st: ConfigState, w: World)
    ensures Fold(TypeHandlersSection, cs, st, w).Ok? <==> Handlers(cs, st.typeAliases, w).Ok?
    ensures Fold(TypeHandlersSection, cs, st, w).Err? ==> Fold(TypeHandlersSection, cs, st, w).cause == Handlers(cs, st.typeAliases, w).cause
    ensures Fold(TypeHandlersSection, cs, st, w).Ok? ==>
              Fold(TypeHandlersSection, cs, st, w).value == st.(typeHandlers := st.typeHandlers + Handlers(cs, st.typeAliases, w).value)
  {
    if cs == [] {
      assert st.typeHandlers + [] == st.typeHandlers;
    } else {
      var first := HandlerEntry(cs[0], st.typeAliases, w);
      if first.Ok? {
        var next := st.(typeHandlers := st.typeHandlers + [first.value]);
        assert Step(TypeHandlersSection, cs[0], st, w) == Ok(next);
        TypeHandlersAppendInOrder(cs[1..], next, w);
        var rest := Handlers(cs[1..], st.typeAliases, w);
        if rest.Ok? {
          SeqAssoc(st.typeHandlers, [first.value], rest.value);
        }
      }
    }
  }

  /** The mappers the `mappers` children name, in document order, or the first failure. */
  function Mappers(cs: seq<XNode>, w: World): (r: Result<seq<MapperRegistration>>)
    ensures r.Ok? ==> |r.value| == |cs|
    ensures r.Ok? ==> forall i :: 0 <= i < |cs| ==> MapperEntry(cs[i], w) == Ok(r.value[i])
  {
    if cs == [] then Ok([])
    else
      var first :- MapperEntry(cs[0], w);
      var rest :- Mappers(cs[1..], w);
      Ok([first] + rest)
  }

  /** `mapperElement` registers one mapper per child, in document order. */
  lemma {:induction false} MappersAppendInOrder(cs: seq<XNode>, st: ConfigState, w: World)
    ensures Fold(MappersSection, cs, st, w).Ok? <==> Mappers(cs, w).Ok?
    ensures Fold(MappersSection, cs, st, w).Err? ==> Fold(MappersSection, cs, st, w).cause == Mappers(cs, w).cause
    ensures Fold(MappersSection, cs, st, w).Ok? ==>
              Fold(MappersSection, cs, st, w).value == st.(mappers := st.mappers + Mappers(cs, w).value)
  {
    if cs == [] {
      assert st.mappers + [] == st.mappers;
    } else {
      var first := MapperEntry(cs[0], w);
      if first.Ok? {
        var next := st.(mappers := st.mappers + [first.value]);
        assert Step(MappersSection, cs[0], st, w) == Ok(next);
        MappersAppendInOrder(cs[1..], next, w);
        var rest := Mappers(cs[1..], w);
        if rest.Ok? {
          SeqAssoc(st.mappers, [first.value], rest.value);
        }
      }
    }
  }

  lemma SeqAssoc<T>(a: seq<T>, b: seq<T>, c: seq<T>)
    ensures (a + b) + c == a + (b + c)
  {
  }

  // ---------------------------------------------------------------------
  // the whole build

  /** The intermediate states of a successful build, section group by section group. */
  lemma PipelineStages(root: XNode, st0: ConfigState, target: Option<string>, w: World)
    returns (st1: ConfigState, bag: Props, st6: ConfigState, st7: ConfigState)
    requires Pipeline(root, st0, target, w).Ok?
    ensures root.name == "configuration"
    ensures PropertiesStage(Child(root, "properties"), st0, w) == Ok(st1)
    ensures ValidatedSettings(Child(root, "settings"), w.knownSetters) == Ok(bag)
    ensures BeforeSettings(root, st1, w) == Ok(st6)
    ensures SettingsStage(bag, st6, w) == Ok(st7)
    ensures Pipeline(root, st0, target, w) == AfterSettings(root, st7, target, w)
    ensures st7.environment == st0.environment && st7.databaseId == st0.databaseId
  {
    st1 := PropertiesStage(Child(root, "properties"), st0, w).value;
    bag := ValidatedSettings(Child(root, "settings"), w.knownSetters).value;
    st6 := BeforeSettings(root, st1, w).value;
    st7 := SettingsStage(bag, st6, w).value;
  }

  /** A root that is not a `configuration` element fails; a successful build has
      applied the settings and kept every alias key it started with. */
  lemma PipelineShape(root: XNode, st0: ConfigState, target: Option<string>, w: World)
    ensures root.name != "configuration" ==> Pipeline(root, st0, target, w) == Err(NullReference)
    ensures Pipeline(root, st0, target, w).Ok? ==>
      var s := Pipeline(root, st0, target, w).value;
      s.settings.Some? && st0.typeAliases.Keys <= s.typeAliases.Keys
  {
    if Pipeline(root, st0, target, w).Ok? {
      var st1, bag, st6, st7 := PipelineStages(root, st0, target, w);
      assert st0.typeAliases == st1.typeAliases;
      assert st7.typeAliases == st6.typeAliases && st7.settings.Some?;
    }
  }

  /** A successful build only appends to the interceptor, type-handler and
      mapper lists it started with. */
  lemma PipelineAppends(root: XNode, st0: ConfigState, target: Option<string>, w: World)
    requires Pipeline(root, st0, target, w).Ok?
    ensures var s := Pipeline(root, st0, target, w).value;
      st0.interceptors <= s.interceptors && st0.typeHandlers <= s.typeHandlers && st0.mappers <= s.mappers
  {
    var st1, bag, st6, st7 := PipelineStages(root, st0, target, w);
    assert st0.interceptors == st1.interceptors;
    assert st0.typeHandlers == st6.typeHandlers && st0.mappers == st6.mappers;
    assert st7.interceptors == st6.interceptors;
    assert st7.typeHandlers == st6.typeHandlers && st7.mappers == st6.mappers;
  }

  /** A `properties` element naming both a resource and a url stops the build
      with that error, whatever the world could load. */
  lemma ConflictingSourcesAbort(root: XNode, st0: ConfigState, target: Option<string>, w: World)
    requires root.name == "configuration"
    requires Child(root, "properties").Some?
    requires Attr(Child(root, "properties").value, "resource").Some? && Attr(Child(root, "properties").value, "url").Some?
    ensures Pipeline(root, st0, target, w) == Err(ConflictingPropertySources)
  {
    var p := Child(root, "properties").value;
    assert MergedProperties(p, st0.variables, w) == Err(ConflictingPropertySources);
  }

  /** A settings key that names no setter stops the build with an unknown-setting
      error, before any alias, plugin or factory is registered. */
  lemma UnknownSettingAborts(root: XNode, st0: ConfigState, target: Option<string>, w: World, key: string)
    requires root.name == "configuration"
    requires PropertiesStage(Child(root, "properties"), st0, w).Ok?
    requires Child(root, "settings").Some?
    requires key in ChildrenAsProperties(Child(root, "settings").value) && key !in w.knownSetters
    ensures Pipeline(root, st0, target, w).Err?
    ensures Pipeline(root, st0, target, w).cause.UnknownSetting?
    ensures Pipeline(root, st0, target, w).cause.key !in w.knownSetters
  {
    assert ValidatedSettings(Child(root, "settings"), w.knownSetters).Err?;
  }

  /** Settings are applied after the alias section and nothing after them changes
      the alias table, so the class-valued settings are resolved with the final
      alias table, including the aliases the document declares. */
  lemma SettingsUseFinalAliases(root: XNode, st0: ConfigState, target: Option<string>, w: World)
    requires Pipeline(root, st0, target, w).Ok?
    ensures var s := Pipeline(root, st0, target, w).value;
      && ValidatedSettings(Child(root, "settings"), w.knownSetters).Ok?
      && s.settings.Some?
      && ResolveSettings(ValidatedSettings(Child(root, "settings"), w.knownSetters).value, s.typeAliases, w) == Ok(s.settings.value)
  {
    var st1 := PropertiesStage(Child(root, "properties"), st0, w).value;
    var bag := ValidatedSettings(Child(root, "settings"), w.knownSetters).value;
    var st6 := BeforeSettings(root, st1, w).value;
    var st7 := SettingsStage(bag, st6, w).value;
    var s := AfterSettings(root, st7, target, w).value;
    assert Pipeline(root, st0, target, w) == Ok(s);
    assert s.typeAliases == st6.typeAliases;
  }

  /** Starting without an environment, the one the build installs, if any, has
      the id the builder was targeting: the caller's, or else the `default` attribute. */
  lemma EnvironmentIsTarget(root: XNode, st0: ConfigState, target: Option<string>, w: World)
    requires st0.environment.None?
    requires Pipeline(root, st0, target, w).Ok?
    ensures var e := Pipeline(root, st0, target, w).value.environment;
      e.Some? ==> Child(root, "environments").Some? && EnvironmentTarget(target, Child(root, "environments").value) == Some(e.value.id)
  {
    var st1, bag, st6, st7 := PipelineStages(root, st0, target, w);
    AfterSettingsInstallsTarget(root, st7, target, w);
  }

  /** From a state without an environment, the sections after the settings
      install only an environment whose id is the target. */
  lemma AfterSettingsInstallsTarget(root: XNode, st: ConfigState, target: Option<string>, w: World)
    requires st.environment.None?
    requires AfterSettings(root, st, target, w).Ok?
    ensures var e := AfterSettings(root, st, target, w).value.environment;
      e.Some? ==> Child(root, "environments").Some? && EnvironmentTarget(target, Child(root, "environments").value) == Some(e.value.id)
  {
  }

  /** Starting without a database id, the build sets
      a database id only when the document has a provider and an environment was installed. */
  lemma DatabaseIdNeedsEnvironmentAndProvider(root: XNode, st0: ConfigState, target: Option<string>, w: World)
    requires st0.databaseId.None?
    requires Pipeline(root, st0, target, w).Ok?
    ensures var s := Pipeline(root, st0, target, w).value;
      s.databaseId.Some? ==> s.environment.Some? && Child(root, "databaseIdProvider").Some?
  {
    var st1, bag, st6, st7 := PipelineStages(root, st0, target, w);
  }
}
