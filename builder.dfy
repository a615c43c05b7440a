/** `XMLConfigBuilder`: a one-shot builder that reads a configuration document
    section by section into a `Configuration`. Every section method does what
    the corresponding stage function of `Assembly` computes, so `Parse` builds
    exactly `Pipeline` of the document. */
module ConfigBuilder {
  import opened Failures
  import opened Text
  import opened Nodes
  import opened Collaborators
  import opened ConfigSettings
  import opened Assembly
  import opened Session

  /** What `parse` does: returns the configuration, refuses a second use, or
      throws the builder error wrapping the first failure of the build. */
  datatype ParseResult = Built(configuration: Configuration) | AlreadyUsed | Failed(cause: Cause)

  class XMLConfigBuilder {
    var parsed: bool
    /** The id of the environment to install; the `default` attribute fills it in when it is null. */
    var environment: Option<string>
    /** The variables the document parser substitutes. */
    var parserVariables: Option<Props>
    const document: XNode
    const world: World
    const configuration: Configuration

    /** A builder over `document` for the environment `environment`, with the
        caller's variables on both the parser and a fresh configuration. */
    constructor (document: XNode, environment: Option<string>, props: Option<Props>, world: World)
      ensures this.document == document && this.world == world
      ensures fresh(configuration) && configuration.State() == InitialState(props, world)
      ensures !parsed && this.environment == environment && parserVariables == props
    {
      this.document := document;
      this.world := world;
      this.configuration := new Configuration(props, world);
      this.environment := environment;
      this.parserVariables := props;
      this.parsed := false;
    }

    /** `parse()`: the flag is set before any work, so every later call is refused
        whether or not this one succeeds. */
    method Parse() returns (r: ParseResult)
      modifies this, configuration
      ensures parsed
      ensures old(parsed) ==> r == AlreadyUsed && unchanged(configuration)
                              && environment == old(environment) && parserVariables == old(parserVariables)
      ensures !old(parsed) ==>
                match Pipeline(document, old(configuration.State()), old(environment), world)
                case Ok(s) => r == Built(configuration) && configuration.State() == s
                case Err(c) => r == Failed(c)
    {
      if parsed {
        return AlreadyUsed;
      }
      ghost var expected := Pipeline(document, configuration.State(), environment, world);
      parsed := true;
      var outcome := ParseConfiguration(document);
      assert Agrees(outcome, expected, configuration.State());
      match outcome
      case Pass => return Built(configuration);
      case Fail(c) => return Failed(c);
    }

    /** `parseConfiguration(root)`: the sections in their fixed order; the first
        failure ends the build. */
    method ParseConfiguration(root: XNode) returns (r: Outcome)
      modifies this`environment, this`parserVariables, configuration
      ensures Agrees(r, Pipeline(root, old(configuration.State()), old(environment), world), configuration.State())
    {
      if root.name != "configuration" {
        return Fail(NullReference);
      }
      r := PropertiesElement(Child(root, "properties"));
      if r.Fail? {
        return;
      }
      var settings := SettingsAsProperties(Child(root, "settings"));
      if settings.Err? {
        return Fail(settings.cause);
      }
      r := SectionElements(root, settings.value);
    }

    /** The sections after the settings bag has been validated: the settings are
        applied after aliases, plugins and factories, and before environments. */
    method SectionElements(root: XNode, settings: Props) returns (r: Outcome)
      modifies this`environment, configuration
      ensures Agrees(r, Sections(root, old(configuration.State()), settings, old(environment), world), configuration.State())
    {
      ghost var st1 := configuration.State();
      r := BeforeSettingsElements(root);
      if r.Fail? {
        assert BeforeSettings(root, st1, world) == Err(r.cause);
        return;
      }
      ghost var st6 := configuration.State();
      assert BeforeSettings(root, st1, world) == Ok(st6);
      r := SettingsElement(settings);
      if r.Fail? {
        assert SettingsStage(settings, st6, world) == Err(r.cause);
        return;
      }
      assert SettingsStage(settings, st6, world) == Ok(configuration.State());
      r := AfterSettingsElements(root);
    }

    /** The sections read between settings validation and settings application. */
    method BeforeSettingsElements(root: XNode) returns (r: Outcome)
      modifies configuration
      ensures Agrees(r, BeforeSettings(root, old(configuration.State()), world), configuration.State())
    {
      r := TypeAliasesElement(Child(root, "typeAliases"));
      if r.Fail? {
        return;
      }
      r := PluginElement(Child(root, "plugins"));
      if r.Fail? {
        return;
      }
      assert AliasesAndPlugins(root, old(configuration.State()), world) == Ok(configuration.State());
      ghost var st3 := configuration.State();
      r := ObjectFactoryElement(Child(root, "objectFactory"));
      if r.Fail? {
        return;
      }
      r := ObjectWrapperFactoryElement(Child(root, "objectWrapperFactory"));
      if r.Fail? {
        return;
      }
      r := ReflectorFactoryElement(Child(root, "reflectorFactory"));
      if r.Fail? {
        return;
      }
      assert Factories(root, st3, world) == Ok(configuration.State());
    }

    /** The sections read after the settings are applied. */
    method AfterSettingsElements(root: XNode) returns (r: Outcome)
      modifies this`environment, configuration
      ensures Agrees(r, AfterSettings(root, old(configuration.State()), old(environment), world), configuration.State())
    {
      r := EnvironmentsElement(Child(root, "environments"));
      if r.Fail? {
        return;
      }
      r := DatabaseIdProviderElement(Child(root, "databaseIdProvider"));
      if r.Fail? {
        return;
      }
      r := TypeHandlerElement(Child(root, "typeHandlers"));
      if r.Fail? {
        return;
      }
      r := MapperElement(Child(root, "mappers"));
    }

    /** `propertiesElement(context)`: inline children, then the resource or the
        url (never both), then the configuration's variables; the result goes to
        the parser and to the configuration. */
    method PropertiesElement(context: Option<XNode>) returns (r: Outcome)
      modifies this`parserVariables, configuration
      ensures Agrees(r, PropertiesStage(context, old(configuration.State()), world), configuration.State())
      ensures r.Pass? && context.Some? ==> parserVariables == configuration.variables
      ensures context.None? ==> parserVariables == old(parserVariables)
    {
      if context.None? {
        return Pass;
      }
      var ctx := context.value;
      var defaults := ChildrenAsProperties(ctx);
      var resource := Attr(ctx, "resource");
      var url := Attr(ctx, "url");
      if resource.Some? && url.Some? {
        return Fail(ConflictingPropertySources);
      }
      if resource.Some? {
        if resource.value !in world.propertyResources {
          return Fail(PropertiesResourceNotFound(resource.value));
        }
        defaults := defaults + world.propertyResources[resource.value];
      } else if url.Some? {
        if url.value !in world.propertyUrls {
          return Fail(PropertiesUrlNotFound(url.value));
        }
        defaults := defaults + world.propertyUrls[url.value];
      } else {
        assert defaults + map[] == defaults;
      }
      var vars := configuration.variables;
      if vars.Some? {
        defaults := defaults + vars.value;
      } else {
        assert defaults + map[] == defaults;
      }
      parserVariables := Some(defaults);
      configuration.SetVariables(Some(defaults));
      return Pass;
    }

    /** `settingsAsProperties(context)`: every key must name a setter of the
        configuration; the keys are checked in document order. */
    method SettingsAsProperties(context: Option<XNode>) returns (r: Result<Props>)
      ensures r == ValidatedSettings(context, world.knownSetters)
    {
      if context.None? {
        return Ok(map[]);
      }
      var props := ChildrenAsProperties(context.value);
      var names := EntryNames(Entries(context.value.children));
      for i := 0 to |names|
        invariant FirstUnknown(names[i..], world.knownSetters) == FirstUnknown(names, world.knownSetters)
      {
        if names[i] !in world.knownSetters {
          return Err(UnknownSetting(names[i]));
        }
        assert names[i..][1..] == names[i + 1..];
      }
      return Ok(props);
    }

    /** `typeAliasesElement(parent)`. */
    method TypeAliasesElement(parent: Option<XNode>) returns (r: Outcome)
      modifies configuration
      ensures Agrees(r, SectionStage(TypeAliasesSection, parent, old(configuration.State()), world), configuration.State())
    {
      if parent.None? {
        return Pass;
      }
      var cs := parent.value.children;
      for i := 0 to |cs|
        invariant Fold(TypeAliasesSection, cs[i..], configuration.State(), world)
                  == Fold(TypeAliasesSection, cs, old(configuration.State()), world)
      {
        var child := cs[i];
        assert cs[i..][0] == child && cs[i..][1..] == cs[i + 1..];
        if child.name == "package" {
          var name := Attr(child, "name");
          if name.None? {
            return Fail(NullReference);
          }
          r := configuration.RegisterAliases(PackageClasses(name.value, world));
          if r.Fail? {
            return;
          }
        } else {
          var alias := Attr(child, "alias");
          var typeName := Attr(child, "type");
          if typeName.None? {
            return Fail(NullReference);
          }
          if typeName.value !in world.loadableClasses {
            return Fail(TypeAliasClassNotFound(alias, typeName.value));
          }
          if alias.None? {
            r := configuration.RegisterAlias(SimpleName(typeName.value), typeName.value);
          } else {
            r := configuration.RegisterAlias(alias.value, typeName.value);
          }
          if r.Fail? {
            return;
          }
        }
      }
      return Pass;
    }

    /** `pluginElement(parent)`: one interceptor per child, in order. */
    method PluginElement(parent: Option<XNode>) returns (r: Outcome)
      modifies configuration
      ensures Agrees(r, SectionStage(PluginsSection, parent, old(configuration.State()), world), configuration.State())
    {
      if parent.None? {
        return Pass;
      }
      var cs := parent.value.children;
      for i := 0 to |cs|
        invariant Fold(PluginsSection, cs[i..], configuration.State(), world)
                  == Fold(PluginsSection, cs, old(configuration.State()), world)
      {
        var child := cs[i];
        assert cs[i..][0] == child && cs[i..][1..] == cs[i + 1..];
        var interceptor := Extension(Attr(child, "interceptor"), ChildrenAsProperties(child), configuration.typeAliases, world);
        if interceptor.Err? {
          return Fail(interceptor.cause);
        }
        configuration.AddInterceptor(interceptor.value);
      }
      return Pass;
    }

    /** `objectFactoryElement(context)`. */
    method ObjectFactoryElement(context: Option<XNode>) returns (r: Outcome)
      modifies configuration
      ensures Agrees(r, ObjectFactoryStage(context, old(configuration.State()), world), configuration.State())
    {
      if context.None? {
        return Pass;
      }
      var factory := Extension(Attr(context.value, "type"), ChildrenAsProperties(context.value), configuration.typeAliases, world);
      if factory.Err? {
        return Fail(factory.cause);
      }
      configuration.SetObjectFactory(factory.value);
      return Pass;
    }

    /** `objectWrapperFactoryElement(context)`. */
    method ObjectWrapperFactoryElement(context: Option<XNode>) returns (r: Outcome)
      modifies configuration
      ensures Agrees(r, ObjectWrapperFactoryStage(context, old(configuration.State()), world), configuration.State())
    {
      if context.None? {
        return Pass;
      }
      var factory := Extension(Attr(context.value, "type"), map[], configuration.typeAliases, world);
      if factory.Err? {
        return Fail(factory.cause);
      }
      configuration.SetObjectWrapperFactory(factory.value);
      return Pass;
    }

    /** `reflectorFactoryElement(context)`. */
    method ReflectorFactoryElement(context: Option<XNode>) returns (r: Outcome)
      modifies configuration
      ensures Agrees(r, ReflectorFactoryStage(context, old(configuration.State()), world), configuration.State())
    {
      if context.None? {
        return Pass;
      }
      var factory := Extension(Attr(context.value, "type"), map[], configuration.typeAliases, world);
      if factory.Err? {
        return Fail(factory.cause);
      }
      configuration.SetReflectorFactory(factory.value);
      return Pass;
    }

    /** `settingsElement(props)`. */
    method SettingsElement(props: Props) returns (r: Outcome)
      modifies configuration
      ensures Agrees(r, SettingsStage(props, old(configuration.State()), world), configuration.State())
    {
      var settings := ResolveSettings(props, configuration.typeAliases, world);
      if settings.Err? {
        return Fail(settings.cause);
      }
      configuration.ApplySettings(settings.value);
      return Pass;
    }

    /** `environmentsElement(context)`: fills in the target from `default` when
        the caller gave none, then installs every child whose id is the target. */
    method EnvironmentsElement(context: Option<XNode>) returns (r: Outcome)
      modifies this`environment, configuration
      ensures context.Some? ==> environment == EnvironmentTarget(old(environment), context.value)
      ensures context.None? ==> environment == old(environment)
      ensures Agrees(r, EnvironmentsStage(old(environment), context, old(configuration.State()), world), configuration.State())
    {
      if context.None? {
        return Pass;
      }
      var ctx := context.value;
      if environment.None? {
        environment := Attr(ctx, "default");
      }
      var cs := ctx.children;
      for i := 0 to |cs|
        invariant environment == EnvironmentTarget(old(environment), ctx)
        invariant Fold(EnvironmentsSection(environment), cs[i..], configuration.State(), world)
                  == Fold(EnvironmentsSection(environment), cs, old(configuration.State()), world)
      {
        var child := cs[i];
        assert cs[i..][0] == child && cs[i..][1..] == cs[i + 1..];
        var id := Attr(child, "id");
        var selected := IsSpecifiedEnvironment(environment, id);
        if selected.Err? {
          return Fail(selected.cause);
        }
        if selected.value {
          var txFactory := TransactionManagerElement(Child(child, "transactionManager"), configuration.typeAliases, world);
          if txFactory.Err? {
            return Fail(txFactory.cause);
          }
          var dsFactory := DataSourceElement(Child(child, "dataSource"), configuration.typeAliases, world);
          if dsFactory.Err? {
            return Fail(dsFactory.cause);
          }
          configuration.SetEnvironment(Environment(id.value, txFactory.value, DataSource(dsFactory.value)));
        }
      }
      return Pass;
    }

    /** `databaseIdProviderElement(context)`. */
    method DatabaseIdProviderElement(context: Option<XNode>) returns (r: Outcome)
      modifies configuration
      ensures Agrees(r, DatabaseIdStage(context, old(configuration.State()), world), configuration.State())
    {
      var databaseIdProvider: Option<Instance> := None;
      if context.Some? {
        var typeName := Attr(context.value, "type");
        if typeName == Some("VENDOR") {
          typeName := Some("DB_VENDOR");
        }
        var provider := Extension(typeName, ChildrenAsProperties(context.value), configuration.typeAliases, world);
        if provider.Err? {
          return Fail(provider.cause);
        }
        databaseIdProvider := Some(provider.value);
      }
      var env := configuration.environment;
      if env.Some? && databaseIdProvider.Some? {
        configuration.SetDatabaseId(DatabaseIdOf(databaseIdProvider.value, env.value.dataSource, world));
      }
      return Pass;
    }

    /** `typeHandlerElement(parent)`: a package, or the overload the attributes select. */
    method TypeHandlerElement(parent: Option<XNode>) returns (r: Outcome)
      modifies configuration
      ensures Agrees(r, SectionStage(TypeHandlersSection, parent, old(configuration.State()), world), configuration.State())
    {
      if parent.None? {
        return Pass;
      }
      var cs := parent.value.children;
      for i := 0 to |cs|
        invariant Fold(TypeHandlersSection, cs[i..], configuration.State(), world)
                  == Fold(TypeHandlersSection, cs, old(configuration.State()), world)
      {
        var child := cs[i];
        assert cs[i..][0] == child && cs[i..][1..] == cs[i + 1..];
        if child.name == "package" {
          var name := Attr(child, "name");
          if name.None? {
            return Fail(NullReference);
          }
          configuration.RegisterTypeHandler(HandlerPackage(name.value));
        } else {
          var javaTypeClass := ResolveClass(Attr(child, "javaType"), configuration.typeAliases, world);
          if javaTypeClass.Err? {
            return Fail(javaTypeClass.cause);
          }
          var jdbcType := ResolveJdbcType(Attr(child, "jdbcType"));
          if jdbcType.Err? {
            return Fail(jdbcType.cause);
          }
          var typeHandlerClass := ResolveClass(Attr(child, "handler"), configuration.typeAliases, world);
          if typeHandlerClass.Err? {
            return Fail(typeHandlerClass.cause);
          }
          if javaTypeClass.value.Some? {
            if jdbcType.value.None? {
              configuration.RegisterTypeHandler(ForJava(javaTypeClass.value.value, typeHandlerClass.value));
            } else {
              configuration.RegisterTypeHandler(ForJavaAndJdbc(javaTypeClass.value.value, jdbcType.value.value, typeHandlerClass.value));
            }
          } else {
            configuration.RegisterTypeHandler(HandlerOnly(typeHandlerClass.value));
          }
        }
      }
      return Pass;
    }

    /** `mapperElement(parent)`: a package, or exactly one of resource, url and class. */
    method MapperElement(parent: Option<XNode>) returns (r: Outcome)
      modifies configuration
      ensures Agrees(r, SectionStage(MappersSection, parent, old(configuration.State()), world), configuration.State())
    {
      if parent.None? {
        return Pass;
      }
      var cs := parent.value.children;
      for i := 0 to |cs|
        invariant Fold(MappersSection, cs[i..], configuration.State(), world)
                  == Fold(MappersSection, cs, old(configuration.State()), world)
      {
        var child := cs[i];
        assert cs[i..][0] == child && cs[i..][1..] == cs[i + 1..];
        if child.name == "package" {
          var name := Attr(child, "name");
          if name.None? {
            return Fail(NullReference);
          }
          configuration.AddMapper(MapperPackage(name.value));
        } else {
          var resource := Attr(child, "resource");
          var url := Attr(child, "url");
          var mapperClass := Attr(child, "class");
          if resource.Some? && url.None? && mapperClass.None? {
            if resource.value !in world.mapperResources {
              return Fail(MapperResourceNotFound(resource.value));
            }
            configuration.AddMapper(MapperResource(resource.value));
          } else if resource.None? && url.Some? && mapperClass.None? {
            if url.value !in world.mapperUrls {
              return Fail(MapperUrlNotFound(url.value));
            }
            configuration.AddMapper(MapperUrl(url.value));
          } else if resource.None? && url.None? && mapperClass.Some? {
            if mapperClass.value !in world.loadableClasses {
              return Fail(MapperClassNotFound(mapperClass.value));
            }
            configuration.AddMapper(MapperClass(mapperClass.value));
          } else {
            return Fail(ConflictingMapperReference);
          }
        }
      }
      return Pass;
    }
  }

  /** A client of the builder: a second `parse` on the same builder is refused,
      whatever the first one did. */
  method ParseTwice(document: XNode, environment: Option<string>, props: Option<Props>, w: World)
    returns (first: ParseResult, second: ParseResult)
    ensures first.Built? <==> Pipeline(document, InitialState(props, w), environment, w).Ok?
    ensures first.Failed? ==> first.cause == Pipeline(document, InitialState(props, w), environment, w).cause
    ensures second == AlreadyUsed
  {
    var builder := new XMLConfigBuilder(document, environment, props, w);
    first := builder.Parse();
    second := builder.Parse();
  }
}
