/** The `Configuration` aggregate, restricted to the fields the builder writes,
    with the mutators the builder calls. Each mutator changes its own field and
    nothing else; `State` is the value of all the fields together. */
module Session {
  import opened Failures
  import opened Text
  import opened Nodes
  import opened Collaborators
  import opened ConfigSettings
  import opened Assembly

  class Configuration {
    var variables: Option<Props>
    var typeAliases: map<string, string>
    var interceptors: seq<Instance>
    var objectFactory: Option<Instance>
    var objectWrapperFactory: Option<Instance>
    var reflectorFactory: Option<Instance>
    var settings: Option<Settings>
    var environment: Option<Environment>
    var databaseId: Option<string>
    var typeHandlers: seq<TypeHandlerRegistration>
    var mappers: seq<MapperRegistration>

    function State(): ConfigState
      reads this
    {
      ConfigState(variables, typeAliases, interceptors, objectFactory, objectWrapperFactory, reflectorFactory,
                  settings, environment, databaseId, typeHandlers, mappers)
    }

    /** `new Configuration()` followed by `setVariables(props)`. */
    constructor (props: Option<Props>, w: World)
      ensures State() == InitialState(props, w)
    {
      variables := props;
      typeAliases := w.builtinAliases;
      interceptors := [];
      objectFactory := None;
      objectWrapperFactory := None;
      reflectorFactory := None;
      settings := None;
      environment := None;
      databaseId := None;
      typeHandlers := [];
      mappers := [];
    }

    method SetVariables(v: Option<Props>)
      modifies this
      ensures State() == old(State()).(variables := v)
    {
      variables := v;
    }

    /** `TypeAliasRegistry.registerAlias(alias, cls)`. A conflicting key changes nothing. */
    method RegisterAlias(alias: string, cls: string) returns (r: Outcome)
      modifies this
      ensures match Collaborators.RegisterAlias(old(typeAliases), alias, cls)
              case Ok(m) => r == Pass && State() == old(State()).(typeAliases := m)
              case Err(c) => r == Fail(c) && State() == old(State())
    {
      var key := Lower(alias);
      if key in typeAliases && typeAliases[key] != cls {
        return Fail(AliasConflict(key));
      }
      typeAliases := typeAliases[key := cls];
      return Pass;
    }

    /** `TypeAliasRegistry.registerAliases(packageName)`: each scanned class under
        its simple name, in order, stopping at the first conflict. */
    method RegisterAliases(classes: seq<string>) returns (r: Outcome)
      modifies this
      ensures match RegisterAll(old(typeAliases), classes)
              case Ok(m) => r == Pass && State() == old(State()).(typeAliases := m)
              case Err(c) => r == Fail(c)
    {
      for i := 0 to |classes|
        invariant RegisterAll(typeAliases, classes[i..]) == RegisterAll(old(typeAliases), classes)
        invariant State() == old(State()).(typeAliases := typeAliases)
      {
        var cls := classes[i];
        r := RegisterAlias(SimpleName(cls), cls);
        if r.Fail? {
          return;
        }
        assert classes[i..][1..] == classes[i + 1..];
      }
      return Pass;
    }

    method AddInterceptor(interceptor: Instance)
      modifies this
      ensures State() == old(State()).(interceptors := old(interceptors) + [interceptor])
    {
      interceptors := interceptors + [interceptor];
    }

    method SetObjectFactory(factory: Instance)
      modifies this
      ensures State() == old(State()).(objectFactory := Some(factory))
    {
      objectFactory := Some(factory);
    }

    method SetObjectWrapperFactory(factory: Instance)
      modifies this
      ensures State() == old(State()).(objectWrapperFactory := Some(factory))
    {
      objectWrapperFactory := Some(factory);
    }

    method SetReflectorFactory(factory: Instance)
      modifies this
      ensures State() == old(State()).(reflectorFactory := Some(factory))
    {
      reflectorFactory := Some(factory);
    }

    /** The setters `settingsElement` calls, as one assignment of the whole record. */
    method ApplySettings(s: Settings)
      modifies this
      ensures State() == old(State()).(settings := Some(s))
    {
      settings := Some(s);
    }

    method SetEnvironment(e: Environment)
      modifies this
      ensures State() == old(State()).(environment := Some(e))
    {
      environment := Some(e);
    }

    method SetDatabaseId(id: Option<string>)
      modifies this
      ensures State() == old(State()).(databaseId := id)
    {
      databaseId := id;
    }

    /** One `TypeHandlerRegistry.register` call, recorded. */
    method RegisterTypeHandler(registration: TypeHandlerRegistration)
      modifies this
      ensures State() == old(State()).(typeHandlers := old(typeHandlers) + [registration])
    {
      typeHandlers := typeHandlers + [registration];
    }

    /** One `addMappers`/`addMapper` call or one parsed mapper file, recorded. */
    method AddMapper(registration: MapperRegistration)
      modifies this
      ensures State() == old(State()).(mappers := old(mappers) + [registration])
    {
      mappers := mappers + [registration];
    }
  }
}
