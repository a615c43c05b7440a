/** The configuration build as a value: the state of the `Configuration`
    aggregate, one function per section of the document, and `Pipeline`, the
    sections in the order `parseConfiguration` reads them. The imperative
    builder is proved to compute exactly these values; the properties of the
    build are stated and proved here. */
module Assembly {
  import opened Failures
  import opened Text
  import opened Nodes
  import opened Collaborators
  import opened ConfigSettings

  /** `Environment`: an id with the transaction factory and the data source built for it. */
  datatype Environment = Environment(id: string, transactionFactory: Instance, dataSource: DataSource)

  /** The `TypeHandlerRegistry.register` overload a `typeHandlers` child selects. */
  datatype TypeHandlerRegistration =
    | HandlerPackage(packageName: string)
    | ForJavaAndJdbc(javaType: string, jdbcType: string, handler: Option<string>)
    | ForJava(javaType: string, handler: Option<string>)
    | HandlerOnly(handler: Option<string>)

  /** What a `mappers` child hands to the mapper machinery. */
  datatype MapperRegistration =
    | MapperPackage(packageName: string)
    | MapperResource(resource: string)
    | MapperUrl(url: string)
    | MapperClass(className: string)

  /** The fields of `Configuration` the builder touches. `settings` is the record
      of everything `settingsElement` sets, or nothing before it has run. */
  datatype ConfigState = ConfigState(
    variables: Option<Props>,
    typeAliases: map<string, string>,
    interceptors: seq<Instance>,
    objectFactory: Option<Instance>,
    objectWrapperFactory: Option<Instance>,
    reflectorFactory: Option<Instance>,
    settings: Option<Settings>,
    environment: Option<Environment>,
    databaseId: Option<string>,
    typeHandlers: seq<TypeHandlerRegistration>,
    mappers: seq<MapperRegistration>)

  /** A fresh configuration whose variables are the caller's. */
  function InitialState(vars: Option<Props>, w: World): ConfigState {
    ConfigState(vars, w.builtinAliases, [], None, None, None, None, None, None, [], [])
  }

  // ---------------------------------------------------------------------
  // properties

  /** The bag the `resource` or the `url` attribute names. Giving both fails
      before either is loaded; giving neither loads nothing. */
  function LoadedProperties(context: XNode, w: World): (r: Result<Props>)
    ensures r == Err(ConflictingPropertySources) <==> Attr(context, "resource").Some? && Attr(context, "url").Some?
    ensures Attr(context, "resource").None? && Attr(context, "url").None? ==> r == Ok(map[])
    ensures Attr(context, "resource").Some? && Attr(context, "url").None? ==>
              var res := Attr(context, "resource").value;
              if res in w.propertyResources then r == Ok(w.propertyResources[res]) else r == Err(PropertiesResourceNotFound(res))
    ensures Attr(context, "resource").None? && Attr(context, "url").Some? ==>
              var url := Attr(context, "url").value;
              if url in w.propertyUrls then r == Ok(w.propertyUrls[url]) else r == Err(PropertiesUrlNotFound(url))
  {
    var resource := Attr(context, "resource");
    var url := Attr(context, "url");
    if resource.Some? && url.Some? then Err(ConflictingPropertySources)
    else if resource.Some? then
      if resource.value in w.propertyResources then Ok(w.propertyResources[resource.value])
      else Err(PropertiesResourceNotFound(resource.value))
    else if url.Some? then
      if url.value in w.propertyUrls then Ok(w.propertyUrls[url.value])
      else Err(PropertiesUrlNotFound(url.value))
    else Ok(map[])
  }

  /** `merged` holds every key of the three layers, each with the value of the
      highest layer that has it: `vars` over `loaded` over `inline`. */
  predicate Layered(merged: Props, inline: Props, loaded: Props, vars: Props) {
    && merged.Keys == inline.Keys + loaded.Keys + vars.Keys
    && (forall k :: k in vars ==> merged[k] == vars[k])
    && (forall k :: k in loaded && k !in vars ==> merged[k] == loaded[k])
    && (forall k :: k in inline && k !in loaded && k !in vars ==> merged[k] == inline[k])
  }

  /** The bag `propertiesElement` installs: inline children, then the loaded
      file, then the variables the configuration already holds. */
  function MergedProperties(context: XNode, vars: Option<Props>, w: World): (r: Result<Props>)
    ensures r.Ok? <==> LoadedProperties(context, w).Ok?
    ensures r.Err? ==> r.cause == LoadedProperties(context, w).cause
    ensures r.Ok? ==> Layered(r.value, ChildrenAsProperties(context), LoadedProperties(context, w).value, vars.GetOr(map[]))
  {
    var loaded :- LoadedProperties(context, w);
    Ok(ChildrenAsProperties(context) + loaded + vars.GetOr(map[]))
  }

  /** `propertiesElement`: an absent element leaves the variables alone; otherwise
      the merged bag replaces them and nothing else changes. */
  function PropertiesStage(context: Option<XNode>, st: ConfigState, w: World): (r: Result<ConfigState>)
    ensures context.None? ==> r == Ok(st)
    ensures r.Ok? ==> r.value == st.(variables := r.value.variables)
    ensures context.Some? ==> (r.Ok? <==> MergedProperties(context.value, st.variables, w).Ok?)
    ensures r.Ok? && context.Some? ==> r.value == st.(variables := Some(MergedProperties(context.value, st.variables, w).value))
  {
    match context
    case None => Ok(st)
    case Some(c) =>
      var merged :- MergedProperties(c, st.variables, w);
      Ok(st.(variables := Some(merged)))
  }

  // ---------------------------------------------------------------------
  // settings

  /** The keys of `entries`, in order. */
  function EntryNames(entries: seq<(string, string)>): (r: seq<string>)
    ensures |r| == |entries|
    ensures forall i :: 0 <= i < |entries| ==> r[i] == entries[i].0
  {
    seq(|entries|, i requires 0 <= i < |entries| => entries[i].0)
  }

  /** The first name that is not known, if any. */
  function FirstUnknown(names: seq<string>, known: set<string>): (r: Option<string>)
    ensures r.None? <==> forall n :: n in names ==> n in known
    ensures r.Some? ==> r.value in names && r.value !in known
  {
    if names == [] then None
    else if names[0] !in known then Some(names[0])
    else FirstUnknown(names[1..], known)
  }

  /** `settingsAsProperties`: the settings bag when every key in it names a
      setter of the configuration; otherwise the first unknown key in document
      order. An absent element gives the empty bag. */
  function ValidatedSettings(context: Option<XNode>, known: set<string>): (r: Result<Props>)
    ensures context.None? ==> r == Ok(map[])
    ensures context.Some? ==> (r.Ok? <==> ChildrenAsProperties(context.value).Keys <= known)
    ensures context.Some? && r.Ok? ==> r.value == ChildrenAsProperties(context.value)
    ensures r.Err? ==> context.Some? && r.cause.UnknownSetting?
                       && r.cause.key in ChildrenAsProperties(context.value) && r.cause.key !in known
  {
    match context
    case None => Ok(map[])
    case Some(c) =>
      var entries := Entries(c.children);
      var names := EntryNames(entries);
      assert forall n :: n in names <==> n in ChildrenAsProperties(c) by {
        forall n ensures n in names <==> n in ChildrenAsProperties(c) {
          if n in names {
            var i :| 0 <= i < |names| && names[i] == n;
            assert entries[i] in entries;
          }
        }
      }
      match FirstUnknown(names, known)
      case None => Ok(ChildrenAsProperties(c))
      case Some(k) => Err(UnknownSetting(k))
  }

  /** `settingsElement`: the record resolved from the validated bag, with class
      names resolved through the alias table as it stands at this point. */
  function SettingsStage(bag: Props, st: ConfigState, w: World): (r: Result<ConfigState>)
    ensures r.Ok? <==> ResolveSettings(bag, st.typeAliases, w).Ok?
    ensures r.Ok? ==> r.value == st.(settings := Some(ResolveSettings(bag, st.typeAliases, w).value))
    ensures bag == map[] ==> r == Ok(st.(settings := Some(Defaults)))
  {
    EmptyBagGivesDefaults(st.typeAliases, w);
    var s :- ResolveSettings(bag, st.typeAliases, w);
    Ok(st.(settings := Some(s)))
  }

  // ---------------------------------------------------------------------
  // factories

  /** `objectFactoryElement`: the factory is created with the element's property bag. */
  function ObjectFactoryStage(context: Option<XNode>, st: ConfigState, w: World): (r: Result<ConfigState>)
    ensures context.None? ==> r == Ok(st)
    ensures context.Some? && Attr(context.value, "type").None? ==> r == Err(NullReference)
    ensures r.Ok? && context.Some? ==>
              && r.value == st.(objectFactory := r.value.objectFactory)
              && r.value.objectFactory.Some?
              && r.value.objectFactory.value.properties == ChildrenAsProperties(context.value)
              && ResolveClass(Attr(context.value, "type"), st.typeAliases, w) == Ok(Some(r.value.objectFactory.value.className))
    ensures context.Some? ==> (r.Ok? <==> Builds(Attr(context.value, "type"), st.typeAliases, w))
    ensures context.Some? && r.Err? ==> r == Err(Extension(Attr(context.value, "type"), ChildrenAsProperties(context.value), st.typeAliases, w).cause)
  {
    match context
    case None => Ok(st)
    case Some(c) =>
      var factory :- Extension(Attr(c, "type"), ChildrenAsProperties(c), st.typeAliases, w);
      Ok(st.(objectFactory := Some(factory)))
  }

  /** `objectWrapperFactoryElement`: the factory gets no properties. */
  function ObjectWrapperFactoryStage(context: Option<XNode>, st: ConfigState, w: World): (r: Result<ConfigState>)
    ensures context.None? ==> r == Ok(st)
    ensures context.Some? && Attr(context.value, "type").None? ==> r == Err(NullReference)
    ensures r.Ok? && context.Some? ==>
              && r.value == st.(objectWrapperFactory := r.value.objectWrapperFactory)
              && r.value.objectWrapperFactory.Some?
              && r.value.objectWrapperFactory.value.properties == map[]
              && ResolveClass(Attr(context.value, "type"), st.typeAliases, w) == Ok(Some(r.value.objectWrapperFactory.value.className))
    ensures context.Some? ==> (r.Ok? <==> Builds(Attr(context.value, "type"), st.typeAliases, w))
    ensures context.Some? && r.Err? ==> r == Err(Extension(Attr(context.value, "type"), map[], st.typeAliases, w).cause)
  {
    match context
    case None => Ok(st)
    case Some(c) =>
      var factory :- Extension(Attr(c, "type"), map[], st.typeAliases, w);
      Ok(st.(objectWrapperFactory := Some(factory)))
  }

  /** `reflectorFactoryElement`: the factory gets no properties. */
  function ReflectorFactoryStage(context: Option<XNode>, st: ConfigState, w: World): (r: Result<ConfigState>)
    ensures context.None? ==> r == Ok(st)
    ensures context.Some? && Attr(context.value, "type").None? ==> r == Err(NullReference)
    ensures r.Ok? && context.Some? ==>
              && r.value == st.(reflectorFactory := r.value.reflectorFactory)
              && r.value.reflectorFactory.Some?
              && r.value.reflectorFactory.value.properties == map[]
              && ResolveClass(Attr(context.value, "type"), st.typeAliases, w) == Ok(Some(r.value.reflectorFactory.value.className))
    ensures context.Some? ==> (r.Ok? <==> Builds(Attr(context.value, "type"), st.typeAliases, w))
    ensures context.Some? && r.Err? ==> r == Err(Extension(Attr(context.value, "type"), map[], st.typeAliases, w).cause)
  {
    match context
    case None => Ok(st)
    case Some(c) =>
      var factory :- Extension(Attr(c, "type"), map[], st.typeAliases, w);
      Ok(st.(reflectorFactory := Some(factory)))
  }

  // ---------------------------------------------------------------------
  // environments

  /** The environment the builder looks for: the caller's, or else the
      element's `default` attribute. */
  function EnvironmentTarget(explicit: Option<string>, context: XNode): (r: Option<string>)
    ensures explicit.Some? ==> r == explicit
    ensures explicit.None? ==> r == Attr(context, "default")
  {
    if explicit.Some? then explicit else Attr(context, "default")
  }

  /** `isSpecifiedEnvironment(id)`: fails without a target, then without an id;
      otherwise tells whether the id is the target. */
  function IsSpecifiedEnvironment(target: Option<string>, id: Option<string>): (r: Result<bool>)
    ensures r == Err(NoEnvironmentSpecified) <==> target.None?
    ensures r == Err(EnvironmentRequiresId) <==> target.Some? && id.None?
    ensures r.Ok? <==> target.Some? && id.Some?
    ensures r.Ok? ==> (r.value <==> target.value == id.value)
  {
    if target.None? then Err(NoEnvironmentSpecified)
    else if id.None? then Err(EnvironmentRequiresId)
    else Ok(target.value == id.value)
  }

  /** `transactionManagerElement`: an absent element fails naming the factory kind. */
  function TransactionManagerElement(context: Option<XNode>, aliases: map<string, string>, w: World): (r: Result<Instance>)
    ensures context.None? ==> r == Err(MissingTransactionFactory)
    ensures r.Ok? ==> context.Some? && r.value.properties == ChildrenAsProperties(context.value)
                      && ResolveClass(Attr(context.value, "type"), aliases, w) == Ok(Some(r.value.className))
    ensures context.Some? ==> (r.Ok? <==> Builds(Attr(context.value, "type"), aliases, w))
  {
    match context
    case None => Err(MissingTransactionFactory)
    case Some(c) => Extension(Attr(c, "type"), ChildrenAsProperties(c), aliases, w)
  }

  /** `dataSourceElement`: an absent element fails naming the factory kind. */
  function DataSourceElement(context: Option<XNode>, aliases: map<string, string>, w: World): (r: Result<Instance>)
    ensures context.None? ==> r == Err(MissingDataSourceFactory)
    ensures r.Ok? ==> context.Some? && r.value.properties == ChildrenAsProperties(context.value)
                      && ResolveClass(Attr(context.value, "type"), aliases, w) == Ok(Some(r.value.className))
    ensures context.Some? ==> (r.Ok? <==> Builds(Attr(context.value, "type"), aliases, w))
  {
    match context
    case None => Err(MissingDataSourceFactory)
    case Some(c) => Extension(Attr(c, "type"), ChildrenAsProperties(c), aliases, w)
  }

  /** The environment a selected `environment` child builds: its transaction
      factory first, then its data-source factory and the data source it hands out. */
  function EnvironmentOf(child: XNode, id: string, aliases: map<string, string>, w: World): (r: Result<Environment>)
    ensures r.Ok? ==> r.value.id == id
    ensures Child(child, "transactionManager").None? ==> r == Err(MissingTransactionFactory)
    ensures TransactionManagerElement(Child(child, "transactionManager"), aliases, w).Ok? && Child(child, "dataSource").None? ==>
              r == Err(MissingDataSourceFactory)
    ensures r.Ok? <==> TransactionManagerElement(Child(child, "transactionManager"), aliases, w).Ok?
                       && DataSourceElement(Child(child, "dataSource"), aliases, w).Ok?
  {
    var tx :- TransactionManagerElement(Child(child, "transactionManager"), aliases, w);
    var ds :- DataSourceElement(Child(child, "dataSource"), aliases, w);
    Ok(Environment(id, tx, DataSource(ds)))
  }

  // ---------------------------------------------------------------------
  // type aliases, type handlers, mappers

  /** The classes a package scan finds; an unknown package has none. */
  function PackageClasses(packageName: string, w: World): seq<string> {
    if packageName in w.packageClasses then w.packageClasses[packageName] else []
  }

  /** One `typeAliases` child: a package registers every class it holds under its
      simple name; a `typeAlias` loads its type and registers it under the given
      alias, or under the simple name when there is none. */
  function AliasEntry(child: XNode, aliases: map<string, string>, w: World): (r: Result<map<string, string>>)
    ensures r.Ok? ==> aliases.Keys <= r.value.Keys
    ensures child.name == "package" ==>
              r == (if Attr(child, "name").Some? then RegisterAll(aliases, PackageClasses(Attr(child, "name").value, w))
                    else Err(NullReference))
    ensures child.name != "package" && Attr(child, "type").None? ==> r == Err(NullReference)
    ensures child.name != "package" && Attr(child, "type").Some? && Attr(child, "type").value in w.loadableClasses ==>
              var t := Attr(child, "type").value;
              r == RegisterAlias(aliases, Attr(child, "alias").GetOr(SimpleName(t)), t)
    ensures child.name != "package" && Attr(child, "type").Some? && Attr(child, "type").value !in w.loadableClasses ==>
              r == Err(TypeAliasClassNotFound(Attr(child, "alias"), Attr(child, "type").value))
    ensures r.Ok? && child.name != "package" ==>
              var t := Attr(child, "type");
              var key := Lower(Attr(child, "alias").GetOr(SimpleName(t.GetOr(""))));
              t.Some? && key in r.value && r.value[key] == t.value
  {
    if child.name == "package" then
      match Attr(child, "name")
      case None => Err(NullReference)
      case Some(p) => RegisterAll(aliases, PackageClasses(p, w))
    else
      var alias := Attr(child, "alias");
      match Attr(child, "type")
      case None => Err(NullReference)
      case Some(t) =>
        if t !in w.loadableClasses then Err(TypeAliasClassNotFound(alias, t))
        else RegisterAlias(aliases, alias.GetOr(SimpleName(t)), t)
  }

  /** One `typeHandlers` child: the overload its attributes select. */
  function HandlerEntry(child: XNode, aliases: map<string, string>, w: World): (r: Result<TypeHandlerRegistration>)
    ensures child.name == "package" ==>
              r == (if Attr(child, "name").Some? then Ok(HandlerPackage(Attr(child, "name").value)) else Err(NullReference))
    ensures r.Ok? && child.name != "package" ==>
              var javaType := ResolveClass(Attr(child, "javaType"), aliases, w);
              var jdbcType := ResolveJdbcType(Attr(child, "jdbcType"));
              && javaType.Ok? && jdbcType.Ok?
              && (javaType.value.None? <==> r.value.HandlerOnly?)
              && (javaType.value.Some? && jdbcType.value.None? <==> r.value.ForJava?)
              && (javaType.value.Some? && jdbcType.value.Some? <==> r.value.ForJavaAndJdbc?)
              && ResolveClass(Attr(child, "handler"), aliases, w) == Ok(r.value.handler)
              && (r.value.ForJava? ==> javaType.value == Some(r.value.javaType))
              && (r.value.ForJavaAndJdbc? ==>
                    javaType.value == Some(r.value.javaType) && jdbcType.value == Some(r.value.jdbcType))
    ensures child.name != "package" && ResolveClass(Attr(child, "javaType"), aliases, w).Err? ==>
              r == Err(ResolveClass(Attr(child, "javaType"), aliases, w).cause)
    ensures child.name != "package" && ResolveClass(Attr(child, "javaType"), aliases, w).Ok?
            && Attr(child, "jdbcType").Some? && Attr(child, "jdbcType").value !in JdbcTypeNames ==>
              r == Err(BadJdbcType(Attr(child, "jdbcType").value))
    ensures child.name != "package" && ResolveClass(Attr(child, "javaType"), aliases, w).Ok?
            && ResolveJdbcType(Attr(child, "jdbcType")).Ok? ==>
              && (r.Ok? <==> ResolveClass(Attr(child, "handler"), aliases, w).Ok?)
              && (r.Err? ==> r == Err(ResolveClass(Attr(child, "handler"), aliases, w).cause))
  {
    if child.name == "package" then
      match Attr(child, "name")
      case None => Err(NullReference)
      case Some(p) => Ok(HandlerPackage(p))
    else
      var javaType :- ResolveClass(Attr(child, "javaType"), aliases, w);
      var jdbcType :- ResolveJdbcType(Attr(child, "jdbcType"));
      var handler :- ResolveClass(Attr(child, "handler"), aliases, w);
      if javaType.Some? then
        if jdbcType.None? then Ok(ForJava(javaType.value, handler))
        else Ok(ForJavaAndJdbc(javaType.value, jdbcType.value, handler))
      else Ok(HandlerOnly(handler))
  }

  /** One for an attribute that is given, zero for one that is not. */
  function Given(attribute: Option<string>): nat {
    if attribute.Some? then 1 else 0
  }

  /** A non-package `mappers` child names its mapper by exactly one of
      `resource`, `url` and `class`; none, two or three of them is one error. */
  function MapperReference(resource: Option<string>, url: Option<string>, mapperClass: Option<string>): (r: Result<MapperRegistration>)
    ensures r.Ok? <==> Given(resource) + Given(url) + Given(mapperClass) == 1
    ensures r.Err? ==> r.cause == ConflictingMapperReference
    ensures r.Ok? && resource.Some? ==> r.value == MapperResource(resource.value)
    ensures r.Ok? && url.Some? ==> r.value == MapperUrl(url.value)
    ensures r.Ok? && mapperClass.Some? ==> r.value == MapperClass(mapperClass.value)
  {
    if resource.Some? && url.None? && mapperClass.None? then Ok(MapperResource(resource.value))
    else if resource.None? && url.Some? && mapperClass.None? then Ok(MapperUrl(url.value))
    else if resource.None? && url.None? && mapperClass.Some? then Ok(MapperClass(mapperClass.value))
    else Err(ConflictingMapperReference)
  }

  /** One `mappers` child: a package, or a single reference whose resource, URL
      or class must be found. */
  function MapperEntry(child: XNode, w: World): (r: Result<MapperRegistration>)
    ensures child.name == "package" ==>
              r == (if Attr(child, "name").Some? then Ok(MapperPackage(Attr(child, "name").value)) else Err(NullReference))
    ensures child.name != "package" && Attr(child, "resource").Some? && Attr(child, "url").None? && Attr(child, "class").None? ==>
              var res := Attr(child, "resource").value;
              r == (if res in w.mapperResources then Ok(MapperResource(res)) else Err(MapperResourceNotFound(res)))
    ensures child.name != "package" && Attr(child, "resource").None? && Attr(child, "url").Some? && Attr(child, "class").None? ==>
              var url := Attr(child, "url").value;
              r == (if url in w.mapperUrls then Ok(MapperUrl(url)) else Err(MapperUrlNotFound(url)))
    ensures child.name != "package" && Attr(child, "resource").None? && Attr(child, "url").None? && Attr(child, "class").Some? ==>
              var cls := Attr(child, "class").value;
              r == (if cls in w.loadableClasses then Ok(MapperClass(cls)) else Err(MapperClassNotFound(cls)))
    ensures child.name != "package" && MapperReference(Attr(child, "resource"), Attr(child, "url"), Attr(child, "class")).Err? ==>
              r == Err(ConflictingMapperReference)
    ensures r.Ok? && child.name != "package" ==>
              && r.value == MapperReference(Attr(child, "resource"), Attr(child, "url"), Attr(child, "class")).value
              && (r.value.MapperResource? ==> r.value.resource in w.mapperResources)
              && (r.value.MapperUrl? ==> r.value.url in w.mapperUrls)
              && (r.value.MapperClass? ==> r.value.className in w.loadableClasses)
  {
    if child.name == "package" then
      match Attr(child, "name")
      case None => Err(NullReference)
      case Some(p) => Ok(MapperPackage(p))
    else
      var reference :- MapperReference(Attr(child, "resource"), Attr(child, "url"), Attr(child, "class"));
      match reference
      case MapperResource(res) => if res in w.mapperResources then Ok(reference) else Err(MapperResourceNotFound(res))
      case MapperUrl(url) => if url in w.mapperUrls then Ok(reference) else Err(MapperUrlNotFound(url))
      case MapperClass(cls) => if cls in w.loadableClasses then Ok(reference) else Err(MapperClassNotFound(cls))
      case MapperPackage(_) => Ok(reference)
  }

  // ---------------------------------------------------------------------
  // sections read child by child

  /** The sections whose children are processed one after the other. */
  datatype Section =
    | TypeAliasesSection
    | PluginsSection
    | EnvironmentsSection(target: Option<string>)
    | TypeHandlersSection
    | MappersSection

  /** The part of the configuration a section may change, and how: the alias
      table only gains keys, the interceptor, type-handler and mapper lists only
      grow at the end, and the environment is either left alone or replaced by
      one whose id is the section's target. Everything else stays as it was. */
  predicate ChangesOnly(section: Section, before: ConfigState, after: ConfigState) {
    match section
    case TypeAliasesSection =>
      after == before.(typeAliases := after.typeAliases) && before.typeAliases.Keys <= after.typeAliases.Keys
    case PluginsSection =>
      after == before.(interceptors := after.interceptors) && before.interceptors <= after.interceptors
    case EnvironmentsSection(target) =>
      && after == before.(environment := after.environment)
      && (after.environment == before.environment
          || (target.Some? && after.environment.Some? && after.environment.value.id == target.value))
    case TypeHandlersSection =>
      after == before.(typeHandlers := after.typeHandlers) && before.typeHandlers <= after.typeHandlers
    case MappersSection =>
      after == before.(mappers := after.mappers) && before.mappers <= after.mappers
  }

  /** What one child of `section` does to the configuration. */
  function Step(section: Section, child: XNode, st: ConfigState, w: World): (r: Result<ConfigState>)
    ensures r.Ok? ==> ChangesOnly(section, st, r.value)
    ensures r.Ok? && section.PluginsSection? ==> |r.value.interceptors| == |st.interceptors| + 1
    ensures r.Ok? && section.TypeHandlersSection? ==> |r.value.typeHandlers| == |st.typeHandlers| + 1
    ensures r.Ok? && section.MappersSection? ==> |r.value.mappers| == |st.mappers| + 1
  {
    match section
    case TypeAliasesSection =>
      var aliases :- AliasEntry(child, st.typeAliases, w);
      Ok(st.(typeAliases := aliases))
    case PluginsSection =>
      var interceptor :- Extension(Attr(child, "interceptor"), ChildrenAsProperties(child), st.typeAliases, w);
      Ok(st.(interceptors := st.interceptors + [interceptor]))
    case EnvironmentsSection(target) =>
      var id := Attr(child, "id");
      var selected :- IsSpecifiedEnvironment(target, id);
      if selected then
        var env :- EnvironmentOf(child, id.value, st.typeAliases, w);
        Ok(st.(environment := Some(env)))
      else Ok(st)
    case TypeHandlersSection =>
      var handler :- HandlerEntry(child, st.typeAliases, w);
      Ok(st.(typeHandlers := st.typeHandlers + [handler]))
    case MappersSection =>
      var mapper :- MapperEntry(child, w);
      Ok(st.(mappers := st.mappers + [mapper]))
  }

  /** The children of a section in document order; the first failure stops the section. */
  function Fold(section: Section, cs: seq<XNode>, st: ConfigState, w: World): (r: Result<ConfigState>)
    ensures cs == [] ==> r == Ok(st)
    ensures r.Ok? ==> ChangesOnly(section, st, r.value)
    decreases |cs|
  {
    if cs == [] then Ok(st)
    else
      var next :- Step(section, cs[0], st, w);
      Fold(section, cs[1..], next, w)
  }

  /** A section that may be absent; an absent one changes nothing. */
  function SectionStage(section: Section, context: Option<XNode>, st: ConfigState, w: World): (r: Result<ConfigState>)
    ensures context.None? ==> r == Ok(st)
    ensures context.Some? ==> r == Fold(section, context.value.children, st, w)
    ensures r.Ok? ==> ChangesOnly(section, st, r.value)
    ensures context.Some? && context.value.children == [] ==> r == Ok(st)
  {
    match context
    case None => Ok(st)
    case Some(c) => Fold(section, c.children, st, w)
  }

  /** `environmentsElement`: the children are checked against the caller's
      target, or against the `default` attribute when the caller gave none. */
  function EnvironmentsStage(explicit: Option<string>, context: Option<XNode>, st: ConfigState, w: World): (r: Result<ConfigState>)
    ensures context.None? ==> r == Ok(st)
    ensures context.Some? ==> r == Fold(EnvironmentsSection(EnvironmentTarget(explicit, context.value)), context.value.children, st, w)
    ensures r.Ok? ==> r.value == st.(environment := r.value.environment)
    ensures r.Ok? && r.value.environment != st.environment ==>
              && context.Some? && EnvironmentTarget(explicit, context.value).Some?
              && r.value.environment.Some?
              && r.value.environment.value.id == EnvironmentTarget(explicit, context.value).value
    ensures context.Some? && EnvironmentTarget(explicit, context.value).None? && context.value.children != [] ==>
              r == Err(NoEnvironmentSpecified)
  {
    match context
    case None => Ok(st)
    case Some(c) => Fold(EnvironmentsSection(EnvironmentTarget(explicit, c)), c.children, st, w)
  }

  // ---------------------------------------------------------------------
  // database id

  /** The provider type name, with the legacy `VENDOR` spelling rewritten. */
  function ProviderTypeName(name: Option<string>): (r: Option<string>)
    ensures name == Some("VENDOR") ==> r == Some("DB_VENDOR")
    ensures name != Some("VENDOR") ==> r == name
  {
    if name == Some("VENDOR") then Some("DB_VENDOR") else name
  }

  /** The provider a `databaseIdProvider` element creates, or nothing without one. */
  function Provider(context: Option<XNode>, aliases: map<string, string>, w: World): (r: Result<Option<Instance>>)
    ensures context.None? ==> r == Ok(None)
    ensures r.Ok? && context.Some? ==>
              && r.value.Some? && r.value.value.properties == ChildrenAsProperties(context.value)
              && ResolveClass(ProviderTypeName(Attr(context.value, "type")), aliases, w) == Ok(Some(r.value.value.className))
    ensures context.Some? ==> (r.Ok? <==> Builds(ProviderTypeName(Attr(context.value, "type")), aliases, w))
    ensures context.Some? && r.Err? ==>
              r == Err(Extension(ProviderTypeName(Attr(context.value, "type")), ChildrenAsProperties(context.value), aliases, w).cause)
  {
    match context
    case None => Ok(None)
    case Some(c) =>
      var provider :- Extension(ProviderTypeName(Attr(c, "type")), ChildrenAsProperties(c), aliases, w);
      Ok(Some(provider))
  }

  /** The id the provider reports for a data source; nothing when it reports null. */
  function DatabaseIdOf(provider: Instance, dataSource: DataSource, w: World): Option<string> {
    if (provider, dataSource) in w.databaseIds then Some(w.databaseIds[(provider, dataSource)]) else None
  }

  /** `databaseIdProviderElement`: the provider is created whenever the element
      is present, but the database id is only set when an environment exists too. */
  function DatabaseIdStage(context: Option<XNode>, st: ConfigState, w: World): (r: Result<ConfigState>)
    ensures r.Ok? <==> Provider(context, st.typeAliases, w).Ok?
    ensures r.Ok? ==> r.value == st.(databaseId := r.value.databaseId)
    ensures r.Ok? && (st.environment.None? || context.None?) ==> r.value == st
    ensures r.Ok? && st.environment.Some? && context.Some? ==>
              r.value.databaseId == DatabaseIdOf(Provider(context, st.typeAliases, w).value.value, st.environment.value.dataSource, w)
  {
    var provider :- Provider(context, st.typeAliases, w);
    if st.environment.Some? && provider.Some? then
      Ok(st.(databaseId := DatabaseIdOf(provider.value, st.environment.value.dataSource, w)))
    else Ok(st)
  }

  // ---------------------------------------------------------------------
  // the whole build

  /** The sections `parseConfiguration` reads between validating the settings
      and applying them: type aliases, plugins and the three factories. They
      change only the alias table (which only gains keys), the interceptor list
      (which only grows at the end) and the three factories. */
  function BeforeSettings(root: XNode, st: ConfigState, w: World): (r: Result<ConfigState>)
    ensures r.Ok? ==>
      && r.value == st.(typeAliases := r.value.typeAliases, interceptors := r.value.interceptors,
                        objectFactory := r.value.objectFactory, objectWrapperFactory := r.value.objectWrapperFactory,
                        reflectorFactory := r.value.reflectorFactory)
      && st.typeAliases.Keys <= r.value.typeAliases.Keys
      && st.interceptors <= r.value.interceptors
  {
    var st3 :- AliasesAndPlugins(root, st, w);
    Factories(root, st3, w)
  }

  /** The `typeAliases` and `plugins` sections, in that order: only the alias
      table and the interceptor list change. */
  function AliasesAndPlugins(root: XNode, st: ConfigState, w: World): (r: Result<ConfigState>)
    ensures r.Ok? ==>
      && r.value == st.(typeAliases := r.value.typeAliases, interceptors := r.value.interceptors)
      && st.typeAliases.Keys <= r.value.typeAliases.Keys
      && st.interceptors <= r.value.interceptors
  {
    var st2 :- SectionStage(TypeAliasesSection, Child(root, "typeAliases"), st, w);
    SectionStage(PluginsSection, Child(root, "plugins"), st2, w)
  }

  /** The `objectFactory`, `objectWrapperFactory` and `reflectorFactory` elements,
      in that order: only the three factories change. */
  function Factories(root: XNode, st: ConfigState, w: World): (r: Result<ConfigState>)
    ensures r.Ok? ==>
      r.value == st.(objectFactory := r.value.objectFactory, objectWrapperFactory := r.value.objectWrapperFactory,
                     reflectorFactory := r.value.reflectorFactory)
  {
    var st4 :- ObjectFactoryStage(Child(root, "objectFactory"), st, w);
    var st5 :- ObjectWrapperFactoryStage(Child(root, "objectWrapperFactory"), st4, w);
    ReflectorFactoryStage(Child(root, "reflectorFactory"), st5, w)
  }

  /** The sections `parseConfiguration` reads after applying the settings:
      environments, the database-id provider, type handlers and mappers. They
      change only the environment, the database id and the two lists, which only
      grow at the end; the environment they leave
      is the one the environments section installed, and the database id changes
      only when an environment exists and the document declares a provider. */
  function AfterSettings(root: XNode, st: ConfigState, target: Option<string>, w: World): (r: Result<ConfigState>)
    ensures r.Ok? ==> r.value.settings == st.settings && r.value.typeAliases == st.typeAliases
    ensures r.Ok? ==>
      && r.value == st.(environment := r.value.environment, databaseId := r.value.databaseId,
                        typeHandlers := r.value.typeHandlers, mappers := r.value.mappers)
      && st.typeHandlers <= r.value.typeHandlers
      && st.mappers <= r.value.mappers
    ensures r.Ok? ==> EnvironmentsStage(target, Child(root, "environments"), st, w).Ok?
                      && r.value.environment == EnvironmentsStage(target, Child(root, "environments"), st, w).value.environment
    ensures r.Ok? && r.value.databaseId != st.databaseId ==>
              r.value.environment.Some? && Child(root, "databaseIdProvider").Some?
  {
    var st8 :- EnvironmentsStage(target, Child(root, "environments"), st, w);
    var st9 :- DatabaseIdStage(Child(root, "databaseIdProvider"), st8, w);
    var st10 :- SectionStage(TypeHandlersSection, Child(root, "typeHandlers"), st9, w);
    var st11 :- SectionStage(MappersSection, Child(root, "mappers"), st10, w);
    Ok(st11)
  }

  /** `parseConfiguration` on the document root, starting from `st0`, with the
      builder's environment target `target`. Settings are validated second but
      applied only after the alias, plugin and factory sections. A root that is
      not a `configuration` element is a null node and fails on first use. */
  function Pipeline(root: XNode, st0: ConfigState, target: Option<string>, w: World): Result<ConfigState> {
    if root.name != "configuration" then Err(NullReference)
    else
      var st1 :- PropertiesStage(Child(root, "properties"), st0, w);
      var bag :- ValidatedSettings(Child(root, "settings"), w.knownSetters);
      Sections(root, st1, bag, target, w)
  }

  /** The sections after the settings bag has been validated. */
  function Sections(root: XNode, st1: ConfigState, bag: Props, target: Option<string>, w: World): Result<ConfigState> {
    var st6 :- BeforeSettings(root, st1, w);
    var st7 :- SettingsStage(bag, st6, w);
    AfterSettings(root, st7, target, w)
  }

  /** The outcome of an imperative stage and the state it leaves agree with the
      value the stage function computes. After a failure the state is not
      specified: the build is abandoned. */
  predicate Agrees(r: Outcome, expected: Result<ConfigState>, actual: ConfigState) {
    match expected
    case Ok(s) => r == Pass && actual == s
    case Err(c) => r == Fail(c)
  }
}
