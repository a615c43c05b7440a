/** The behaviour settings the builder installs on the configuration
    (`settingsElement`): the enumerations they range over, the record of all
    of them, and the conversion of a validated settings bag into that record,
    with the documented default for every key the bag leaves out. */
module ConfigSettings {
  import opened Failures
  import opened Text
  import opened Nodes
  import opened Collaborators

  datatype AutoMappingBehavior = NoAutoMapping | PartialAutoMapping | FullAutoMapping {
    /** The enumeration constant's name; parsing it gives the value back. */
    function Name(): (n: string)
      ensures ParseAutoMappingBehavior(n) == Some(this)
    {
      match this
      case NoAutoMapping => "NONE"
      case PartialAutoMapping => "PARTIAL"
      case FullAutoMapping => "FULL"
    }
  }

  /** `AutoMappingBehavior.valueOf(s)`; the inverse of `Name`. */
  function ParseAutoMappingBehavior(s: string): (r: Option<AutoMappingBehavior>)
  {
    if s == "NONE" then Some(NoAutoMapping)
    else if s == "PARTIAL" then Some(PartialAutoMapping)
    else if s == "FULL" then Some(FullAutoMapping)
    else None
  }

  datatype UnknownColumnBehavior = IgnoreUnknownColumn | WarnOnUnknownColumn | FailOnUnknownColumn {
    function Name(): (n: string)
      ensures ParseUnknownColumnBehavior(n) == Some(this)
    {
      match this
      case IgnoreUnknownColumn => "NONE"
      case WarnOnUnknownColumn => "WARNING"
      case FailOnUnknownColumn => "FAILING"
    }
  }

  /** `AutoMappingUnknownColumnBehavior.valueOf(s)`. */
  function ParseUnknownColumnBehavior(s: string): (r: Option<UnknownColumnBehavior>)
  {
    if s == "NONE" then Some(IgnoreUnknownColumn)
    else if s == "WARNING" then Some(WarnOnUnknownColumn)
    else if s == "FAILING" then Some(FailOnUnknownColumn)
    else None
  }

  datatype ExecutorType = SimpleExecutor | ReuseExecutor | BatchExecutor {
    function Name(): (n: string)
      ensures ParseExecutorType(n) == Some(this)
    {
      match this
      case SimpleExecutor => "SIMPLE"
      case ReuseExecutor => "REUSE"
      case BatchExecutor => "BATCH"
    }
  }

  /** `ExecutorType.valueOf(s)`. */
  function ParseExecutorType(s: string): (r: Option<ExecutorType>)
  {
    if s == "SIMPLE" then Some(SimpleExecutor)
    else if s == "REUSE" then Some(ReuseExecutor)
    else if s == "BATCH" then Some(BatchExecutor)
    else None
  }

  datatype LocalCacheScope = SessionScope | StatementScope {
    function Name(): (n: string)
      ensures ParseLocalCacheScope(n) == Some(this)
    {
      match this
      case SessionScope => "SESSION"
      case StatementScope => "STATEMENT"
    }
  }

  /** `LocalCacheScope.valueOf(s)`. */
  function ParseLocalCacheScope(s: string): (r: Option<LocalCacheScope>)
  {
    if s == "SESSION" then Some(SessionScope)
    else if s == "STATEMENT" then Some(StatementScope)
    else None
  }

  datatype ResultSetType = DefaultResultSet | ForwardOnly | ScrollInsensitive | ScrollSensitive {
    function Name(): (n: string)
      ensures ParseResultSetType(n) == Some(this)
    {
      match this
      case DefaultResultSet => "DEFAULT"
      case ForwardOnly => "FORWARD_ONLY"
      case ScrollInsensitive => "SCROLL_INSENSITIVE"
      case ScrollSensitive => "SCROLL_SENSITIVE"
    }
  }

  /** `ResultSetType.valueOf(s)`. */
  function ParseResultSetType(s: string): (r: Option<ResultSetType>)
  {
    if s == "DEFAULT" then Some(DefaultResultSet)
    else if s == "FORWARD_ONLY" then Some(ForwardOnly)
    else if s == "SCROLL_INSENSITIVE" then Some(ScrollInsensitive)
    else if s == "SCROLL_SENSITIVE" then Some(ScrollSensitive)
    else None
  }

  /** The other half of each `Name` round trip: a name that parses is the
      parsed constant's own name, so each enumeration accepts exactly its names. */
  lemma ParsedNamesRoundTrip(s: string)
    ensures ParseAutoMappingBehavior(s).Some? ==> ParseAutoMappingBehavior(s).value.Name() == s
    ensures ParseUnknownColumnBehavior(s).Some? ==> ParseUnknownColumnBehavior(s).value.Name() == s
    ensures ParseExecutorType(s).Some? ==> ParseExecutorType(s).value.Name() == s
    ensures ParseLocalCacheScope(s).Some? ==> ParseLocalCacheScope(s).value.Name() == s
    ensures ParseResultSetType(s).Some? ==> ParseResultSetType(s).value.Name() == s
  {
  }

  /** Every value `settingsElement` hands to a setter of the configuration.
      Class-valued settings hold the resolved class name, or nothing for null. */
  datatype Settings = Settings(
    autoMappingBehavior: AutoMappingBehavior,
    autoMappingUnknownColumnBehavior: UnknownColumnBehavior,
    cacheEnabled: bool,
    proxyFactory: Option<Instance>,
    lazyLoadingEnabled: bool,
    aggressiveLazyLoading: bool,
    multipleResultSetsEnabled: bool,
    useColumnLabel: bool,
    useGeneratedKeys: bool,
    defaultExecutorType: ExecutorType,
    defaultStatementTimeout: Option<int>,
    defaultFetchSize: Option<int>,
    defaultResultSetType: Option<ResultSetType>,
    mapUnderscoreToCamelCase: bool,
    safeRowBoundsEnabled: bool,
    localCacheScope: LocalCacheScope,
    jdbcTypeForNull: string,
    lazyLoadTriggerMethods: set<string>,
    safeResultHandlerEnabled: bool,
    defaultScriptingLanguage: Option<string>,
    defaultEnumTypeHandler: Option<string>,
    callSettersOnNulls: bool,
    useActualParamName: bool,
    returnInstanceForEmptyRow: bool,
    logPrefix: Option<string>,
    configurationFactory: Option<string>)

  const DefaultLazyLoadTriggerMethods: string := "equals,clone,hashCode,toString"

  /** The settings of a document whose settings bag is empty. */
  const Defaults: Settings := Settings(
    PartialAutoMapping, IgnoreUnknownColumn, true, None, false, false, true, true, false,
    SimpleExecutor, None, None, None, false, false, SessionScope, "OTHER",
    {"equals", "clone", "hashCode", "toString"}, true, None, None, false, true, false, None, None)

  /** The keys whose conversion can fail. */
  const FallibleKeys: set<string> := {
    "autoMappingBehavior", "autoMappingUnknownColumnBehavior", "proxyFactory",
    "defaultExecutorType", "defaultStatementTimeout", "defaultFetchSize",
    "defaultResultSetType", "localCacheScope", "jdbcTypeForNull",
    "defaultScriptingLanguage", "defaultEnumTypeHandler", "configurationFactory"
  }

  function Get(props: Props, key: string): Option<string> {
    if key in props then Some(props[key]) else None
  }

  // One function per fallible setter argument, in the order `settingsElement` calls the setters.

  function AutoMappingSetting(props: Props): (r: Result<AutoMappingBehavior>)
    ensures "autoMappingBehavior" !in props ==> r == Ok(PartialAutoMapping)
    ensures "autoMappingBehavior" in props ==>
      && (r.Ok? <==> ParseAutoMappingBehavior(props["autoMappingBehavior"]).Some?)
      && (r.Ok? ==> Some(r.value) == ParseAutoMappingBehavior(props["autoMappingBehavior"]))
      && (r.Err? ==> r.cause == BadEnumName("autoMappingBehavior", props["autoMappingBehavior"]))
  {
    var s := Get(props, "autoMappingBehavior").GetOr("PARTIAL");
    match ParseAutoMappingBehavior(s)
    case Some(e) => Ok(e)
    case None => Err(BadEnumName("autoMappingBehavior", s))
  }

  function UnknownColumnSetting(props: Props): (r: Result<UnknownColumnBehavior>)
    ensures "autoMappingUnknownColumnBehavior" !in props ==> r == Ok(IgnoreUnknownColumn)
    ensures "autoMappingUnknownColumnBehavior" in props ==>
      && (r.Ok? <==> ParseUnknownColumnBehavior(props["autoMappingUnknownColumnBehavior"]).Some?)
      && (r.Ok? ==> Some(r.value) == ParseUnknownColumnBehavior(props["autoMappingUnknownColumnBehavior"]))
      && (r.Err? ==> r.cause == BadEnumName("autoMappingUnknownColumnBehavior", props["autoMappingUnknownColumnBehavior"]))
  {
    var s := Get(props, "autoMappingUnknownColumnBehavior").GetOr("NONE");
    match ParseUnknownColumnBehavior(s)
    case Some(e) => Ok(e)
    case None => Err(BadEnumName("autoMappingUnknownColumnBehavior", s))
  }

  function ExecutorSetting(props: Props): (r: Result<ExecutorType>)
    ensures "defaultExecutorType" !in props ==> r == Ok(SimpleExecutor)
    ensures "defaultExecutorType" in props ==>
      && (r.Ok? <==> ParseExecutorType(props["defaultExecutorType"]).Some?)
      && (r.Ok? ==> Some(r.value) == ParseExecutorType(props["defaultExecutorType"]))
      && (r.Err? ==> r.cause == BadEnumName("defaultExecutorType", props["defaultExecutorType"]))
  {
    var s := Get(props, "defaultExecutorType").GetOr("SIMPLE");
    match ParseExecutorType(s)
    case Some(e) => Ok(e)
    case None => Err(BadEnumName("defaultExecutorType", s))
  }

  function CacheScopeSetting(props: Props): (r: Result<LocalCacheScope>)
    ensures "localCacheScope" !in props ==> r == Ok(SessionScope)
    ensures "localCacheScope" in props ==>
      && (r.Ok? <==> ParseLocalCacheScope(props["localCacheScope"]).Some?)
      && (r.Ok? ==> Some(r.value) == ParseLocalCacheScope(props["localCacheScope"]))
      && (r.Err? ==> r.cause == BadEnumName("localCacheScope", props["localCacheScope"]))
  {
    var s := Get(props, "localCacheScope").GetOr("SESSION");
    match ParseLocalCacheScope(s)
    case Some(e) => Ok(e)
    case None => Err(BadEnumName("localCacheScope", s))
  }

  /** `JdbcType.valueOf(props.getProperty("jdbcTypeForNull", "OTHER"))`. */
  function JdbcTypeForNullSetting(props: Props): (r: Result<string>)
    ensures "jdbcTypeForNull" !in props ==> r == Ok("OTHER")
    ensures r.Ok? ==> r.value in JdbcTypeNames
    ensures "jdbcTypeForNull" in props ==>
      && (r.Ok? <==> props["jdbcTypeForNull"] in JdbcTypeNames)
      && (r.Ok? ==> r.value == props["jdbcTypeForNull"])
      && (r.Err? ==> r.cause == BadEnumName("jdbcTypeForNull", props["jdbcTypeForNull"]))
  {
    var s := Get(props, "jdbcTypeForNull").GetOr("OTHER");
    if s in JdbcTypeNames then Ok(s) else Err(BadEnumName("jdbcTypeForNull", s))
  }

  /** `integerValueOf(props.getProperty(key), null)`. */
  function IntegerSetting(props: Props, key: string): (r: Result<Option<int>>)
    ensures key !in props ==> r == Ok(None)
    ensures key in props ==> (r.Ok? <==> ParseInt(props[key]).Some?) && (r.Ok? ==> r.value == ParseInt(props[key]))
    ensures key in props && r.Err? ==> r.cause == BadInteger(key, props[key])
  {
    match Get(props, key)
    case None => Ok(None)
    case Some(s) => match ParseInt(s)
      case Some(v) => Ok(Some(v))
      case None => Err(BadInteger(key, s))
  }

  /** `resolveResultSetType(props.getProperty("defaultResultSetType"))`. */
  function ResultSetTypeSetting(props: Props): (r: Result<Option<ResultSetType>>)
    ensures "defaultResultSetType" !in props ==> r == Ok(None)
    ensures "defaultResultSetType" in props ==>
      && (r.Ok? <==> ParseResultSetType(props["defaultResultSetType"]).Some?)
      && (r.Ok? ==> r.value == ParseResultSetType(props["defaultResultSetType"]))
      && (r.Err? ==> r.cause == BadResultSetType(props["defaultResultSetType"]))
  {
    match Get(props, "defaultResultSetType")
    case None => Ok(None)
    case Some(s) => match ParseResultSetType(s)
      case Some(t) => Ok(Some(t))
      case None => Err(BadResultSetType(s))
  }

  /** `resolveClass(props.getProperty(key))`. */
  function ClassSetting(props: Props, key: string, aliases: map<string, string>, w: World): (r: Result<Option<string>>)
    ensures key !in props ==> r == Ok(None)
    ensures key in props && Lower(props[key]) in aliases ==> r == Ok(Some(aliases[Lower(props[key])]))
    ensures key in props && Lower(props[key]) !in aliases ==>
      && (r.Ok? <==> props[key] in w.loadableClasses)
      && (r.Ok? ==> r.value == Some(props[key]))
      && (r.Err? ==> r.cause == UnresolvedType(props[key]))
  {
    ResolveClass(Get(props, key), aliases, w)
  }

  /** `booleanValueOf(props.getProperty(key), default)`. */
  function Flag(props: Props, key: string, default: bool): (b: bool)
    ensures key !in props ==> b == default
    ensures key in props ==> (b <==> Lower(props[key]) == "true")
  {
    BooleanValueOf(Get(props, key), default)
  }

  /** The twelve setter arguments whose conversion can fail. */
  datatype Conversions = Conversions(
    autoMapping: AutoMappingBehavior, unknownColumn: UnknownColumnBehavior, proxyFactory: Option<Instance>,
    executor: ExecutorType, timeout: Option<int>, fetchSize: Option<int>,
    resultSetType: Option<ResultSetType>, cacheScope: LocalCacheScope, jdbcTypeForNull: string,
    scripting: Option<string>, enumHandler: Option<string>, configurationFactory: Option<string>)

  /** Each fallible key the bag leaves out converts to its documented default. */
  predicate AbsentKeysConvertToDefaults(props: Props, c: Conversions) {
    && ("autoMappingBehavior" !in props ==> c.autoMapping == PartialAutoMapping)
    && ("autoMappingUnknownColumnBehavior" !in props ==> c.unknownColumn == IgnoreUnknownColumn)
    && ("proxyFactory" !in props ==> c.proxyFactory == None)
    && ("defaultExecutorType" !in props ==> c.executor == SimpleExecutor)
    && ("defaultStatementTimeout" !in props ==> c.timeout == None)
    && ("defaultFetchSize" !in props ==> c.fetchSize == None)
    && ("defaultResultSetType" !in props ==> c.resultSetType == None)
    && ("localCacheScope" !in props ==> c.cacheScope == SessionScope)
    && ("jdbcTypeForNull" !in props ==> c.jdbcTypeForNull == "OTHER")
    && ("defaultScriptingLanguage" !in props ==> c.scripting == None)
    && ("defaultEnumTypeHandler" !in props ==> c.enumHandler == None)
    && ("configurationFactory" !in props ==> c.configurationFactory == None)
  }

  /** The first six fallible conversions, in the source's order. */
  datatype LeadingConversions = LeadingConversions(
    autoMapping: AutoMappingBehavior, unknownColumn: UnknownColumnBehavior, proxyFactory: Option<Instance>,
    executor: ExecutorType, timeout: Option<int>, fetchSize: Option<int>)

  /** The last six fallible conversions, in the source's order. */
  datatype TrailingConversions = TrailingConversions(
    resultSetType: Option<ResultSetType>, cacheScope: LocalCacheScope, jdbcTypeForNull: string,
    scripting: Option<string>, enumHandler: Option<string>, configurationFactory: Option<string>)

  function ConvertLeading(props: Props, aliases: map<string, string>, w: World): (r: Result<LeadingConversions>)
    ensures r.Ok? ==>
      && ("autoMappingBehavior" !in props ==> r.value.autoMapping == PartialAutoMapping)
      && ("autoMappingUnknownColumnBehavior" !in props ==> r.value.unknownColumn == IgnoreUnknownColumn)
      && ("proxyFactory" !in props ==> r.value.proxyFactory == None)
      && ("defaultExecutorType" !in props ==> r.value.executor == SimpleExecutor)
      && ("defaultStatementTimeout" !in props ==> r.value.timeout == None)
      && ("defaultFetchSize" !in props ==> r.value.fetchSize == None)
  {
    var autoMapping :- AutoMappingSetting(props);
    var unknownColumn :- UnknownColumnSetting(props);
    var proxyFactory :- CreateInstance(Get(props, "proxyFactory"), aliases, w);
    var executor :- ExecutorSetting(props);
    var timeout :- IntegerSetting(props, "defaultStatementTimeout");
    var fetchSize :- IntegerSetting(props, "defaultFetchSize");
    Ok(LeadingConversions(autoMapping, unknownColumn, proxyFactory, executor, timeout, fetchSize))
  }

  function ConvertTrailing(props: Props, aliases: map<string, string>, w: World): (r: Result<TrailingConversions>)
    ensures r.Ok? ==>
      && ("defaultResultSetType" !in props ==> r.value.resultSetType == None)
      && ("localCacheScope" !in props ==> r.value.cacheScope == SessionScope)
      && ("jdbcTypeForNull" !in props ==> r.value.jdbcTypeForNull == "OTHER")
      && ("defaultScriptingLanguage" !in props ==> r.value.scripting == None)
      && ("defaultEnumTypeHandler" !in props ==> r.value.enumHandler == None)
      && ("configurationFactory" !in props ==> r.value.configurationFactory == None)
  {
    var resultSetType :- ResultSetTypeSetting(props);
    var cacheScope :- CacheScopeSetting(props);
    var jdbcTypeForNull :- JdbcTypeForNullSetting(props);
    var scripting :- ClassSetting(props, "defaultScriptingLanguage", aliases, w);
    var enumHandler :- ClassSetting(props, "defaultEnumTypeHandler", aliases, w);
    var configurationFactory :- ClassSetting(props, "configurationFactory", aliases, w);
    Ok(TrailingConversions(resultSetType, cacheScope, jdbcTypeForNull, scripting, enumHandler, configurationFactory))
  }

  /** The fallible conversions in the source's order; the first failure is the one reported. */
  function Convert(props: Props, aliases: map<string, string>, w: World): (r: Result<Conversions>)
    ensures r.Ok? ==> AbsentKeysConvertToDefaults(props, r.value)
  {
    var a :- ConvertLeading(props, aliases, w);
    var b :- ConvertTrailing(props, aliases, w);
    Ok(Conversions(a.autoMapping, a.unknownColumn, a.proxyFactory, a.executor, a.timeout, a.fetchSize,
                   b.resultSetType, b.cacheScope, b.jdbcTypeForNull, b.scripting, b.enumHandler, b.configurationFactory))
  }

  /** The conversions succeed exactly when each of the twelve fallible setter
      arguments converts, each field is that argument's conversion, and the
      failure of the first conversion is the one reported. */
  lemma ConvertChecksEveryKey(props: Props, aliases: map<string, string>, w: World)
    ensures Convert(props, aliases, w).Ok? <==>
      && AutoMappingSetting(props).Ok? && UnknownColumnSetting(props).Ok?
      && CreateInstance(Get(props, "proxyFactory"), aliases, w).Ok? && ExecutorSetting(props).Ok?
      && IntegerSetting(props, "defaultStatementTimeout").Ok? && IntegerSetting(props, "defaultFetchSize").Ok?
      && ResultSetTypeSetting(props).Ok? && CacheScopeSetting(props).Ok? && JdbcTypeForNullSetting(props).Ok?
      && ClassSetting(props, "defaultScriptingLanguage", aliases, w).Ok?
      && ClassSetting(props, "defaultEnumTypeHandler", aliases, w).Ok?
      && ClassSetting(props, "configurationFactory", aliases, w).Ok?
    ensures Convert(props, aliases, w).Ok? ==> var c := Convert(props, aliases, w).value;
      && c.autoMapping == AutoMappingSetting(props).value
      && c.unknownColumn == UnknownColumnSetting(props).value
      && c.proxyFactory == CreateInstance(Get(props, "proxyFactory"), aliases, w).value
      && c.executor == ExecutorSetting(props).value
      && c.timeout == IntegerSetting(props, "defaultStatementTimeout").value
      && c.fetchSize == IntegerSetting(props, "defaultFetchSize").value
      && c.resultSetType == ResultSetTypeSetting(props).value
      && c.cacheScope == CacheScopeSetting(props).value
      && c.jdbcTypeForNull == JdbcTypeForNullSetting(props).value
      && c.scripting == ClassSetting(props, "defaultScriptingLanguage", aliases, w).value
      && c.enumHandler == ClassSetting(props, "defaultEnumTypeHandler", aliases, w).value
      && c.configurationFactory == ClassSetting(props, "configurationFactory", aliases, w).value
    ensures AutoMappingSetting(props).Err? ==> Convert(props, aliases, w) == Err(AutoMappingSetting(props).cause)
  {
  }

  /** `settingsElement(props)` as a value: the settings record the setters receive,
      or the first conversion that fails. Class-valued settings resolve through
      `aliases`, the alias table as it stands once the type-alias section has been read. */
  function ResolveSettings(props: Props, aliases: map<string, string>, w: World): (r: Result<Settings>)
    ensures r.Ok? <==> Convert(props, aliases, w).Ok?
    ensures r.Err? ==> r.cause == Convert(props, aliases, w).cause
    ensures r.Ok? ==> var c := Convert(props, aliases, w).value;
      && r.value.autoMappingBehavior == c.autoMapping
      && r.value.autoMappingUnknownColumnBehavior == c.unknownColumn
      && r.value.proxyFactory == c.proxyFactory
      && r.value.defaultExecutorType == c.executor
      && r.value.defaultStatementTimeout == c.timeout
      && r.value.defaultFetchSize == c.fetchSize
      && r.value.defaultResultSetType == c.resultSetType
      && r.value.localCacheScope == c.cacheScope
      && r.value.jdbcTypeForNull == c.jdbcTypeForNull
      && r.value.defaultScriptingLanguage == c.scripting
      && r.value.defaultEnumTypeHandler == c.enumHandler
      && r.value.configurationFactory == c.configurationFactory
    ensures r.Ok? ==>
      && r.value.lazyLoadTriggerMethods == StringSetValueOf(Get(props, "lazyLoadTriggerMethods"), DefaultLazyLoadTriggerMethods)
      && r.value.logPrefix == Get(props, "logPrefix")
  {
    var c :- Convert(props, aliases, w);
    Ok(Settings(
      c.autoMapping,
      c.unknownColumn,
      Flag(props, "cacheEnabled", true),
      c.proxyFactory,
      Flag(props, "lazyLoadingEnabled", false),
      Flag(props, "aggressiveLazyLoading", false),
      Flag(props, "multipleResultSetsEnabled", true),
      Flag(props, "useColumnLabel", true),
      Flag(props, "useGeneratedKeys", false),
      c.executor,
      c.timeout,
      c.fetchSize,
      c.resultSetType,
      Flag(props, "mapUnderscoreToCamelCase", false),
      Flag(props, "safeRowBoundsEnabled", false),
      c.cacheScope,
      c.jdbcTypeForNull,
      StringSetValueOf(Get(props, "lazyLoadTriggerMethods"), DefaultLazyLoadTriggerMethods),
      Flag(props, "safeResultHandlerEnabled", true),
      c.scripting,
      c.enumHandler,
      Flag(props, "callSettersOnNulls", false),
      Flag(props, "useActualParamName", true),
      Flag(props, "returnInstanceForEmptyRow", false),
      Get(props, "logPrefix"),
      c.configurationFactory))
  }

  /** The default list of lazy-load trigger methods splits into the four documented names. */
  lemma DefaultTriggerMethods()
    ensures StringSetValueOf(None, DefaultLazyLoadTriggerMethods) == {"equals", "clone", "hashCode", "toString"}
  {
    TriggerListSplits(DefaultLazyLoadTriggerMethods);
  }

  lemma TriggerListSplits(d: string)
    requires d == Join(["equals", "clone", "hashCode", "toString"])
    ensures StringSetValueOf(None, d) == {"equals", "clone", "hashCode", "toString"}
  {
    SplitOfJoin(["equals", "clone", "hashCode", "toString"]);
  }

  /** A bag that names none of the keys whose conversion can fail converts successfully. */
  lemma {:induction false} OnlyGivenKeysCanFail(props: Props, aliases: map<string, string>, w: World)
    requires forall k :: k in FallibleKeys ==> k !in props
    ensures ResolveSettings(props, aliases, w).Ok?
  {
  }

  /** Each enumerated, numeric or class-valued key the bag leaves out takes its documented default. */
  lemma {:induction false} AbsentTypedKeysTakeDefaults(props: Props, aliases: map<string, string>, w: World)
    requires ResolveSettings(props, aliases, w).Ok?
    ensures var s := ResolveSettings(props, aliases, w).value;
      && ("autoMappingBehavior" !in props ==> s.autoMappingBehavior == PartialAutoMapping)
      && ("autoMappingUnknownColumnBehavior" !in props ==> s.autoMappingUnknownColumnBehavior == IgnoreUnknownColumn)
      && ("proxyFactory" !in props ==> s.proxyFactory == None)
      && ("defaultExecutorType" !in props ==> s.defaultExecutorType == SimpleExecutor)
      && ("defaultStatementTimeout" !in props ==> s.defaultStatementTimeout == None)
      && ("defaultFetchSize" !in props ==> s.defaultFetchSize == None)
      && ("defaultResultSetType" !in props ==> s.defaultResultSetType == None)
      && ("localCacheScope" !in props ==> s.localCacheScope == SessionScope)
      && ("jdbcTypeForNull" !in props ==> s.jdbcTypeForNull == "OTHER")
      && ("lazyLoadTriggerMethods" !in props ==>
            s.lazyLoadTriggerMethods == {"equals", "clone", "hashCode", "toString"})
      && ("defaultScriptingLanguage" !in props ==> s.defaultScriptingLanguage == None)
      && ("defaultEnumTypeHandler" !in props ==> s.defaultEnumTypeHandler == None)
      && ("logPrefix" !in props ==> s.logPrefix == None)
      && ("configurationFactory" !in props ==> s.configurationFactory == None)
  {
    DefaultTriggerMethods();
  }

  /** Each enumerated, numeric or textual key the bag gives is installed as the
      value its text names. */
  lemma {:induction false} GivenTypedKeysApply(props: Props, aliases: map<string, string>, w: World)
    requires ResolveSettings(props, aliases, w).Ok?
    ensures var s := ResolveSettings(props, aliases, w).value;
      && ("autoMappingBehavior" in props ==> s.autoMappingBehavior.Name() == props["autoMappingBehavior"])
      && ("autoMappingUnknownColumnBehavior" in props ==>
            s.autoMappingUnknownColumnBehavior.Name() == props["autoMappingUnknownColumnBehavior"])
      && ("defaultExecutorType" in props ==> s.defaultExecutorType.Name() == props["defaultExecutorType"])
      && ("defaultStatementTimeout" in props ==> s.defaultStatementTimeout == ParseInt(props["defaultStatementTimeout"]))
      && ("defaultFetchSize" in props ==> s.defaultFetchSize == ParseInt(props["defaultFetchSize"]))
      && ("defaultResultSetType" in props ==>
            s.defaultResultSetType.Some? && s.defaultResultSetType.value.Name() == props["defaultResultSetType"])
      && ("localCacheScope" in props ==> s.localCacheScope.Name() == props["localCacheScope"])
      && ("jdbcTypeForNull" in props ==> s.jdbcTypeForNull == props["jdbcTypeForNull"])
      && ("logPrefix" in props ==> s.logPrefix == Some(props["logPrefix"]))
  {
    ConvertChecksEveryKey(props, aliases, w);
    if "autoMappingBehavior" in props {
      ParsedNamesRoundTrip(props["autoMappingBehavior"]);
    }
    if "autoMappingUnknownColumnBehavior" in props {
      ParsedNamesRoundTrip(props["autoMappingUnknownColumnBehavior"]);
    }
    if "defaultExecutorType" in props {
      ParsedNamesRoundTrip(props["defaultExecutorType"]);
    }
    if "defaultResultSetType" in props {
      ParsedNamesRoundTrip(props["defaultResultSetType"]);
    }
    if "localCacheScope" in props {
      ParsedNamesRoundTrip(props["localCacheScope"]);
    }
  }

  /** A given enumerated or numeric key whose text names no value aborts the
      settings section; the first of them in the setters' order is the cause. */
  lemma {:induction false} BadGivenValueAborts(props: Props, aliases: map<string, string>, w: World)
    ensures "autoMappingBehavior" in props && ParseAutoMappingBehavior(props["autoMappingBehavior"]).None? ==>
              ResolveSettings(props, aliases, w) == Err(BadEnumName("autoMappingBehavior", props["autoMappingBehavior"]))
    ensures "autoMappingUnknownColumnBehavior" in props
              && ParseUnknownColumnBehavior(props["autoMappingUnknownColumnBehavior"]).None? ==>
              ResolveSettings(props, aliases, w).Err?
    ensures "defaultExecutorType" in props && ParseExecutorType(props["defaultExecutorType"]).None? ==>
              ResolveSettings(props, aliases, w).Err?
    ensures "defaultStatementTimeout" in props && ParseInt(props["defaultStatementTimeout"]).None? ==>
              ResolveSettings(props, aliases, w).Err?
    ensures "defaultFetchSize" in props && ParseInt(props["defaultFetchSize"]).None? ==>
              ResolveSettings(props, aliases, w).Err?
    ensures "defaultResultSetType" in props && ParseResultSetType(props["defaultResultSetType"]).None? ==>
              ResolveSettings(props, aliases, w).Err?
    ensures "localCacheScope" in props && ParseLocalCacheScope(props["localCacheScope"]).None? ==>
              ResolveSettings(props, aliases, w).Err?
    ensures "jdbcTypeForNull" in props && props["jdbcTypeForNull"] !in JdbcTypeNames ==>
              ResolveSettings(props, aliases, w).Err?
  {
    ConvertChecksEveryKey(props, aliases, w);
  }

  /** Each boolean key the bag gives is true exactly when its text is "true" in any letter case. */
  lemma {:induction false} GivenFlagsApply(props: Props, aliases: map<string, string>, w: World)
    requires ResolveSettings(props, aliases, w).Ok?
    ensures var s := ResolveSettings(props, aliases, w).value;
      && ("cacheEnabled" in props ==> (s.cacheEnabled <==> Lower(props["cacheEnabled"]) == "true"))
      && ("lazyLoadingEnabled" in props ==> (s.lazyLoadingEnabled <==> Lower(props["lazyLoadingEnabled"]) == "true"))
      && ("aggressiveLazyLoading" in props ==>
            (s.aggressiveLazyLoading <==> Lower(props["aggressiveLazyLoading"]) == "true"))
      && ("multipleResultSetsEnabled" in props ==>
            (s.multipleResultSetsEnabled <==> Lower(props["multipleResultSetsEnabled"]) == "true"))
      && ("useColumnLabel" in props ==> (s.useColumnLabel <==> Lower(props["useColumnLabel"]) == "true"))
      && ("useGeneratedKeys" in props ==> (s.useGeneratedKeys <==> Lower(props["useGeneratedKeys"]) == "true"))
      && ("mapUnderscoreToCamelCase" in props ==>
            (s.mapUnderscoreToCamelCase <==> Lower(props["mapUnderscoreToCamelCase"]) == "true"))
      && ("safeRowBoundsEnabled" in props ==>
            (s.safeRowBoundsEnabled <==> Lower(props["safeRowBoundsEnabled"]) == "true"))
      && ("safeResultHandlerEnabled" in props ==>
            (s.safeResultHandlerEnabled <==> Lower(props["safeResultHandlerEnabled"]) == "true"))
      && ("callSettersOnNulls" in props ==> (s.callSettersOnNulls <==> Lower(props["callSettersOnNulls"]) == "true"))
      && ("useActualParamName" in props ==> (s.useActualParamName <==> Lower(props["useActualParamName"]) == "true"))
      && ("returnInstanceForEmptyRow" in props ==>
            (s.returnInstanceForEmptyRow <==> Lower(props["returnInstanceForEmptyRow"]) == "true"))
  {
  }

  /** Each boolean key the bag leaves out takes its documented default. */
  lemma {:induction false} AbsentFlagsTakeDefaults(props: Props, aliases: map<string, string>, w: World)
    requires ResolveSettings(props, aliases, w).Ok?
    ensures var s := ResolveSettings(props, aliases, w).value;
      && ("cacheEnabled" !in props ==> s.cacheEnabled)
      && ("lazyLoadingEnabled" !in props ==> !s.lazyLoadingEnabled)
      && ("aggressiveLazyLoading" !in props ==> !s.aggressiveLazyLoading)
      && ("multipleResultSetsEnabled" !in props ==> s.multipleResultSetsEnabled)
      && ("useColumnLabel" !in props ==> s.useColumnLabel)
      && ("useGeneratedKeys" !in props ==> !s.useGeneratedKeys)
      && ("mapUnderscoreToCamelCase" !in props ==> !s.mapUnderscoreToCamelCase)
      && ("safeRowBoundsEnabled" !in props ==> !s.safeRowBoundsEnabled)
      && ("safeResultHandlerEnabled" !in props ==> s.safeResultHandlerEnabled)
      && ("callSettersOnNulls" !in props ==> !s.callSettersOnNulls)
      && ("useActualParamName" !in props ==> s.useActualParamName)
      && ("returnInstanceForEmptyRow" !in props ==> !s.returnInstanceForEmptyRow)
  {
  }

  /** An empty settings bag yields exactly the default table. */
  lemma EmptyBagGivesDefaults(aliases: map<string, string>, w: World)
    ensures ResolveSettings(map[], aliases, w) == Ok(Defaults)
  {
    OnlyGivenKeysCanFail(map[], aliases, w);
    AbsentTypedKeysTakeDefaults(map[], aliases, w);
    AbsentFlagsTakeDefaults(map[], aliases, w);
  }
}
