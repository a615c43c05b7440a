# MyBatis `XMLConfigBuilder` in Dafny

This project models the builder that turns a MyBatis `mybatis-config.xml`
document into a `Configuration` object. The model proves properties of that
builder.

The builder is single-use. Its first `parse()` call walks the sections under
`<configuration>` in a fixed order:

1. properties
2. settings (validated only)
3. typeAliases
4. plugins
5. objectFactory
6. objectWrapperFactory
7. reflectorFactory
8. settings (applied)
9. environments
10. databaseIdProvider
11. typeHandlers
12. mappers

Each section writes into the shared `Configuration`. A second `parse()` call
is refused.

The model has two layers.

* **Specification layer (pure).** Modules `Assembly`, `ConfigSettings`,
  `Collaborators`, `Nodes` and `Text` describe what each section does to a
  value `ConfigState`:
  * one function per `*Element` method;
  * a generic `Fold` over a section's children;
  * `Pipeline` for the whole of `parseConfiguration`.

  Each function returns `Result`. The exceptions the builder raises itself,
  and those of the collaborators it models, are named `Cause` values. The
  exceptions listed under "Left out" are not modelled. `BuildProperties`
  proves the properties of this layer:
  * precedence of the property sources;
  * environment selection;
  * in-order registration;
  * abort on an unknown setting;
  * settings resolved against the final alias table.
* **Imperative layer.** `Session.Configuration` is a class whose fields the
  builder updates through mutators. `ConfigBuilder.XMLConfigBuilder` is a
  class with the `parsed` flag, the `environment` field and the parser
  variables.
  * Each `*Element` method loops over the section's children like the Java
    code does.
  * Each method is proved to leave `configuration.State()` equal to the
    matching specification function applied to the old state.
  * On failure, the method returns that function's `Cause`.

The XML document is an already-parsed tree (`Nodes.XNode`). Its attributes are
maps. Its children are a sequence in document order.

Everything the builder asks of the outside world is a field of a
`Collaborators.World` value:
* class loading;
* the type-alias registry's built-in entries;
* classpath and URL resources;
* package scans;
* object instantiation;
* the setters a `Configuration` has;
* the database id a provider reports.

The following files are not part of this model. Their behaviour enters only as
the `World` data and the small functions in `Collaborators`:
* `BaseBuilder.java` and `Resources.java`;
* `TypeAliasRegistry.java` and `TypeHandlerRegistry.java`;
* `MapperRegistry.java` and `XMLMapperBuilder.java`;
* `Configuration.java`.

Some behaviour of the code is easy to miss. The model keeps it as written:

* An environments element with no `default` attribute and no caller-given
  environment fails with `NoEnvironmentSpecified` only when it has at least
  one `<environment>` child. The check runs inside the loop, through
  `isSpecifiedEnvironment`.
* Only the selected environment is ever built. A non-selected environment
  whose `transactionManager` or `dataSource` is missing goes unnoticed.
* When several environments carry the selected id, each one is built in turn
  and the last one stays installed.
* Settings are validated before the alias section runs, but they are applied
  after it. So a class-valued setting may name an alias that the same
  document declares.

One choice of the model differs from Java. `settingsAsProperties` checks every
key against the `Configuration` setters. The model checks the keys in document
order, and it reports the first unknown key. Java iterates over a hash table,
so which unknown key it names is not fixed.

## Model

| member | source | states |
|---|---|---|
| ConfigBuilder.XMLConfigBuilder.constructor | src/main/java/org/apache/ibatis/builder/xml/XMLConfigBuilder.java:100-108 | a fresh Configuration carrying the caller's variables and the built-in aliases; not yet parsed; the environment and parser variables are the caller's |
| ConfigBuilder.XMLConfigBuilder.Parse | src/main/java/org/apache/ibatis/builder/xml/XMLConfigBuilder.java:115-125 | afterwards the builder is marked parsed; a second call returns AlreadyUsed and leaves the configuration unchanged; a first call returns the configuration exactly when the whole pipeline succeeds, in the state the pipeline describes, or the pipeline's failure cause |
| ConfigBuilder.ParseTwice | src/main/java/org/apache/ibatis/builder/xml/XMLConfigBuilder.java:115-125 | for every document, the first parse builds iff the pipeline succeeds (failing with its cause otherwise), and the second parse on the same builder is always AlreadyUsed |
| ConfigBuilder.XMLConfigBuilder.ParseConfiguration | src/main/java/org/apache/ibatis/builder/xml/XMLConfigBuilder.java:132-173 | the sections run in source order; the configuration ends in the state the pipeline computes from the old state, or the pipeline's failure cause is returned |
| BuildProperties.PipelineStages | src/main/java/org/apache/ibatis/builder/xml/XMLConfigBuilder.java:132-173 | a successful build passed every stage in source order: a configuration root, properties, settings validation, the sections before settings, the settings and the sections after; the stages before environments keep the environment and the databaseId |
| BuildProperties.PipelineShape | src/main/java/org/apache/ibatis/builder/xml/XMLConfigBuilder.java:132-173 | a root that is not a configuration element fails with NullReference; a successful build installs settings and keeps every alias key it started with |
| BuildProperties.PipelineAppends | src/main/java/org/apache/ibatis/builder/xml/XMLConfigBuilder.java:132-173 | a successful build only appends to the interceptor, type-handler and mapper lists |
| ConfigBuilder.XMLConfigBuilder.SectionElements | src/main/java/org/apache/ibatis/builder/xml/XMLConfigBuilder.java:144-169 | the sections after settings validation agree with the pure composition of aliases, plugins, factories, settings, environments, databaseId, handlers and mappers |
| ConfigBuilder.XMLConfigBuilder.BeforeSettingsElements | src/main/java/org/apache/ibatis/builder/xml/XMLConfigBuilder.java:144-153 | typeAliases, plugins and the three factory sections agree with their pure counterpart |
| ConfigBuilder.XMLConfigBuilder.AfterSettingsElements | src/main/java/org/apache/ibatis/builder/xml/XMLConfigBuilder.java:159-169 | environments, databaseIdProvider, typeHandlers and mappers agree with their pure counterpart |
| Assembly.BeforeSettings | src/main/java/org/apache/ibatis/builder/xml/XMLConfigBuilder.java:144-153 | on success only the alias table, the interceptors and the three factories differ from the input; alias keys are only added and interceptors only appended |
| Assembly.AliasesAndPlugins | src/main/java/org/apache/ibatis/builder/xml/XMLConfigBuilder.java:144-148 | on success only the alias table and the interceptors differ from the input; alias keys are only added and interceptors only appended |
| Assembly.Factories | src/main/java/org/apache/ibatis/builder/xml/XMLConfigBuilder.java:150-153 | on success only the object, wrapper and reflector factories differ from the input |
| Assembly.AfterSettings | src/main/java/org/apache/ibatis/builder/xml/XMLConfigBuilder.java:159-169 | on success only the environment, the databaseId, the type handlers and the mappers differ, the two lists growing only at the end; the environment is the one the environments section left; the databaseId changes only when an environment and a provider element exist |
| Assembly.LoadedProperties | src/main/java/org/apache/ibatis/builder/xml/XMLConfigBuilder.java:274-285 | both a resource and a url fail with ConflictingPropertySources, and only then; neither loads nothing; one of them loads that resource or url or fails naming it |
| Assembly.MergedProperties | src/main/java/org/apache/ibatis/builder/xml/XMLConfigBuilder.java:272-292 | succeeds iff loading succeeds, with the same cause otherwise; the merged table has the union of keys, with caller variables over loaded over inline values |
| Assembly.PropertiesStage | src/main/java/org/apache/ibatis/builder/xml/XMLConfigBuilder.java:272-293 | an absent element changes nothing; otherwise only the configuration variables change, to the merged table |
| ConfigBuilder.XMLConfigBuilder.PropertiesElement | src/main/java/org/apache/ibatis/builder/xml/XMLConfigBuilder.java:272-293 | agrees with the properties stage, and installs the same merged table on the parser as on the configuration |
| Nodes.PropsOf | src/main/java/org/apache/ibatis/builder/xml/XMLConfigBuilder.java:274 | a child-properties table has exactly the names of its entries as keys |
| Nodes.PropsOfLastWins | src/main/java/org/apache/ibatis/builder/xml/XMLConfigBuilder.java:274 | among repeated names, the last entry's value is the one kept |
| Nodes.EntriesOfChildren | src/main/java/org/apache/ibatis/builder/xml/XMLConfigBuilder.java:274 | each child with both a name and a value contributes its entry, and every entry comes from such a child |
| Nodes.ChildrenAsPropertiesKeys | src/main/java/org/apache/ibatis/builder/xml/XMLConfigBuilder.java:274 | the keys of a child-properties table are exactly the names of the children that carry both a name and a value |
| BuildProperties.ConflictingSourcesAbort | src/main/java/org/apache/ibatis/builder/xml/XMLConfigBuilder.java:277-280 | a properties element naming both a resource and a url makes the whole parse fail with ConflictingPropertySources, before anything is loaded |
| Assembly.FirstUnknown | src/main/java/org/apache/ibatis/builder/xml/XMLConfigBuilder.java:182-187 | none iff every name is a known setter; otherwise a name from the list that is unknown |
| Assembly.ValidatedSettings | src/main/java/org/apache/ibatis/builder/xml/XMLConfigBuilder.java:175-189 | an absent element gives an empty bag; it succeeds iff every key names a setter, with the child properties as the bag; failure is UnknownSetting |
| ConfigBuilder.XMLConfigBuilder.SettingsAsProperties | src/main/java/org/apache/ibatis/builder/xml/XMLConfigBuilder.java:175-189 | the loop over the keys returns exactly the validated bag or the unknown-setting failure |
| BuildProperties.UnknownSettingAborts | src/main/java/org/apache/ibatis/builder/xml/XMLConfigBuilder.java:175-189 | a settings key without a setter makes the whole parse fail with UnknownSetting naming an unknown key |
| ConfigSettings.AutoMappingBehavior.Name | src/main/java/org/apache/ibatis/builder/xml/XMLConfigBuilder.java:296-297 | each enum constant's name parses back to that constant |
| ConfigSettings.UnknownColumnBehavior.Name | src/main/java/org/apache/ibatis/builder/xml/XMLConfigBuilder.java:298-299 | each enum constant's name parses back to that constant |
| ConfigSettings.ExecutorType.Name | src/main/java/org/apache/ibatis/builder/xml/XMLConfigBuilder.java:308 | each enum constant's name parses back to that constant |
| ConfigSettings.LocalCacheScope.Name | src/main/java/org/apache/ibatis/builder/xml/XMLConfigBuilder.java:314 | each enum constant's name parses back to that constant |
| ConfigSettings.ResultSetType.Name | src/main/java/org/apache/ibatis/builder/xml/XMLConfigBuilder.java:311 | each enum constant's name parses back to that constant |
| ConfigSettings.ParsedNamesRoundTrip | src/main/java/org/apache/ibatis/builder/xml/XMLConfigBuilder.java:296-314 | a name that an enumeration accepts is the accepted constant's own name, so each enumeration accepts exactly its constants' names |
| ConfigSettings.AutoMappingSetting | src/main/java/org/apache/ibatis/builder/xml/XMLConfigBuilder.java:296-297 | an absent key gives PARTIAL; a given value succeeds iff it is a constant name, giving that constant, and otherwise fails with BadEnumName naming key and value |
| ConfigSettings.UnknownColumnSetting | src/main/java/org/apache/ibatis/builder/xml/XMLConfigBuilder.java:298-299 | an absent key gives NONE; a given value succeeds iff it is a constant name, giving that constant, and otherwise fails with BadEnumName naming key and value |
| ConfigSettings.ExecutorSetting | src/main/java/org/apache/ibatis/builder/xml/XMLConfigBuilder.java:308 | an absent key gives SIMPLE; a given value succeeds iff it is a constant name, giving that constant, and otherwise fails with BadEnumName naming key and value |
| ConfigSettings.CacheScopeSetting | src/main/java/org/apache/ibatis/builder/xml/XMLConfigBuilder.java:314 | an absent key gives SESSION; a given value succeeds iff it is a constant name, giving that constant, and otherwise fails with BadEnumName naming key and value |
| ConfigSettings.JdbcTypeForNullSetting | src/main/java/org/apache/ibatis/builder/xml/XMLConfigBuilder.java:315 | an absent key gives OTHER; a given value succeeds iff it is a JdbcType constant name, giving that name, and otherwise fails with BadEnumName |
| ConfigSettings.IntegerSetting | src/main/java/org/apache/ibatis/builder/xml/XMLConfigBuilder.java:309-310 | an absent key gives null; a given value succeeds iff it parses as a 32-bit integer, giving that integer, and otherwise fails with BadInteger naming key and value |
| ConfigSettings.ResultSetTypeSetting | src/main/java/org/apache/ibatis/builder/xml/XMLConfigBuilder.java:311 | an absent key gives null; a given value succeeds iff it names a ResultSetType constant, giving that constant, and otherwise fails with BadResultSetType |
| ConfigSettings.ClassSetting | src/main/java/org/apache/ibatis/builder/xml/XMLConfigBuilder.java:319-320 | an absent key gives null; a given name registered as an alias (matched lower-cased) gives the alias's class; any other name succeeds iff the class loads, giving that name, and otherwise fails with UnresolvedType |
| ConfigSettings.Flag | src/main/java/org/apache/ibatis/builder/xml/XMLConfigBuilder.java:300 | an absent key gives the setting's default; a given value gives true iff it spells "true" in any letter case |
| ConfigSettings.ConvertLeading | src/main/java/org/apache/ibatis/builder/xml/XMLConfigBuilder.java:296-310 | on success the first six fallible conversions give their defaults for absent keys |
| ConfigSettings.ConvertTrailing | src/main/java/org/apache/ibatis/builder/xml/XMLConfigBuilder.java:311-326 | on success the last six fallible conversions give their defaults for absent keys |
| ConfigSettings.Convert | src/main/java/org/apache/ibatis/builder/xml/XMLConfigBuilder.java:295-327 | on success every absent typed key converts to its documented default |
| ConfigSettings.ConvertChecksEveryKey | src/main/java/org/apache/ibatis/builder/xml/XMLConfigBuilder.java:295-327 | the conversions succeed iff each of the twelve fallible setter arguments converts; each field is that argument's conversion; a bad autoMappingBehavior, converted first, is the cause reported |
| ConfigSettings.ResolveSettings | src/main/java/org/apache/ibatis/builder/xml/XMLConfigBuilder.java:295-327 | succeeds iff all fallible conversions succeed, failing with the first failure's cause; each typed field is its conversion; the lazy-load trigger methods are the comma pieces of the given value or of the default list; logPrefix is the given text or null |
| ConfigSettings.GivenTypedKeysApply | src/main/java/org/apache/ibatis/builder/xml/XMLConfigBuilder.java:295-327 | each given enumeration, integer, JDBC-type and logPrefix key is installed as the value its text names |
| ConfigSettings.GivenFlagsApply | src/main/java/org/apache/ibatis/builder/xml/XMLConfigBuilder.java:295-327 | each given boolean key is installed as true iff its text spells "true" in any letter case |
| ConfigSettings.BadGivenValueAborts | src/main/java/org/apache/ibatis/builder/xml/XMLConfigBuilder.java:295-327 | a given enumeration, integer or JDBC-type key whose text names no value makes the settings fail; for autoMappingBehavior, converted first, the cause is BadEnumName naming it |
| ConfigSettings.DefaultTriggerMethods | src/main/java/org/apache/ibatis/builder/xml/XMLConfigBuilder.java:316-317 | the default lazy-load trigger list splits into equals, clone, hashCode and toString |
| Text.SplitOfJoin | src/main/java/org/apache/ibatis/builder/xml/XMLConfigBuilder.java:316-317 | splitting a comma-joined list of comma-free names whose last name is not empty gives the names back |
| Text.JavaSplit | src/main/java/org/apache/ibatis/builder/xml/XMLConfigBuilder.java:316-317 | every piece of a split is free of commas |
| Text.StringSetValueOf | src/main/java/org/apache/ibatis/builder/xml/XMLConfigBuilder.java:316-317 | every element of the set is free of commas, and a comma-free value is its only element |
| Text.ParseDecimal | src/main/java/org/apache/ibatis/builder/xml/XMLConfigBuilder.java:309-310 | the decimal spelling of n parses to n, with or without a plus sign, iff n <= 2147483647, and with a minus sign to -n iff n <= 2147483648, so -2147483648 is accepted; outside that range there is no value |
| Text.ParseInt | src/main/java/org/apache/ibatis/builder/xml/XMLConfigBuilder.java:309-310 | a text is accepted iff it is an optional sign followed by a non-empty run of digits whose signed decimal value (negated after a minus) lies in the 32-bit range, and the result is exactly that value; text with no digits or a non-digit has no value |
| Text.ParseIntExamples | src/main/java/org/apache/ibatis/builder/xml/XMLConfigBuilder.java:309-310 | leading zeros and a plus sign are accepted ("007" is 7, "+0042" is 42) and "-00" is 0 |
| Text.BooleanValueOf | src/main/java/org/apache/ibatis/builder/xml/XMLConfigBuilder.java:300 | null gives the default; a given text gives true iff it spells "true" in any letter case |
| ConfigSettings.OnlyGivenKeysCanFail | src/main/java/org/apache/ibatis/builder/xml/XMLConfigBuilder.java:295-327 | a settings bag with none of the typed keys never fails to convert |
| ConfigSettings.AbsentTypedKeysTakeDefaults | src/main/java/org/apache/ibatis/builder/xml/XMLConfigBuilder.java:295-327 | each typed setting missing from the bag takes its default value |
| ConfigSettings.AbsentFlagsTakeDefaults | src/main/java/org/apache/ibatis/builder/xml/XMLConfigBuilder.java:295-327 | each boolean setting missing from the bag takes its default, whatever the other keys say |
| ConfigSettings.EmptyBagGivesDefaults | src/main/java/org/apache/ibatis/builder/xml/XMLConfigBuilder.java:295-327 | an empty settings bag resolves to exactly the default settings record |
| Assembly.SettingsStage | src/main/java/org/apache/ibatis/builder/xml/XMLConfigBuilder.java:295-327 | succeeds iff the bag resolves; then only the settings change; an empty bag installs the defaults |
| ConfigBuilder.XMLConfigBuilder.SettingsElement | src/main/java/org/apache/ibatis/builder/xml/XMLConfigBuilder.java:295-327 | agrees with the settings stage |
| BuildProperties.SettingsUseFinalAliases | src/main/java/org/apache/ibatis/builder/xml/XMLConfigBuilder.java:144-156 | the installed settings are the validated bag converted against the alias table left by typeAliases, plugins and the factories |
| Collaborators.ClassForName | src/main/java/org/apache/ibatis/builder/xml/XMLConfigBuilder.java:220 | succeeds iff the class is loadable, returning that class |
| Collaborators.ResolveClass | src/main/java/org/apache/ibatis/builder/xml/XMLConfigBuilder.java:239 | null resolves to null; a registered alias (matched lower-cased) resolves to its class; otherwise the name is class-loaded |
| Collaborators.Instantiate | src/main/java/org/apache/ibatis/builder/xml/XMLConfigBuilder.java:239-241 | a null class fails with NullReference; succeeds iff the class can be instantiated, carrying the given properties |
| Collaborators.Extension | src/main/java/org/apache/ibatis/builder/xml/XMLConfigBuilder.java:237-241 | succeeds iff the name resolves, through the alias table or the class loader, to a class that can be instantiated; the instance has that class and the given properties; a missing type fails with NullReference, an unresolvable one with the resolver's cause, and a class that cannot be instantiated with InstantiationFailed naming it |
| Collaborators.CreateInstance | src/main/java/org/apache/ibatis/builder/xml/XMLConfigBuilder.java:301 | a null name gives null; a given name succeeds iff it resolves to an instantiable class, giving that class's instance without properties, and otherwise fails with the same cause as the extension shape |
| Collaborators.RegisterAlias | src/main/java/org/apache/ibatis/builder/xml/XMLConfigBuilder.java:221-224 | fails with AliasConflict iff the lower-cased key is bound to another class; otherwise binds the key |
| Collaborators.RegisteredAliasResolves | src/main/java/org/apache/ibatis/builder/xml/XMLConfigBuilder.java:221-224 | a registered alias resolves to its class afterwards |
| Collaborators.RegisterAll | src/main/java/org/apache/ibatis/builder/xml/XMLConfigBuilder.java:213-215 | a package registration only adds keys, and its only failure is an alias conflict |
| Collaborators.RegisterAllKeeps | src/main/java/org/apache/ibatis/builder/xml/XMLConfigBuilder.java:213-215 | a successful package registration keeps every earlier binding unchanged |
| Collaborators.RegisterAllBinds | src/main/java/org/apache/ibatis/builder/xml/XMLConfigBuilder.java:213-215 | after a successful package registration, each scanned class is bound to itself under its lower-cased simple name |
| Collaborators.RegisterAllSucceedsIff | src/main/java/org/apache/ibatis/builder/xml/XMLConfigBuilder.java:213-215 | a package registration succeeds iff no scanned class's lower-cased simple name is already bound to another class and no two scanned classes with the same such name differ |
| Text.SimpleName | src/main/java/org/apache/ibatis/builder/xml/XMLConfigBuilder.java:213-215 | the simple name is a dot-free suffix of the qualified name |
| Text.SimpleNameIsLastSegment | src/main/java/org/apache/ibatis/builder/xml/XMLConfigBuilder.java:213-215 | the simple name is the whole qualified name or follows a dot, so it is exactly the part after the last dot |
| Text.Lower | src/main/java/org/apache/ibatis/builder/xml/XMLConfigBuilder.java:221-224 | lower-casing keeps the length and maps each character by ASCII case folding |
| Session.Configuration.RegisterAlias | src/main/java/org/apache/ibatis/builder/xml/XMLConfigBuilder.java:221-224 | the registry changes as the pure registration says, and a conflict changes nothing |
| Session.Configuration.RegisterAliases | src/main/java/org/apache/ibatis/builder/xml/XMLConfigBuilder.java:213-215 | the loop registers the scanned classes in order, stopping at the first conflict |
| Assembly.AliasEntry | src/main/java/org/apache/ibatis/builder/xml/XMLConfigBuilder.java:212-229 | keys are never removed; a package child is exactly the package registration of the classes the scan finds, or NullReference without a name; a typeAlias without a type fails with NullReference; an unloadable type fails with TypeAliasClassNotFound naming alias and type; a loadable one is exactly the alias registration under the given alias or else the simple name, which binds the key to the type or fails with AliasConflict |
| ConfigBuilder.XMLConfigBuilder.TypeAliasesElement | src/main/java/org/apache/ibatis/builder/xml/XMLConfigBuilder.java:210-232 | agrees with the fold of alias entries over the children |
| Assembly.SectionStage | src/main/java/org/apache/ibatis/builder/xml/XMLConfigBuilder.java:210-244 | an absent or empty section changes nothing; on success only the section's own field changes: alias keys are only added, and the interceptor, handler and mapper lists only grow at the end |
| Assembly.Step | src/main/java/org/apache/ibatis/builder/xml/XMLConfigBuilder.java:210-244 | one child changes only its section's field: the alias table only gains keys, an interceptor, handler or mapper list grows by exactly one at the end, an environment becomes one with the target id |
| Assembly.Fold | src/main/java/org/apache/ibatis/builder/xml/XMLConfigBuilder.java:210-244 | no children change nothing; on success only the section's own field changes, in the way a single child may change it |
| BuildProperties.Interceptors | src/main/java/org/apache/ibatis/builder/xml/XMLConfigBuilder.java:236-242 | one interceptor per plugin child, each built from that child |
| BuildProperties.PluginsAppendInOrder | src/main/java/org/apache/ibatis/builder/xml/XMLConfigBuilder.java:234-244 | the plugins section succeeds iff every plugin can be built, with the first failure's cause otherwise, and appends the interceptors in document order |
| ConfigBuilder.XMLConfigBuilder.PluginElement | src/main/java/org/apache/ibatis/builder/xml/XMLConfigBuilder.java:234-244 | agrees with the plugins fold |
| Assembly.ObjectFactoryStage | src/main/java/org/apache/ibatis/builder/xml/XMLConfigBuilder.java:246-254 | absent changes nothing; a present element succeeds iff its type resolves to an instantiable class, and then only the object factory is set, to that class with the child properties; a missing type fails with NullReference, and every failure carries the extension shape's cause |
| Assembly.ObjectWrapperFactoryStage | src/main/java/org/apache/ibatis/builder/xml/XMLConfigBuilder.java:256-262 | absent changes nothing; a present element succeeds iff its type resolves to an instantiable class, and then only the wrapper factory is set, to that class without properties; a missing type fails with NullReference, and every failure carries the extension shape's cause |
| Assembly.ReflectorFactoryStage | src/main/java/org/apache/ibatis/builder/xml/XMLConfigBuilder.java:264-270 | absent changes nothing; a present element succeeds iff its type resolves to an instantiable class, and then only the reflector factory is set, to that class without properties; a missing type fails with NullReference, and every failure carries the extension shape's cause |
| ConfigBuilder.XMLConfigBuilder.ObjectFactoryElement | src/main/java/org/apache/ibatis/builder/xml/XMLConfigBuilder.java:246-254 | agrees with the object factory stage |
| ConfigBuilder.XMLConfigBuilder.ObjectWrapperFactoryElement | src/main/java/org/apache/ibatis/builder/xml/XMLConfigBuilder.java:256-262 | agrees with the wrapper factory stage |
| ConfigBuilder.XMLConfigBuilder.ReflectorFactoryElement | src/main/java/org/apache/ibatis/builder/xml/XMLConfigBuilder.java:264-270 | agrees with the reflector factory stage |
| Assembly.EnvironmentTarget | src/main/java/org/apache/ibatis/builder/xml/XMLConfigBuilder.java:337-346 | a caller-given environment wins over the default attribute |
| Assembly.IsSpecifiedEnvironment | src/main/java/org/apache/ibatis/builder/xml/XMLConfigBuilder.java:512-521 | no target fails with NoEnvironmentSpecified, a target with no id fails with EnvironmentRequiresId, each iff; otherwise true iff the id equals the target |
| Assembly.TransactionManagerElement | src/main/java/org/apache/ibatis/builder/xml/XMLConfigBuilder.java:409-426 | a missing element fails with MissingTransactionFactory; a present one succeeds iff its type resolves to an instantiable class, and the factory is that class with the child properties |
| Assembly.DataSourceElement | src/main/java/org/apache/ibatis/builder/xml/XMLConfigBuilder.java:435-449 | a missing element fails with MissingDataSourceFactory; a present one succeeds iff its type resolves to an instantiable class, and the factory is that class with the child properties |
| Assembly.EnvironmentOf | src/main/java/org/apache/ibatis/builder/xml/XMLConfigBuilder.java:354-376 | the environment has the matched id; it needs a transaction manager first, then a data source, failing with the matching cause |
| Assembly.EnvironmentsStage | src/main/java/org/apache/ibatis/builder/xml/XMLConfigBuilder.java:335-381 | an absent element changes nothing; on success only the environment changes, and a changed environment has the chosen target id; with no target, a child makes it fail with NoEnvironmentSpecified |
| ConfigBuilder.XMLConfigBuilder.EnvironmentsElement | src/main/java/org/apache/ibatis/builder/xml/XMLConfigBuilder.java:335-381 | the builder's environment becomes the chosen target, and the configuration agrees with the environments stage |
| BuildProperties.NoTargetFails | src/main/java/org/apache/ibatis/builder/xml/XMLConfigBuilder.java:512-515 | without a target, any environment child makes the section fail with NoEnvironmentSpecified |
| BuildProperties.EnvironmentsSucceedIff | src/main/java/org/apache/ibatis/builder/xml/XMLConfigBuilder.java:350-379 | the section succeeds iff every child has an id and each child with the target id can be built |
| BuildProperties.MissingIdFails | src/main/java/org/apache/ibatis/builder/xml/XMLConfigBuilder.java:516-518 | the first child without an id makes the section fail with EnvironmentRequiresId |
| BuildProperties.NoMatchKeepsState | src/main/java/org/apache/ibatis/builder/xml/XMLConfigBuilder.java:350-379 | when no child has the target id, a successful section leaves the state as it was |
| BuildProperties.LastMatchWins | src/main/java/org/apache/ibatis/builder/xml/XMLConfigBuilder.java:350-379 | the last child with the target id is the installed environment |
| BuildProperties.UnselectedChildrenIgnored | src/main/java/org/apache/ibatis/builder/xml/XMLConfigBuilder.java:350-379 | children with other ids, whatever they contain, do not affect the result |
| BuildProperties.EnvironmentIsTarget | src/main/java/org/apache/ibatis/builder/xml/XMLConfigBuilder.java:132-173 | after a whole parse, an installed environment comes from an environments element and has the chosen target id |
| BuildProperties.AfterSettingsInstallsTarget | src/main/java/org/apache/ibatis/builder/xml/XMLConfigBuilder.java:159-160 | starting without an environment, an environment the later sections install comes from an environments element and has its chosen target id |
| Assembly.ProviderTypeName | src/main/java/org/apache/ibatis/builder/xml/XMLConfigBuilder.java:386-390 | VENDOR becomes DB_VENDOR; any other type stays as written |
| Assembly.Provider | src/main/java/org/apache/ibatis/builder/xml/XMLConfigBuilder.java:384-394 | no element gives no provider; a present one succeeds iff its type, with VENDOR renamed, resolves to an instantiable class, and the provider is that class with the child properties; a failure carries the extension shape's cause |
| Assembly.DatabaseIdStage | src/main/java/org/apache/ibatis/builder/xml/XMLConfigBuilder.java:383-400 | succeeds iff the provider can be built; only the databaseId may change, and it does only when both an environment and a provider exist, to the provider's answer for the environment's data source |
| ConfigBuilder.XMLConfigBuilder.DatabaseIdProviderElement | src/main/java/org/apache/ibatis/builder/xml/XMLConfigBuilder.java:383-400 | agrees with the databaseId stage |
| BuildProperties.DatabaseIdNeedsEnvironmentAndProvider | src/main/java/org/apache/ibatis/builder/xml/XMLConfigBuilder.java:395-399 | after a whole parse from no databaseId, a databaseId implies an installed environment and a provider element |
| Collaborators.ResolveJdbcType | src/main/java/org/apache/ibatis/builder/xml/XMLConfigBuilder.java:462 | null gives null; a name succeeds iff it is a JdbcType constant |
| Assembly.HandlerEntry | src/main/java/org/apache/ibatis/builder/xml/XMLConfigBuilder.java:453-473 | a package child registers the package, or fails with NullReference without a name; otherwise the overload follows which of javaType and jdbcType resolve to a value, the registration carries the resolved javaType, jdbcType and handler, an unresolvable javaType or an unknown jdbcType fails with its cause, and once both resolve the entry succeeds iff the handler resolves, failing with the handler's cause |
| BuildProperties.Handlers | src/main/java/org/apache/ibatis/builder/xml/XMLConfigBuilder.java:453-473 | one registration per child, each the child's own |
| BuildProperties.TypeHandlersAppendInOrder | src/main/java/org/apache/ibatis/builder/xml/XMLConfigBuilder.java:451-476 | the section succeeds iff every child is valid, with the first failure's cause otherwise, and appends the registrations in document order |
| ConfigBuilder.XMLConfigBuilder.TypeHandlerElement | src/main/java/org/apache/ibatis/builder/xml/XMLConfigBuilder.java:451-476 | agrees with the typeHandlers fold |
| Assembly.MapperReference | src/main/java/org/apache/ibatis/builder/xml/XMLConfigBuilder.java:485-507 | succeeds iff exactly one of resource, url and class is given, else fails with ConflictingMapperReference; the registration is of the given kind |
| Assembly.MapperEntry | src/main/java/org/apache/ibatis/builder/xml/XMLConfigBuilder.java:480-508 | a package child registers the package, or fails with NullReference without a name; a child with other than one reference fails with ConflictingMapperReference; a single resource, url or class succeeds iff the resource, URL or class is found, giving that reference, and otherwise fails with MapperResourceNotFound, MapperUrlNotFound or MapperClassNotFound naming it |
| BuildProperties.Mappers | src/main/java/org/apache/ibatis/builder/xml/XMLConfigBuilder.java:480-508 | one registration per child, each the child's own |
| BuildProperties.MappersAppendInOrder | src/main/java/org/apache/ibatis/builder/xml/XMLConfigBuilder.java:478-510 | the section succeeds iff every child is valid, with the first failure's cause otherwise, and appends the registrations in document order |
| ConfigBuilder.XMLConfigBuilder.MapperElement | src/main/java/org/apache/ibatis/builder/xml/XMLConfigBuilder.java:478-510 | agrees with the mappers fold |
| Session.Configuration.constructor | src/main/java/org/apache/ibatis/builder/xml/XMLConfigBuilder.java:100-108 | the initial state: the given variables, the built-in aliases, nothing else set |
| Session.Configuration.SetVariables | src/main/java/org/apache/ibatis/builder/xml/XMLConfigBuilder.java:291 | only the variables change, to the given table |
| Session.Configuration.AddInterceptor | src/main/java/org/apache/ibatis/builder/xml/XMLConfigBuilder.java:241 | only the interceptor list changes, by appending the interceptor |
| Session.Configuration.SetObjectFactory | src/main/java/org/apache/ibatis/builder/xml/XMLConfigBuilder.java:252 | only the object factory changes, to the given instance |
| Session.Configuration.SetObjectWrapperFactory | src/main/java/org/apache/ibatis/builder/xml/XMLConfigBuilder.java:260 | only the wrapper factory changes, to the given instance |
| Session.Configuration.SetReflectorFactory | src/main/java/org/apache/ibatis/builder/xml/XMLConfigBuilder.java:268 | only the reflector factory changes, to the given instance |
| Session.Configuration.ApplySettings | src/main/java/org/apache/ibatis/builder/xml/XMLConfigBuilder.java:296-326 | only the settings change, to the given record |
| Session.Configuration.SetEnvironment | src/main/java/org/apache/ibatis/builder/xml/XMLConfigBuilder.java:377 | only the environment changes, to the given one |
| Session.Configuration.SetDatabaseId | src/main/java/org/apache/ibatis/builder/xml/XMLConfigBuilder.java:398 | only the databaseId changes, to the given one |
| Session.Configuration.RegisterTypeHandler | src/main/java/org/apache/ibatis/builder/xml/XMLConfigBuilder.java:456-471 | only the type-handler list changes, by appending the registration |
| Session.Configuration.AddMapper | src/main/java/org/apache/ibatis/builder/xml/XMLConfigBuilder.java:483-502 | only the mapper list changes, by appending the registration |

## Left out

- Parsing XML text, XPath evaluation and `${...}` placeholder substitution: the document is given as an already-parsed tree.
- `loadCustomVfs` and `loadCustomLogImpl` (lines 141-142 and 191-208): they install VFS and logging implementations, which the configuration state does not model. Their failures are not modelled either: a `vfsImpl` class that cannot be loaded, or a `logImpl` that resolves to no class, aborts the Java build but not the model's.
- `ErrorContext` bookkeeping and the text of exception messages: a failure is its `Cause` value.
- The Reader and InputStream constructors: only the constructor that takes a parsed document is modelled.
- Parsing referenced mapper files (`XMLMapperBuilder`): a mapper resource or url that exists is recorded as a registration.
- Registry internals: duplicate checks in `MapperRegistry` and `TypeHandlerRegistry`, `@Alias` annotations, package-scan filtering and nested-class simple names. Registrations are recorded in order. A `typeHandler` child with no `handler` attribute is recorded as a handler-only registration of null; what `TypeHandlerRegistry.register` then does with a null handler class is not part of this model.
- Java's `Properties` iteration order: settings keys are checked in document order.
- The 26 separate setter calls of `settingsElement`: they are applied as one assignment of the settings record, so a conversion that fails part-way applies none of them, where Java has already applied the earlier setters.
- The state of the configuration after a failure: the model says which cause is raised, not what partial state remains.
- A `null` type passed to `resolveClass(...).newInstance()`: it is modelled as the `NullReference` cause rather than a `NullPointerException`.
- `Session.Configuration`: only the fields the builder writes are modelled. Settings are `None` until `settingsElement` has run. They stand in for the defaults the real class sets in its own constructor.
- Instantiate (`Collaborators.Instantiate`): the casts of the new instance to its extension role (`Interceptor`, `ObjectFactory`, `ObjectWrapperFactory`, `ReflectorFactory`, `ProxyFactory`, `DatabaseIdProvider`, `TransactionFactory`, `DataSourceFactory` at lines 239, 250, 259, 267, 301, 392, 421 and 444) are not modelled. A loadable, instantiable class of the wrong kind succeeds in the model, where Java throws `ClassCastException`; the `World` records which classes can be instantiated, not which interfaces they implement.
- Lower (`Text.Lower`): folds only the ASCII letters `A`-`Z`. `TypeAliasRegistry` lower-cases with `toLowerCase(Locale.ENGLISH)`, which also folds other letters (`É` to `é`), so such aliases register and resolve differently in the model. Unicode case tables are out of scope.
- ParseInt (`Text.ParseInt`): accepts only the ASCII digits `0`-`9`. `Integer.valueOf` also accepts the other Unicode decimal digits, so such values fail with `BadInteger` in the model only.
- RegisterAll (`Collaborators.RegisterAll`): its own contract states only that keys are added and that the failure is an alias conflict. When it succeeds is stated by the lemma `RegisterAllSucceedsIff`; as a contract of the function it made the proofs about the bindings a scan leaves too costly.
- ConvertLeading (`ConfigSettings.ConvertLeading`): its own contract states only the absent-key defaults of its six conversions. What a given key becomes is stated once, for the whole conversion, by `ConvertChecksEveryKey` and the per-key converters.
- ConvertTrailing (`ConfigSettings.ConvertTrailing`): the same as `ConvertLeading`, for the last six conversions.
- Convert (`ConfigSettings.Convert`): its own contract states only the absent-key defaults; `ConvertChecksEveryKey` states the rest as a lemma, which keeps the contract cheap for the many proofs that mention `Convert`.
- BadGivenValueAborts (`ConfigSettings.BadGivenValueAborts`): names the exact cause only for `autoMappingBehavior`, the first conversion. For a later key the cause is that of the first failing conversion in the setters' order, which may be an earlier key; that order is stated by `ConvertChecksEveryKey` and the per-key converters.
