/** The collaborators the builder calls but does not implement: resource and
    URL loading, class loading (`Resources.classForName`), reflective
    instantiation (`newInstance`), the setter table of the configuration class
    (`MetaClass.hasSetter`), package scanning, and the vendor query of a
    database-id provider. Each is given as data in a `World`, so that every call
    is a total function that fails exactly where the real one throws.
    The type-alias table itself (`TypeAliasRegistry`: lower-cased keys, conflict
    check, alias first and class loading second) is modelled here too, because
    every later section resolves names through it. */
module Collaborators {
  import opened Failures
  import opened Text
  import opened Nodes

  /** An extension object created by name: its class and the property bag applied to it. */
  datatype Instance = Instance(className: string, properties: Props)

  /** The connection source a data-source factory hands out. */
  datatype DataSource = DataSource(factory: Instance)

  datatype World = World(
    propertyResources: map<string, Props>,   // Resources.getResourceAsProperties
    propertyUrls: map<string, Props>,        // Resources.getUrlAsProperties
    mapperResources: set<string>,            // Resources.getResourceAsStream succeeds
    mapperUrls: set<string>,                 // Resources.getUrlAsStream succeeds
    loadableClasses: set<string>,            // Resources.classForName succeeds
    instantiableClasses: set<string>,        // newInstance succeeds
    packageClasses: map<string, seq<string>>,// classes a package scan registers
    knownSetters: set<string>,               // MetaClass.hasSetter on the configuration class
    builtinAliases: map<string, string>,     // aliases the configuration registers itself
    databaseIds: map<(Instance, DataSource), string>) // DatabaseIdProvider.getDatabaseId

  /** `Resources.classForName(name)`: direct class loading, no aliases. */
  function ClassForName(name: string, w: World): (r: Result<string>)
    ensures r.Ok? <==> name in w.loadableClasses
    ensures r.Ok? ==> r.value == name
  {
    if name in w.loadableClasses then Ok(name) else Err(UnresolvedType(name))
  }

  /** `resolveClass(alias)`: nothing for an absent name; otherwise the alias table
      is consulted first (by lower-cased key) and class loading second. */
  function ResolveClass(name: Option<string>, aliases: map<string, string>, w: World): (r: Result<Option<string>>)
    ensures name.None? ==> r == Ok(None)
    ensures name.Some? && Lower(name.value) in aliases ==> r == Ok(Some(aliases[Lower(name.value)]))
    ensures name.Some? && Lower(name.value) !in aliases ==>
              (r.Ok? <==> name.value in w.loadableClasses) && (r.Ok? ==> r.value == name)
  {
    match name
    case None => Ok(None)
    case Some(n) =>
      var key := Lower(n);
      if key in aliases then Ok(Some(aliases[key]))
      else if n in w.loadableClasses then Ok(Some(n))
      else Err(UnresolvedType(n))
  }

  /** `newInstance()` on a resolved class followed by `setProperties(properties)`;
      calling it on the null an absent name resolves to fails. */
  function Instantiate(cls: Option<string>, properties: Props, w: World): (r: Result<Instance>)
    ensures cls.None? ==> r == Err(NullReference)
    ensures r.Ok? <==> cls.Some? && cls.value in w.instantiableClasses
    ensures r.Ok? ==> r.value == Instance(cls.value, properties)
  {
    match cls
    case None => Err(NullReference)
    case Some(c) =>
      if c in w.instantiableClasses then Ok(Instance(c, properties)) else Err(InstantiationFailed(c))
  }

  /** The name resolves, through the alias table or the class loader, to a class
      that can be instantiated. */
  predicate Builds(name: Option<string>, aliases: map<string, string>, w: World) {
    var cls := ResolveClass(name, aliases, w);
    cls.Ok? && cls.value.Some? && cls.value.value in w.instantiableClasses
  }

  /** `resolveClass(name).newInstance()` with the bag applied: the shape of every
      extension element (plugins, factories, transaction managers, data sources,
      database-id providers). */
  function Extension(name: Option<string>, properties: Props, aliases: map<string, string>, w: World): (r: Result<Instance>)
    ensures name.None? ==> r == Err(NullReference)
    ensures r.Ok? <==> Builds(name, aliases, w)
    ensures r.Ok? ==> r.value.properties == properties && ResolveClass(name, aliases, w) == Ok(Some(r.value.className))
    ensures ResolveClass(name, aliases, w).Err? ==> r == Err(ResolveClass(name, aliases, w).cause)
    ensures ResolveClass(name, aliases, w).Ok? && ResolveClass(name, aliases, w).value.Some?
            && ResolveClass(name, aliases, w).value.value !in w.instantiableClasses ==>
              r == Err(InstantiationFailed(ResolveClass(name, aliases, w).value.value))
  {
    var cls :- ResolveClass(name, aliases, w);
    Instantiate(cls, properties, w)
  }

  /** `createInstance(name)`: like `Extension`, but an absent name yields nothing. */
  function CreateInstance(name: Option<string>, aliases: map<string, string>, w: World): (r: Result<Option<Instance>>)
    ensures name.None? ==> r == Ok(None)
    ensures r.Ok? && r.value.Some? ==> name.Some? && Extension(name, map[], aliases, w) == Ok(r.value.value)
    ensures name.Some? ==> (r.Ok? <==> Builds(name, aliases, w))
    ensures name.Some? && r.Ok? ==> r.value.Some?
    ensures name.Some? && r.Err? ==> r == Err(Extension(name, map[], aliases, w).cause)
  {
    var cls :- ResolveClass(name, aliases, w);
    if cls.None? then Ok(None)
    else
      var instance :- Instantiate(cls, map[], w);
      Ok(Some(instance))
  }

  /** `TypeAliasRegistry.registerAlias(alias, cls)`: the lower-cased key may not
      already stand for a different class. */
  function RegisterAlias(aliases: map<string, string>, alias: string, cls: string): (r: Result<map<string, string>>)
    ensures r.Err? <==> Lower(alias) in aliases && aliases[Lower(alias)] != cls
    ensures r.Err? ==> r.cause == AliasConflict(Lower(alias))
    ensures r.Ok? ==> r.value == aliases[Lower(alias) := cls]
  {
    var key := Lower(alias);
    if key in aliases && aliases[key] != cls then Err(AliasConflict(key)) else Ok(aliases[key := cls])
  }

  /** A registered alias resolves to its class, whatever the class loader knows. */
  lemma RegisteredAliasResolves(aliases: map<string, string>, alias: string, cls: string, w: World)
    requires RegisterAlias(aliases, alias, cls).Ok?
    ensures ResolveClass(Some(alias), RegisterAlias(aliases, alias, cls).value, w) == Ok(Some(cls))
  {
  }

  /** `registerAliases(packageName)`: every scanned class under its simple name,
      in order; the first conflict stops the scan. */
  function RegisterAll(aliases: map<string, string>, classes: seq<string>): (r: Result<map<string, string>>)
    ensures r.Ok? ==> aliases.Keys <= r.value.Keys
    ensures r.Err? ==> r.cause.AliasConflict?
    decreases |classes|
  {
    if classes == [] then Ok(aliases)
    else
      var next :- RegisterAlias(aliases, SimpleName(classes[0]), classes[0]);
      RegisterAll(next, classes[1..])
  }

  /** The key a scanned class is registered under. */
  function KeyOf(cls: string): string {
    Lower(SimpleName(cls))
  }

  /** The keys of the scanned classes, in scan order. */
  function Keys(classes: seq<string>): (ks: seq<string>)
    ensures |ks| == |classes|
    decreases |classes|
  {
    if classes == [] then [] else [KeyOf(classes[0])] + Keys(classes[1..])
  }

  /** Each class fits under its key: no key is already bound to another class,
      and no two classes under the same key differ. */
  predicate Fits(aliases: map<string, string>, keys: seq<string>, classes: seq<string>)
    requires |keys| == |classes|
  {
    && (forall i :: 0 <= i < |classes| && keys[i] in aliases ==> aliases[keys[i]] == classes[i])
    && (forall i, j :: 0 <= i < j < |classes| && keys[i] == keys[j] ==> classes[i] == classes[j])
  }

  /** A package scan can register `classes`: no scanned class's key is already
      bound to another class, and no two scanned classes with the same key differ. */
  predicate Compatible(aliases: map<string, string>, classes: seq<string>) {
    Fits(aliases, Keys(classes), classes)
  }

  /** Registering the first class keeps the rest fitting. */
  lemma FitsTail(aliases: map<string, string>, keys: seq<string>, classes: seq<string>)
    requires |keys| == |classes| > 0 && Fits(aliases, keys, classes)
    ensures keys[0] in aliases ==> aliases[keys[0]] == classes[0]
    ensures Fits(aliases[keys[0] := classes[0]], keys[1..], classes[1..])
  {
  }

  /** A first class that fits, followed by a rest that fits after it, fits. */
  lemma FitsCons(aliases: map<string, string>, keys: seq<string>, classes: seq<string>)
    requires |keys| == |classes| > 0
    requires keys[0] in aliases ==> aliases[keys[0]] == classes[0]
    requires Fits(aliases[keys[0] := classes[0]], keys[1..], classes[1..])
    ensures Fits(aliases, keys, classes)
  {
  }

  /** A package scan succeeds exactly when its classes are compatible with the
      registry and with each other. */
  lemma {:induction false} RegisterAllSucceedsIff(aliases: map<string, string>, classes: seq<string>)
    ensures RegisterAll(aliases, classes).Ok? <==> Compatible(aliases, classes)
    decreases |classes|
  {
    if classes != [] {
      var keys, k0 := Keys(classes), KeyOf(classes[0]);
      var next := aliases[k0 := classes[0]];
      assert keys[0] == k0 && keys[1..] == Keys(classes[1..]);
      RegisterAllSucceedsIff(next, classes[1..]);
      if Compatible(aliases, classes) {
        FitsTail(aliases, keys, classes);
      } else if !(k0 in aliases && aliases[k0] != classes[0]) && Compatible(next, classes[1..]) {
        FitsCons(aliases, keys, classes);
      }
    }
  }

  /** A successful package registration replaces no binding that was already there. */
  lemma {:induction false} RegisterAllKeeps(aliases: map<string, string>, classes: seq<string>)
    requires RegisterAll(aliases, classes).Ok?
    ensures forall k :: k in aliases ==> k in RegisterAll(aliases, classes).value && RegisterAll(aliases, classes).value[k] == aliases[k]
    decreases |classes|
  {
    if classes != [] {
      var next := RegisterAlias(aliases, SimpleName(classes[0]), classes[0]).value;
      RegisterAllKeeps(next, classes[1..]);
    }
  }

  /** One step of a package registration. */
  lemma RegisterAllUnfolds(aliases: map<string, string>, classes: seq<string>)
    requires classes != [] && RegisterAll(aliases, classes).Ok?
    ensures RegisterAlias(aliases, SimpleName(classes[0]), classes[0]).Ok?
    ensures RegisterAll(aliases, classes) == RegisterAll(RegisterAlias(aliases, SimpleName(classes[0]), classes[0]).value, classes[1..])
  {
  }

  /** `cls` is what its lower-cased simple name stands for in `aliases`. */
  predicate BoundUnderSimpleName(aliases: map<string, string>, cls: string) {
    Lower(SimpleName(cls)) in aliases && aliases[Lower(SimpleName(cls))] == cls
  }

  /** After a successful package registration each scanned class is what its
      lower-cased simple name stands for. */
  lemma {:induction false} RegisterAllBinds(aliases: map<string, string>, classes: seq<string>)
    requires RegisterAll(aliases, classes).Ok?
    ensures forall i :: 0 <= i < |classes| ==> BoundUnderSimpleName(RegisterAll(aliases, classes).value, classes[i])
    decreases |classes|
  {
    if classes != [] {
      var rest := classes[1..];
      RegisterAllUnfolds(aliases, classes);
      var next := RegisterAlias(aliases, SimpleName(classes[0]), classes[0]).value;
      var m := RegisterAll(next, rest).value;
      assert BoundUnderSimpleName(m, classes[0]) by {
        assert BoundUnderSimpleName(next, classes[0]);
        RegisterAllKeeps(next, rest);
      }
      assert forall i :: 0 <= i < |rest| ==> BoundUnderSimpleName(m, rest[i]) by {
        RegisterAllBinds(next, rest);
      }
      assert forall i :: 1 <= i < |classes| ==> classes[i] == rest[i - 1];
    }
  }

  /** The constants of the JDBC type enumeration. */
  const JdbcTypeNames: set<string> := {
    "ARRAY", "BIT", "TINYINT", "SMALLINT", "INTEGER", "BIGINT", "FLOAT", "REAL", "DOUBLE",
    "NUMERIC", "DECIMAL", "CHAR", "VARCHAR", "LONGVARCHAR", "DATE", "TIME", "TIMESTAMP",
    "BINARY", "VARBINARY", "LONGVARBINARY", "NULL", "OTHER", "BLOB", "CLOB", "BOOLEAN",
    "CURSOR", "UNDEFINED", "NVARCHAR", "NCHAR", "NCLOB", "STRUCT", "JAVA_OBJECT", "DISTINCT",
    "REF", "DATALINK", "ROWID", "LONGNVARCHAR", "SQLXML", "DATETIMEOFFSET"
  }

  /** `resolveJdbcType(name)`: nothing for an absent name, otherwise the enumeration constant. */
  function ResolveJdbcType(name: Option<string>): (r: Result<Option<string>>)
    ensures name.None? ==> r == Ok(None)
    ensures name.Some? ==> (r.Ok? <==> name.value in JdbcTypeNames) && (r.Ok? ==> r.value == name)
  {
    match name
    case None => Ok(None)
    case Some(n) => if n in JdbcTypeNames then Ok(Some(n)) else Err(BadJdbcType(n))
  }
}
