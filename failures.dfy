/** Failure values shared by every stage of the configuration build.
    Each constructor of `Cause` stands for one exception the builder or one of
    its collaborators raises; the build wraps whichever one occurs first. */
module Failures {

  datatype Option<+T> = None | Some(value: T) {
    function GetOr(default: T): T {
      match this
      case Some(v) => v
      case None => default
    }
  }

  datatype Cause =
    // properties section
    | ConflictingPropertySources
    | PropertiesResourceNotFound(resource: string)
    | PropertiesUrlNotFound(url: string)
    // settings section
    | UnknownSetting(key: string)
    | BadEnumName(setting: string, name: string)
    | BadInteger(setting: string, text: string)
    // class resolution and instantiation
    | UnresolvedType(name: string)
    | InstantiationFailed(className: string)
    | NullReference
    // type aliases
    | TypeAliasClassNotFound(alias: Option<string>, typeName: string)
    | AliasConflict(key: string)
    // type handlers and result-set types
    | BadJdbcType(name: string)
    | BadResultSetType(name: string)
    // environments
    | NoEnvironmentSpecified
    | EnvironmentRequiresId
    | MissingTransactionFactory
    | MissingDataSourceFactory
    // mappers
    | ConflictingMapperReference
    | MapperResourceNotFound(resource: string)
    | MapperUrlNotFound(url: string)
    | MapperClassNotFound(className: string)

  /** A value or the cause of the failure that prevented it; usable with `:-`. */
  datatype Result<+T> = Ok(value: T) | Err(cause: Cause) {
    predicate IsFailure() {
      Err?
    }

    function PropagateFailure<U>(): Result<U>
      requires Err?
    {
      Err(cause)
    }

    function Extract(): T
      requires Ok?
    {
      value
    }
  }

  /** The outcome of a step that only changes state. */
  datatype Outcome = Pass | Fail(cause: Cause)
}
