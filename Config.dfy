/** ConfigReader.java: one process-wide property table, absent until a load has at
    least opened the file. Both lookup forms read the same shared table. */
module Config {
  import opened Common

  type Properties = map<string, string>

  const NotLoadedMessage := "Properties not loaded. Call loadProperties() first."
  const LoadFailedPrefix := "Failed to load config.properties file: "

  /** `getProperty(key)`: the stored value, null for a missing key, and an exception
      while nothing has been loaded. */
  function Lookup(prop: Option<Properties>, key: string): (r: Result<Option<string>>)
    ensures r.Err? <==> prop.None?
    ensures r.Err? ==> r.error == NotLoadedMessage
    ensures prop.Some? && key in prop.value ==> r == Ok(Some(prop.value[key]))
    ensures prop.Some? && key !in prop.value ==> r == Ok(None)
  {
    match prop
    case None => Err(NotLoadedMessage)
    case Some(table) => Ok(if key in table then Some(table[key]) else None)
  }

  /** `getProperty(key, default)`: the stored value, else the default. */
  function LookupOr(prop: Option<Properties>, key: string, default: string): (r: Result<string>)
    ensures r.Err? <==> prop.None?
    ensures r.Err? ==> r.error == NotLoadedMessage
    ensures prop.Some? && key in prop.value ==> r == Ok(prop.value[key])
    ensures prop.Some? && key !in prop.value ==> r == Ok(default)
  {
    match prop
    case None => Err(NotLoadedMessage)
    case Some(table) => Ok(if key in table then table[key] else default)
  }

  /** The two lookup forms agree: the defaulted one is the plain one with null
      replaced by the default. */
  lemma LookupOrIsLookupWithDefault(prop: Option<Properties>, key: string, default: string)
    ensures LookupOr(prop, key, default).Ok? == Lookup(prop, key).Ok?
    ensures LookupOr(prop, key, default).Ok? ==>
              LookupOr(prop, key, default).value == Lookup(prop, key).value.GetOr(default)
  {
  }

  const MalformedEscapeError := "java.lang.IllegalArgumentException: Malformed \\uxxxx encoding."

  /** How reading the file went. The stream is opened first; `prop` is replaced by a
      fresh table only after that, so a failure while loading or closing leaves the
      partly filled fresh table installed. `OpenFailed` and `LoadFailed` are
      IOExceptions; `Malformed` is the IllegalArgumentException `Properties.load` throws
      on a backslash-u not followed by four hex digits, which the catch does not take. */
  datatype FileRead =
    | OpenFailed(message: string)
    | LoadFailed(partial: Properties, message: string)
    | Malformed(partial: Properties)
    | Loaded(table: Properties)

  /** The table after `loadProperties`. */
  function TableAfterLoad(prop: Option<Properties>, file: FileRead): (r: Option<Properties>)
    ensures file.OpenFailed? ==> r == prop
    ensures file.LoadFailed? || file.Malformed? ==> r == Some(file.partial)
    ensures file.Loaded? ==> r == Some(file.table)
  {
    match file
    case OpenFailed(_) => prop
    case LoadFailed(partial, _) => Some(partial)
    case Malformed(partial) => Some(partial)
    case Loaded(table) => Some(table)
  }

  /** A successful load replaces the whole table: whatever was loaded before, every
      lookup afterwards answers from the new table alone. */
  lemma LoadReplacesTable(prop: Option<Properties>, table: Properties, key: string)
    ensures Lookup(TableAfterLoad(prop, Loaded(table)), key) ==
            Ok(if key in table then Some(table[key]) else None)
  {
  }

  /** The shared configuration, passed to its users instead of being a static field. */
  class ConfigReader {
    var prop: Option<Properties>

    constructor ()
      ensures prop == None
    {
      prop := None;
    }

    /** `loadProperties(path)`: the file's outcome is given; an IOException is rethrown as
        a RuntimeException carrying the cause's message, while a malformed escape escapes
        unwrapped. The source returns null on success. */
    method LoadProperties(file: FileRead) returns (r: Result<()>)
      modifies this
      ensures prop == TableAfterLoad(old(prop), file)
      ensures r.Ok? <==> file.Loaded?
      ensures file.OpenFailed? ==> r == Err(LoadFailedPrefix + file.message)
      ensures file.LoadFailed? ==> r == Err(LoadFailedPrefix + file.message)
      ensures file.Malformed? ==> r == Err(MalformedEscapeError)
    {
      match file
      case OpenFailed(msg) =>
        r := Err(LoadFailedPrefix + msg);
      case LoadFailed(partial, msg) =>
        prop := Some(partial);
        r := Err(LoadFailedPrefix + msg);
      case Malformed(partial) =>
        prop := Some(partial);
        r := Err(MalformedEscapeError);
      case Loaded(table) =>
        prop := Some(table);
        r := Ok(());
    }

    method GetProperty(key: string) returns (r: Result<Option<string>>)
      ensures r == Lookup(prop, key)
    {
      if prop.None? {
        return Err(NotLoadedMessage);
      }
      r := Ok(if key in prop.value then Some(prop.value[key]) else None);
    }

    method GetPropertyOr(key: string, default: string) returns (r: Result<string>)
      ensures r == LookupOr(prop, key, default)
    {
      if prop.None? {
        return Err(NotLoadedMessage);
      }
      r := Ok(if key in prop.value then prop.value[key] else default);
    }
  }
}
