/**
 * The driver-selection rule of Paginate::factory: an explicit driver name wins;
 * otherwise the name is derived from the kind of the source object; a missing or
 * PHP-falsy name ("" or "0") raises an exception.
 */
module Factory {

  import opened Wrappers

  /** What the source object handed to the factory is an instance of. */
  datatype SourceKind = OrmModel | DatabaseQuery | OtherObject

  /** The exception raised when no driver can be determined. */
  datatype FactoryError = NoDriver

  /** The driver name inferred from the kind of the source object, if any. */
  function DefaultDriver(source: SourceKind): Option<string>
  {
    match source
    case OrmModel => Some("ORM")
    case DatabaseQuery => Some("Database")
    case OtherObject => None
  }

  /** PHP's `! $driver` on a string: only the empty string and "0" are false. */
  predicate Falsy(name: string)
  {
    name == "" || name == "0"
  }

  /** The driver name the factory instantiates, or the exception it raises. */
  function SelectDriver(source: SourceKind, driver: Option<string>): (r: Result<string, FactoryError>)
    ensures r.Success? <==>
      (driver.Some? && !Falsy(driver.value)) || (driver.None? && source != OtherObject)
    ensures driver.Some? && r.Success? ==> r.value == driver.value
    ensures driver.None? && source == OrmModel ==> r == Success("ORM")
    ensures driver.None? && source == DatabaseQuery ==> r == Success("Database")
    ensures r.Success? ==> !Falsy(r.value)
  {
    var chosen := if driver.None? then DefaultDriver(source) else driver;
    if chosen.None? || Falsy(chosen.value) then Failure(NoDriver)
    else Success(chosen.value)
  }

  /** An explicit, non-falsy driver name is used whatever the source object is. */
  lemma ExplicitDriverIgnoresSource(a: SourceKind, b: SourceKind, name: string)
    ensures SelectDriver(a, Some(name)) == SelectDriver(b, Some(name))
  {
  }
}
