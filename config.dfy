// The broker's configuration and its validation: three guards checked in a
// fixed order, each with a fixed message.
module Config {
  import opened Errors
  import Catalog

  datatype Config = Config(
    region: string,
    queuePrefix: string,
    allowUserProvisionParameters: bool,
    allowUserUpdateParameters: bool,
    catalog: Catalog.Catalog)

  /** Validates a configuration.  `validateCatalog` is the catalog's own check
      (its message when it fails), consulted only once both strings are set. */
  function Validate(c: Config, validateCatalog: Catalog.Catalog -> Option<string>): (r: Option<Error>)
    ensures r.None? <==> c.region != "" && c.queuePrefix != "" && validateCatalog(c.catalog).None?
    ensures c.region == "" ==> r == Some(Text("Must provide a non-empty Region"))
    ensures c.region != "" && c.queuePrefix == "" ==> r == Some(Text("Must provide a non-empty QueuePrefix"))
    ensures c.region != "" && c.queuePrefix != "" && validateCatalog(c.catalog).Some? ==>
      r == Some(Text("Validating Catalog configuration: " + validateCatalog(c.catalog).value))
  {
    if c.region == "" then Some(Text("Must provide a non-empty Region"))
    else if c.queuePrefix == "" then Some(Text("Must provide a non-empty QueuePrefix"))
    else match validateCatalog(c.catalog)
      case Some(message) => Some(Text("Validating Catalog configuration: " + message))
      case None => None
  }

  /** Neither parameter toggle affects validation. */
  lemma TogglesDoNotMatter(c: Config, validateCatalog: Catalog.Catalog -> Option<string>, provision: bool, update: bool)
    ensures Validate(c.(allowUserProvisionParameters := provision, allowUserUpdateParameters := update), validateCatalog)
         == Validate(c, validateCatalog)
  {
  }

  /** The catalog check is reached only when both strings are non-empty:
      with either missing, any two catalog checks give the same result. */
  lemma CatalogCheckedLast(c: Config, v1: Catalog.Catalog -> Option<string>, v2: Catalog.Catalog -> Option<string>)
    requires c.region == "" || c.queuePrefix == ""
    ensures Validate(c, v1) == Validate(c, v2)
  {
  }
}
