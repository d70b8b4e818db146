/** The configuration check every datasource runs before it fetches anything. */
module Datasource {
  import opened Wrappers
  import opened Errors
  import opened KeeperTypes

  /** `ValidateDataSourceConfig`: None (Go's nil) when a non-empty uid is set, else UidRequired. */
  function ValidateDataSourceConfig(config: Config): (r: Option<Error>)
    ensures r.None? <==> exists uid :: config.uid == Some(uid) && |uid| > 0
    ensures r.Some? ==> r.value == UidRequired
  {
    if config.uid.None? || config.uid.value == "" then Some(UidRequired) else None
  }

  /** An absent uid and an empty uid are distinct inputs that are refused alike; any other uid passes. */
  lemma ValidateExamples(uid: string)
    requires uid != ""
    ensures ValidateDataSourceConfig(Config(None)) == Some(UidRequired)
    ensures ValidateDataSourceConfig(Config(Some(""))) == Some(UidRequired)
    ensures Config(None) != Config(Some(""))
    ensures ValidateDataSourceConfig(Config(Some(uid))) == None
  {
  }
}
