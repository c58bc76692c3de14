/** The server's note service and its data-access object, both built from the configuration. */
module Server {
  import opened Wrappers
  import opened ServerConfig
  import opened ServerErrors

  /** The data-access object: storage credentials only, no read or write operations. */
  datatype NoteDao = NoteDao(connection_str: string, password: string)

  /** The service: a display name and its data-access object. */
  datatype NoteService = NoteService(service_name: string, node: NoteDao)

  /** `NoteDao::from_config`: copies the two database fields and never fails. */
  function NoteDaoFromConfig(config: Config): (r: Result<NoteDao, BppConfigError>)
    ensures r.Ok?
    ensures r.value.connection_str == config.database.connection_str
    ensures r.value.password == config.database.password_str
  {
    Ok(NoteDao(config.database.connection_str, config.database.password_str))
  }

  /** `NoteService::from_config`: takes the service name and propagates, with `?`, the
      outcome of building the data-access object from the same configuration. */
  function NoteServiceFromConfig(config: Config): (r: Result<NoteService, BppConfigError>)
    ensures r.Ok? <==> NoteDaoFromConfig(config).Ok?
    ensures r.Ok? ==> r.value.service_name == config.service.name
    ensures r.Ok? ==> r.value.node == NoteDaoFromConfig(config).value
  {
    match NoteDaoFromConfig(config)
    case Err(e) => Err(e)
    case Ok(node) => Ok(NoteService(config.service.name, node))
  }

  /** No configuration makes construction fail: neither constructor validates anything. */
  lemma ConstructionNeverFails(config: Config)
    ensures NoteServiceFromConfig(config).Ok?
    ensures NoteServiceFromConfig(config).value
            == NoteService(config.service.name,
                           NoteDao(config.database.connection_str, config.database.password_str))
  {
  }

  /** Construction reads nothing from the logging section. */
  lemma ConstructionIgnoresLogging(c1: Config, c2: Config)
    requires c1.database == c2.database && c1.service == c2.service
    ensures NoteServiceFromConfig(c1) == NoteServiceFromConfig(c2)
  {
  }

  /** The service built from the default configuration. */
  lemma DefaultService()
    ensures NoteServiceFromConfig(DefaultConfig())
            == Ok(NoteService("NoteService", NoteDao("user@url.ca:8080", "123olivera4")))
  {
  }
}
