/** The server's configuration record, its section defaults and the choice of config file. */
module ServerConfig {

  /** Storage credentials. */
  datatype DatabaseConfig = DatabaseConfig(connection_str: string, password_str: string)

  datatype LoggingConfig = LoggingConfig(level: string)

  datatype ServiceConfig = ServiceConfig(name: string)

  /** The whole configuration, one field per section. */
  datatype Config = Config(database: DatabaseConfig, logging: LoggingConfig, service: ServiceConfig)

  /** The environment variable naming the config file, and the path used without it. */
  const ConfigFileVariable: string := "BPP_SERVER_CONFIG"
  const DefaultConfigFile: string := "~/bpp_server.config"

  /** `Default for DatabaseConfig`. */
  function DefaultDatabaseConfig(): (d: DatabaseConfig)
    ensures d.connection_str == "user@url.ca:8080" && d.password_str == "123olivera4"
  {
    DatabaseConfig("user@url.ca:8080", "123olivera4")
  }

  /** `Default for LoggingConfig`. */
  function DefaultLoggingConfig(): (l: LoggingConfig)
    ensures l.level == "INFO"
  {
    LoggingConfig("INFO")
  }

  /** `Default for ServiceConfig`. */
  function DefaultServiceConfig(): (s: ServiceConfig)
    ensures s.name == "NoteService"
  {
    ServiceConfig("NoteService")
  }

  /** The derived `Default for Config`: each section takes its own default. */
  function DefaultConfig(): (c: Config)
    ensures c.database == DefaultDatabaseConfig()
    ensures c.logging == DefaultLoggingConfig()
    ensures c.service == DefaultServiceConfig()
  {
    Config(DefaultDatabaseConfig(), DefaultLoggingConfig(), DefaultServiceConfig())
  }

  /** The constants each section's default holds. */
  lemma DefaultSectionValues()
    ensures DefaultDatabaseConfig().connection_str == "user@url.ca:8080"
    ensures DefaultDatabaseConfig().password_str == "123olivera4"
    ensures DefaultLoggingConfig().level == "INFO"
    ensures DefaultServiceConfig().name == "NoteService"
  {
  }

  /** The default configuration is made of the three section defaults. */
  lemma DefaultConfigComposed()
    ensures DefaultConfig().database == DefaultDatabaseConfig()
    ensures DefaultConfig().logging == DefaultLoggingConfig()
    ensures DefaultConfig().service == DefaultServiceConfig()
  {
  }

  /** The path `Config::load` reads: the value of BPP_SERVER_CONFIG when the process
      environment `env` sets it (even to the empty string), the default path otherwise. */
  function ConfigFilePath(env: map<string, string>): (path: string)
    ensures ConfigFileVariable in env ==> path == env[ConfigFileVariable]
    ensures ConfigFileVariable !in env ==> path == DefaultConfigFile
  {
    if ConfigFileVariable in env then env[ConfigFileVariable] else DefaultConfigFile
  }

  /** No variable other than BPP_SERVER_CONFIG influences the path. */
  lemma ConfigFilePathReadsOneVariable(env1: map<string, string>, env2: map<string, string>)
    requires ConfigFileVariable in env1 <==> ConfigFileVariable in env2
    requires ConfigFileVariable in env1 ==> env1[ConfigFileVariable] == env2[ConfigFileVariable]
    ensures ConfigFilePath(env1) == ConfigFilePath(env2)
  {
  }
}
