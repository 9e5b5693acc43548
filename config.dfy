/** The limits of config/config.go. Loading the other settings from the
    environment is not part of this model. */
module Configuration {

  /** The limits a request is checked against. */
  datatype Config = Config(recentLimit: int, maxFileSize: int, maxDuration: real)

  /** 2 << 20 bytes, the upload limit Load sets. */
  const MaxFileSize: int := 2097152

  /** The defaults Load always sets. RecentLimit is never read by the store,
      which uses its own literal capacity. */
  const Default: Config := Config(10, MaxFileSize, 30.0)

}
