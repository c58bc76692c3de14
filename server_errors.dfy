/** The server's configuration error and its `Display` message. */
module ServerErrors {

  datatype BppConfigError = FailedToLoadConfigOptions(msg: string)

  const ConfigErrorPrefix: string := "Invalid config options: "

  /** `Display for BppConfigError`. */
  function Display(e: BppConfigError): (s: string)
    ensures |s| == |ConfigErrorPrefix| + |e.msg|
    ensures s[..|ConfigErrorPrefix|] == ConfigErrorPrefix
    ensures s[|ConfigErrorPrefix|..] == e.msg
  {
    match e
    case FailedToLoadConfigOptions(msg) => ConfigErrorPrefix + msg
  }

  /** The message is recovered from the display, so distinct messages display distinctly. */
  lemma DisplayInjective(e1: BppConfigError, e2: BppConfigError)
    requires Display(e1) == Display(e2)
    ensures e1 == e2
  {
  }

  /** The one error `Config::load` raises reads "Invalid config options: Config could not be loaded". */
  lemma LoadFailureMessage()
    ensures Display(FailedToLoadConfigOptions("Config could not be loaded"))
            == "Invalid config options: Config could not be loaded"
  {
  }
}
