/** The client's error enum and its `Display` messages. */
module CliErrors {

  datatype BppCliError =
    | FailedToAddNote
    | FailedToRmNote
    | InvalidParameters(msg: string)
    | FailedToConnect(msg: string)

  const AddFailureText: string := "Failed to Add Note"
  const RmFailureText: string := "Failed to Remove Note"
  const InvalidParametersPrefix: string := "Invalid Parameters: "

  /** `Display for BppCliError`. */
  function Display(e: BppCliError): (s: string)
    ensures e.FailedToAddNote? ==> s == "Failed to Add Note"
    ensures e.FailedToRmNote? ==> s == "Failed to Remove Note"
    ensures e.InvalidParameters? ==> |s| == |InvalidParametersPrefix| + |e.msg|
    ensures e.InvalidParameters? ==> s[..|InvalidParametersPrefix|] == "Invalid Parameters: "
    ensures e.InvalidParameters? ==> s[|InvalidParametersPrefix|..] == e.msg
    ensures e.FailedToConnect? ==> s == e.msg
  {
    match e
    case FailedToAddNote => AddFailureText
    case FailedToRmNote => RmFailureText
    case InvalidParameters(msg) => InvalidParametersPrefix + msg
    case FailedToConnect(msg) => msg
  }

  /** The two unit variants have fixed, distinct messages. */
  lemma FixedMessages()
    ensures Display(FailedToAddNote) == "Failed to Add Note"
    ensures Display(FailedToRmNote) == "Failed to Remove Note"
    ensures Display(FailedToAddNote) != Display(FailedToRmNote)
  {
  }

  /** `InvalidParameters(msg)` shows the prefix followed by `msg` unchanged: the message
      is recovered by dropping the 20-character prefix. */
  lemma InvalidParametersShape(msg: string)
    ensures |Display(InvalidParameters(msg))| == 20 + |msg|
    ensures Display(InvalidParameters(msg))[..20] == "Invalid Parameters: "
    ensures Display(InvalidParameters(msg))[20..] == msg
  {
  }

  /** Distinct `InvalidParameters` messages are displayed distinctly. */
  lemma {:induction false} InvalidParametersInjective(m1: string, m2: string)
    requires Display(InvalidParameters(m1)) == Display(InvalidParameters(m2))
    ensures m1 == m2
  {
    InvalidParametersShape(m1);
    InvalidParametersShape(m2);
  }

  /** `FailedToConnect(msg)` shows `msg` with nothing added. */
  lemma FailedToConnectVerbatim(msg: string)
    ensures Display(FailedToConnect(msg)) == msg
  {
  }

  /** Because `FailedToConnect` adds no prefix, the message alone does not tell the variants
      apart: every message, of any variant, is also the message of some `FailedToConnect`. */
  lemma DisplayNotInjective(e: BppCliError)
    ensures Display(FailedToConnect(Display(e))) == Display(e)
    ensures FailedToConnect(AddFailureText) != FailedToAddNote
    ensures Display(FailedToConnect(AddFailureText)) == Display(FailedToAddNote)
  {
  }
}
