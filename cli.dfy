/** The command-line client: resolving Add's title and content, building the three requests,
    and mapping each service reply to an exit code, an error and the lines printed.
    The network and the editor are inputs: a `Connection` says whether connecting succeeded and
    what the service answers to each call, an `EditorOutcome` what the edited file held. */
module Cli {
  import opened Wrappers
  import opened Strings
  import opened Proto
  import opened CliErrors

  /** Parsed options of `add`, `rm` and `search`. */
  datatype AddOpts = AddOpts(title: Option<string>, content: Option<string>, edit: bool)
  datatype RmOpts = RmOpts(id: string)
  datatype SearchOpts = SearchOpts(all: bool, query: string)

  datatype SubCommand = Add(add: AddOpts) | Rm(rm: RmOpts) | Search(search: SearchOpts)

  /** The three request messages. */
  datatype Request =
    | AddRequest(title: string, content: string)
    | RmRequest(id: string)
    | SearchRequest(query: string, all: bool)

  /** What a call returns: the reply's payload, or a transport-level error status. */
  datatype Reply<+T> = Answered(body: T) | TransportFailed

  /** The connection attempt to the service, and if it succeeded, what the service answers. */
  datatype Connection =
    | Refused
    | Open(addReply: Reply<Option<Note>>, rmReply: Reply<Option<Note>>, searchReply: Reply<seq<Note>>)

  /** The editor session: the text read back from the temporary file, or a failure to spawn the
      editor, to wait for it, or to read the file. The editor's exit status is never inspected. */
  datatype EditorOutcome = Edited(text: string) | EditorFailed

  /** What one invocation did: the request sent (if any), the value `run` returns, and what it
      printed, one element per `println!` call in order, without the trailing newline; an element
      may itself contain line breaks (a note's content from the editor often does). */
  datatype Outcome = Outcome(sent: Option<Request>, result: Result<int, BppCliError>, printed: seq<string>)

  /** Add's parameters after local resolution: a request to send, or a local error. */
  datatype AddResolution = Send(title: string, content: string) | Reject(error: BppCliError)

  /** `run` connects to port 8085 of the local host and names that port when it cannot. */
  const ConnectFailureMessage: string := "Failed to connect to port 8085"
  const MissingParametersMessage: string := "Title and Content cannot be empty"
  const SingleLineNotice: string := "Invalid text: More than one line required. (First line is the title)"
  const SearchSeparator: string := "--------"
  const NoNotesMessage: string := "Found not notes!"

  // ---------------------------------------------------------------------------
  // Add: parameter resolution

  /** Whether the editor text has no line break, the case `run` reports but does not reject. */
  predicate SingleLineEdit(opts: AddOpts, editor: EditorOutcome)
    ensures SingleLineEdit(opts, editor) <==>
              opts.edit && editor.Edited? && SplitOnce(editor.text, '\n').None?
  {
    opts.edit && editor.Edited? && '\n' !in editor.text
  }

  /** Add's title and content: split from the editor text at its first line break when editing
      (both empty when there is no line break), taken from the options otherwise. */
  function AddParams(opts: AddOpts, editor: EditorOutcome): (r: AddResolution)
    ensures r.Reject? <==>
              (opts.edit && editor.EditorFailed?) || (!opts.edit && (opts.title.None? || opts.content.None?))
    ensures r.Reject? ==> r.error == (if opts.edit then FailedToAddNote else InvalidParameters(MissingParametersMessage))
    ensures SingleLineEdit(opts, editor) ==> r == Send("", "")
  {
    if !opts.edit then
      if opts.title.Some? && opts.content.Some? then Send(opts.title.value, opts.content.value)
      else Reject(InvalidParameters(MissingParametersMessage))
    else
      match editor
      case EditorFailed => Reject(FailedToAddNote)
      case Edited(text) =>
        match SplitOnce(text, '\n')
        case Some((title, content)) => Send(title, content)
        case None => Send("", "")
  }

  /** The Add branch of `run` up to the call: the mutable `title_out` and `content_out` start as
      empty strings and are overwritten by the editor split or by the options. */
  method ResolveAdd(opts: AddOpts, editor: EditorOutcome) returns (res: AddResolution, printed: seq<string>)
    ensures res == AddParams(opts, editor)
    ensures printed == if SingleLineEdit(opts, editor) then [SingleLineNotice] else []
  {
    var titleOut: Option<string> := Some("");
    var contentOut: Option<string> := Some("");
    printed := [];
    if opts.edit {
      if editor.EditorFailed? {
        return Reject(FailedToAddNote), [];
      }
      var split := SplitOnce(editor.text, '\n');
      if split.Some? {
        titleOut := Some(split.value.0);
        contentOut := Some(split.value.1);
      } else {
        printed := printed + [SingleLineNotice];
      }
    } else {
      titleOut := opts.title;
      contentOut := opts.content;
    }
    if titleOut.Some? && contentOut.Some? {
      res := Send(titleOut.value, contentOut.value);
    } else {
      res := Reject(InvalidParameters(MissingParametersMessage));
    }
  }

  /** Edit text with a line break: the title is the text before the first one (so has none),
      the content everything after it, and together they rebuild the text. */
  lemma EditSplitsAtFirstLineBreak(opts: AddOpts, text: string)
    requires opts.edit && '\n' in text
    ensures AddParams(opts, Edited(text)).Send?
    ensures '\n' !in AddParams(opts, Edited(text)).title
    ensures AddParams(opts, Edited(text)).title + "\n" + AddParams(opts, Edited(text)).content == text
  {
  }

  /** Conversely, any split at a line break whose left part has none is the one Add uses. */
  lemma {:induction false} EditSplitIsUnique(opts: AddOpts, title: string, content: string)
    requires opts.edit && '\n' !in title
    ensures AddParams(opts, Edited(title + "\n" + content)) == Send(title, content)
  {
    SplitOnceIsFirst(title + "\n" + content, '\n', title, content);
  }

  /** Edit text without a line break is not rejected: a notice is printed and an Add with empty
      title and content goes ahead. */
  lemma SingleLineEditSendsEmpty(opts: AddOpts, text: string)
    requires opts.edit && '\n' !in text
    ensures AddParams(opts, Edited(text)) == Send("", "")
    ensures SingleLineEdit(opts, Edited(text))
  {
  }

  /** In edit mode the title and content options are ignored and InvalidParameters never arises;
      the only local error is the editor failure. */
  lemma EditModeErrors(opts: AddOpts, editor: EditorOutcome)
    requires opts.edit
    ensures AddParams(opts, editor).Reject? <==> editor.EditorFailed?
    ensures AddParams(opts, editor).Reject? ==> AddParams(opts, editor).error == FailedToAddNote
    ensures AddParams(opts, editor) == AddParams(AddOpts(None, None, true), editor)
  {
  }

  /** Without `--edit`: InvalidParameters exactly when the title or the content option is absent;
      present values, empty strings included, are sent unchanged, and the editor plays no part. */
  lemma FlagModeParams(opts: AddOpts, editor: EditorOutcome)
    requires !opts.edit
    ensures AddParams(opts, editor).Reject? <==> opts.title.None? || opts.content.None?
    ensures AddParams(opts, editor).Reject? ==>
              AddParams(opts, editor).error == InvalidParameters("Title and Content cannot be empty")
    ensures AddParams(opts, editor).Send? ==>
              AddParams(opts, editor) == Send(opts.title.value, opts.content.value)
    ensures AddParams(opts, editor) == AddParams(opts, EditorFailed)
  {
  }

  // ---------------------------------------------------------------------------
  // Add and Rm: reply handling

  /** The reply handling `handle_add` and `handle_rm` share: a note acknowledges with exit code
      0 and one line naming its id, no note gives exit code 1 silently, a transport error gives `failure`. */
  function Acknowledge(request: Request, reply: Reply<Option<Note>>, acknowledgement: string, failure: BppCliError): (o: Outcome)
    ensures o.sent == Some(request)
    ensures o.result == (match reply
                         case TransportFailed => Err(failure)
                         case Answered(None) => Ok(1)
                         case Answered(Some(_)) => Ok(0))
    ensures |o.printed| == (if reply.Answered? && reply.body.Some? then 1 else 0)
    ensures reply.Answered? && reply.body.Some? ==>
              |o.printed[0]| == |acknowledgement| + |reply.body.value.id|
              && o.printed[0][..|acknowledgement|] == acknowledgement
              && o.printed[0][|acknowledgement|..] == reply.body.value.id
  {
    match reply
    case TransportFailed => Outcome(Some(request), Err(failure), [])
    case Answered(None) => Outcome(Some(request), Ok(1), [])
    case Answered(Some(note)) => Outcome(Some(request), Ok(0), [acknowledgement + note.id])
  }

  /** `handle_add`: sends the title and content as given and maps the reply. */
  function HandleAdd(title: string, content: string, reply: Reply<Option<Note>>): (o: Outcome)
    ensures o.sent == Some(AddRequest(title, content))
    ensures o.result == Ok(0) <==> reply.Answered? && reply.body.Some?
    ensures o.result == Ok(1) <==> reply == Answered(None)
    ensures o.result.Err? <==> reply.TransportFailed?
    ensures o.result.Err? ==> o.result.error == FailedToAddNote
    ensures reply.Answered? && reply.body.Some? ==> o.printed == ["Note added! #" + reply.body.value.id]
    ensures !(reply.Answered? && reply.body.Some?) ==> o.printed == []
  {
    Acknowledge(AddRequest(title, content), reply, "Note added! #", FailedToAddNote)
  }

  /** `handle_rm`: sends the id as given and maps the reply. */
  function HandleRm(id: string, reply: Reply<Option<Note>>): (o: Outcome)
    ensures o.sent == Some(RmRequest(id))
    ensures o.result == Ok(0) <==> reply.Answered? && reply.body.Some?
    ensures o.result == Ok(1) <==> reply == Answered(None)
    ensures o.result.Err? <==> reply.TransportFailed?
    ensures o.result.Err? ==> o.result.error == FailedToRmNote
    ensures reply.Answered? && reply.body.Some? ==> o.printed == ["Note removed! #" + reply.body.value.id]
    ensures !(reply.Answered? && reply.body.Some?) ==> o.printed == []
  {
    Acknowledge(RmRequest(id), reply, "Note removed! #", FailedToRmNote)
  }

  /** Add and Rm give the same exit code for the same reply; they differ only in the error
      variant on a transport failure and in the wording of the acknowledgement. */
  lemma AddAndRmAgree(title: string, content: string, id: string, reply: Reply<Option<Note>>)
    ensures HandleAdd(title, content, reply).result.Ok? <==> HandleRm(id, reply).result.Ok?
    ensures HandleAdd(title, content, reply).result.Ok? ==>
              HandleAdd(title, content, reply).result == HandleRm(id, reply).result
    ensures |HandleAdd(title, content, reply).printed| == |HandleRm(id, reply).printed|
  {
  }

  /** The whole Add subcommand once connected: local resolution, then (unless rejected) the call.
      The single-line notice, when printed, comes before the call's own output. */
  function AddOutcome(opts: AddOpts, editor: EditorOutcome, reply: Reply<Option<Note>>): (o: Outcome)
    ensures o.sent.None? <==> AddParams(opts, editor).Reject?
    ensures o.sent.None? ==> o.result.Err?
    ensures SingleLineEdit(opts, editor) ==> |o.printed| >= 1 && o.printed[0] == SingleLineNotice
    ensures !SingleLineEdit(opts, editor) && AddParams(opts, editor).Reject? ==> o.printed == []
  {
    var notice := if SingleLineEdit(opts, editor) then [SingleLineNotice] else [];
    match AddParams(opts, editor)
    case Reject(e) => Outcome(None, Err(e), notice)
    case Send(title, content) =>
      var h := HandleAdd(title, content, reply);
      Outcome(h.sent, h.result, notice + h.printed)
  }

  /** A locally rejected Add sends nothing; otherwise exactly the resolved Add request is sent. */
  lemma AddSendsOnlyWhenResolved(opts: AddOpts, editor: EditorOutcome, reply: Reply<Option<Note>>)
    ensures AddOutcome(opts, editor, reply).sent.None? <==> AddParams(opts, editor).Reject?
    ensures AddParams(opts, editor).Reject? ==>
              AddOutcome(opts, editor, reply).result == Err(AddParams(opts, editor).error)
    ensures AddParams(opts, editor).Send? ==>
              AddOutcome(opts, editor, reply).sent
              == Some(AddRequest(AddParams(opts, editor).title, AddParams(opts, editor).content))
  {
  }

  // ---------------------------------------------------------------------------
  // Search

  /** What is printed for a non-empty result: each note's rendering, then a separator,
      two printed elements per note. */
  function Listing(notes: seq<Note>): (lines: seq<string>)
    ensures |lines| == 2 * |notes|
  {
    if notes == [] then [] else [Render(notes[0]), SearchSeparator] + Listing(notes[1..])
  }

  lemma {:induction false} ListingAppend(notes: seq<Note>, n: Note)
    ensures Listing(notes + [n]) == Listing(notes) + [Render(n), SearchSeparator]
    decreases |notes|
  {
    if notes == [] {
      assert notes + [n] == [n];
    } else {
      assert (notes + [n])[1..] == notes[1..] + [n];
      ListingAppend(notes[1..], n);
    }
  }

  /** Element 2i of the listing renders the i-th note and element 2i+1 is the separator, in reply order. */
  lemma {:induction false} ListingAt(notes: seq<Note>, i: nat)
    requires i < |notes|
    ensures |Listing(notes)| == 2 * |notes|
    ensures Listing(notes)[2 * i] == Render(notes[i])
    ensures Listing(notes)[2 * i + 1] == SearchSeparator
    decreases |notes|
  {
    if i == 0 {
      if |notes| > 1 {
        ListingAt(notes[1..], 0);
      }
    } else {
      ListingAt(notes[1..], i - 1);
    }
  }

  /** `handle_search` once the reply is in. */
  function SearchOutcome(query: string, all: bool, reply: Reply<seq<Note>>): (o: Outcome)
    ensures o.sent == Some(SearchRequest(query, all))
    ensures o.result.Ok? <==> reply.Answered?
    ensures o.result.Ok? ==> o.result.value == 0
    ensures reply.Answered? && reply.body == [] ==> o.printed == [NoNotesMessage]
    ensures reply.Answered? ==> |o.printed| == if reply.body == [] then 1 else 2 * |reply.body|
  {
    match reply
    case TransportFailed => Outcome(Some(SearchRequest(query, all)), Err(FailedToRmNote), [])
    case Answered(notes) =>
      Outcome(Some(SearchRequest(query, all)), Ok(0), if |notes| > 0 then Listing(notes) else [NoNotesMessage])
  }

  /** `handle_search`: sends the query and flag as given and prints the notes returned, in order. */
  method HandleSearch(query: string, all: bool, reply: Reply<seq<Note>>) returns (o: Outcome)
    ensures o == SearchOutcome(query, all, reply)
  {
    var request := SearchRequest(query, all);
    if reply.TransportFailed? {
      return Outcome(Some(request), Err(FailedToRmNote), []);
    }
    var notes := reply.body;
    var printed: seq<string> := [];
    if |notes| > 0 {
      var i := 0;
      while i < |notes|
        invariant 0 <= i <= |notes|
        invariant printed == Listing(notes[..i])
      {
        ListingAppend(notes[..i], notes[i]);
        assert notes[..i + 1] == notes[..i] + [notes[i]];
        printed := printed + [Render(notes[i]), SearchSeparator];
        i := i + 1;
      }
      assert notes[..i] == notes;
    } else {
      printed := printed + [NoNotesMessage];
    }
    o := Outcome(Some(request), Ok(0), printed);
  }

  /** A search that gets an answer always exits with 0, whatever it found; with no notes it
      prints the one fixed message, otherwise two printed elements per note. */
  lemma SearchAnswered(query: string, all: bool, notes: seq<Note>)
    ensures SearchOutcome(query, all, Answered(notes)).sent == Some(SearchRequest(query, all))
    ensures SearchOutcome(query, all, Answered(notes)).result == Ok(0)
    ensures notes == [] ==> SearchOutcome(query, all, Answered(notes)).printed == ["Found not notes!"]
    ensures notes != [] ==> |SearchOutcome(query, all, Answered(notes)).printed| == 2 * |notes|
  {
    if notes != [] {
      ListingAt(notes, 0);
    }
  }

  /** A search transport error is reported with the Remove error, not a search-specific one. */
  lemma SearchFailureIsRmError(query: string, all: bool)
    ensures SearchOutcome(query, all, TransportFailed).sent == Some(SearchRequest(query, all))
    ensures SearchOutcome(query, all, TransportFailed).result == Err(FailedToRmNote)
    ensures Display(SearchOutcome(query, all, TransportFailed).result.error) == "Failed to Remove Note"
  {
  }

  // ---------------------------------------------------------------------------
  // The whole invocation

  /** `BppCli::run`: connect first (failing with FailedToConnect before looking at the
      subcommand), then dispatch. */
  method Run(cmd: SubCommand, conn: Connection, editor: EditorOutcome) returns (o: Outcome)
    ensures conn.Refused? ==> o == Outcome(None, Err(FailedToConnect("Failed to connect to port 8085")), [])
    ensures conn.Open? && cmd.Add? ==> o == AddOutcome(cmd.add, editor, conn.addReply)
    ensures conn.Open? && cmd.Rm? ==> o == HandleRm(cmd.rm.id, conn.rmReply)
    ensures conn.Open? && cmd.Search? ==> o == SearchOutcome(cmd.search.query, cmd.search.all, conn.searchReply)
    ensures o.sent.None? ==> o.result.Err?
  {
    if conn.Refused? {
      return Outcome(None, Err(FailedToConnect(ConnectFailureMessage)), []);
    }
    match cmd
    case Add(opts) =>
      var resolution, notice := ResolveAdd(opts, editor);
      match resolution {
        case Reject(e) =>
          o := Outcome(None, Err(e), notice);
        case Send(title, content) =>
          var h := HandleAdd(title, content, conn.addReply);
          o := Outcome(h.sent, h.result, notice + h.printed);
      }
    case Rm(opts) =>
      o := HandleRm(opts.id, conn.rmReply);
    case Search(opts) =>
      o := HandleSearch(opts.query, opts.all, conn.searchReply);
  }
}
