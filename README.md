# breadpaper: a verified model of the note client and server scaffolding

breadpaper (`bpp`) is a small note-taking system: a command-line client sends Add, Remove
and Search calls over gRPC to a note service. The server side is scaffolding only. It loads a
configuration and builds a `NoteService` holding a name and a `NoteDao`. The `NoteDao` holds
two credential strings and has no read or write methods. So the behaviour with a definite
meaning lives in these places:

- the client's `run`: it connects, resolves Add's title and content from the `--edit` text or
  the flags, builds the requests, and maps each reply to an exit code, an error and printed lines;
- the `Display` rendering of a `Note`;
- the `Display` messages of the client's and the server's error enums;
- the server's `from_config` constructors, the configuration defaults and the config-file path.

This project models each of these in Dafny, one module per source file:

| module | file | form |
|---|---|---|
| `Proto` | `proto.dfy` | `Note` and its rendering (pure) |
| `CliErrors` | `cli_errors.dfy` | `BppCliError` and its messages (pure) |
| `ServerErrors` | `server_errors.dfy` | `BppConfigError` and its message (pure) |
| `ServerConfig` | `server_config.dfy` | config records, `Default`s, path choice (pure) |
| `Server` | `server.dfy` | `NoteService` / `NoteDao` construction (pure) |
| `Cli` | `cli.dfy` | the client; mixed (methods below) |
| `Strings`, `Wrappers` | `strings.dfy`, `wrappers.dfy` | `str::split_once`; `Option`/`Result` |

In `Cli` the network and the editor are inputs:

- A `Connection` is either `Refused` or `Open` with the reply the service gives to each call.
- A reply is `Answered(body)` or `TransportFailed`.
- An `EditorOutcome` is `Edited(text)` or `EditorFailed`. `EditorFailed` covers a failure to
  spawn the editor, to wait for it, or to read the temporary file.

Each invocation yields an `Outcome`: the request sent (if any), the value `run` returns, and what
it printed, one element per `println!` call without its newline. An element may itself contain
line breaks. Some parts of the source reassign locals or loop, and those are methods:

- `ResolveAdd` reassigns `title_out` and `content_out` step by step.
- `HandleSearch` loops over the notes.
- `Run` dispatches to both.

Each method is proved equal to a specification function (`AddParams`, `SearchOutcome`,
`AddOutcome`). The source's promises are proved as lemmas about those functions.

The model keeps these behaviours of the code as they are:

- Single-line editor text is not rejected. The client prints a notice and still sends an Add with
  empty title and content.
- The server constructors never validate anything and never fail.
- A Search transport failure is reported as `FailedToRmNote`; there is no search-specific error.
- A Search that gets an answer always returns 0, even when it finds nothing.
- `"Found not notes!"` is kept as spelled.

## Model

| member | source | states |
|---|---|---|
| `Strings.SplitOnce` | crates/bpp-cli/src/main.rs:112 | `None` exactly when the text has no line break; otherwise the parts rejoined around the break give the text, and the left part has no break |
| `Strings.SplitOnceIsFirst` | crates/bpp-cli/src/main.rs:112 | the split happens at the first break: any decomposition whose left part has no break is the result |
| `Proto.Render` | crates/bpp-proto/src/lib.rs:6-9 | the rendering has length `|title| + 2 + |content|`, starts with the title and ends with the content |
| `Proto.RenderCharacterised` | crates/bpp-proto/src/lib.rs:8 | a string is a note's rendering exactly when it is title, then `": "`, then content (both directions) |
| `Proto.RenderIgnoresId` | crates/bpp-proto/src/lib.rs:6-9 | notes differing only in id render identically |
| `Proto.RenderDeterminesParts` | crates/bpp-proto/src/lib.rs:8 | among titles of equal length, equal renderings mean equal title and content |
| `CliErrors.Display` | crates/bpp-cli/src/error_def.rs:13-24 | the two unit variants show their fixed texts, `InvalidParameters(msg)` shows "Invalid Parameters: " then `msg` (by length and both slices), `FailedToConnect(msg)` shows `msg` |
| `CliErrors.FixedMessages` | crates/bpp-cli/src/error_def.rs:16-17 | `FailedToAddNote` shows "Failed to Add Note", `FailedToRmNote` shows "Failed to Remove Note", and the two differ |
| `CliErrors.InvalidParametersShape` | crates/bpp-cli/src/error_def.rs:18-20 | `InvalidParameters(msg)` shows "Invalid Parameters: " followed by `msg` unchanged |
| `CliErrors.InvalidParametersInjective` | crates/bpp-cli/src/error_def.rs:18-20 | distinct `InvalidParameters` messages display distinctly |
| `CliErrors.FailedToConnectVerbatim` | crates/bpp-cli/src/error_def.rs:21 | `FailedToConnect(msg)` shows exactly `msg`, no prefix |
| `CliErrors.DisplayNotInjective` | crates/bpp-cli/src/error_def.rs:15-22 | every message is also some `FailedToConnect` message, e.g. `FailedToConnect("Failed to Add Note")` shows like `FailedToAddNote` |
| `ServerErrors.Display` | crates/bpp-server/src/error_def.rs:10-18 | the message is "Invalid config options: " followed by the error's text unchanged |
| `ServerErrors.DisplayInjective` | crates/bpp-server/src/error_def.rs:13-15 | distinct texts give distinct messages |
| `ServerErrors.LoadFailureMessage` | crates/bpp-server/src/config.rs:40-44 | the error `Config::load` raises reads "Invalid config options: Config could not be loaded" |
| `ServerConfig.DefaultDatabaseConfig` | crates/bpp-server/src/config.rs:55-62 | connection string `user@url.ca:8080`, password `123olivera4` |
| `ServerConfig.DefaultLoggingConfig` | crates/bpp-server/src/config.rs:70-76 | level `INFO` |
| `ServerConfig.DefaultServiceConfig` | crates/bpp-server/src/config.rs:84-90 | name `NoteService` |
| `ServerConfig.DefaultConfig` | crates/bpp-server/src/config.rs:12-18 | each section is that section's default |
| `ServerConfig.DefaultSectionValues` | crates/bpp-server/src/config.rs:55-89 | default database `user@url.ca:8080` / `123olivera4`, logging level `INFO`, service name `NoteService` |
| `ServerConfig.DefaultConfigComposed` | crates/bpp-server/src/config.rs:12-18 | the default `Config` is the three section defaults |
| `ServerConfig.ConfigFilePath` | crates/bpp-server/src/config.rs:20-31 | the path is the value of `BPP_SERVER_CONFIG` when set (even if empty), else `~/bpp_server.config` |
| `ServerConfig.ConfigFilePathReadsOneVariable` | crates/bpp-server/src/config.rs:31 | environments agreeing on `BPP_SERVER_CONFIG` give the same path |
| `Server.NoteDaoFromConfig` | crates/bpp-server/src/main.rs:28-35 | always `Ok`, copying `connection_str` and `password_str` into `connection_str` and `password` |
| `Server.NoteServiceFromConfig` | crates/bpp-server/src/main.rs:14-21 | `Ok` exactly when building the `NoteDao` succeeds; the name is `config.service.name` and `node` is the `NoteDao` built from the same config |
| `Server.ConstructionNeverFails` | crates/bpp-server/src/main.rs:14-35 | no configuration makes construction fail; the result is given field by field |
| `Server.ConstructionIgnoresLogging` | crates/bpp-server/src/main.rs:14-35 | configs differing only in the logging section build the same service |
| `Server.DefaultService` | crates/bpp-server/src/main.rs:14-35 | the default config builds `NoteService("NoteService", NoteDao("user@url.ca:8080", "123olivera4"))` |
| `Cli.SingleLineEdit` | crates/bpp-cli/src/main.rs:112-119 | the notice case: editing, and `split_once('\n')` finds no break |
| `Cli.AddParams` | crates/bpp-cli/src/main.rs:94-132 | rejects exactly on an editor failure (edit mode, `FailedToAddNote`) or an absent option (flag mode, `InvalidParameters("Title and Content cannot be empty")`); single-line editor text resolves to empty title and content |
| `Cli.ResolveAdd` | crates/bpp-cli/src/main.rs:94-132 | the imperative Add branch computes `AddParams` and prints the single-line notice exactly for editor text with no line break |
| `Cli.EditSplitsAtFirstLineBreak` | crates/bpp-cli/src/main.rs:112-114 | with a line break, the title has none and title + "\n" + content rebuilds the edited text |
| `Cli.EditSplitIsUnique` | crates/bpp-cli/src/main.rs:112-114 | editing `title + "\n" + content` with a break-free title yields exactly that title and content |
| `Cli.SingleLineEditSendsEmpty` | crates/bpp-cli/src/main.rs:95-127 | editor text with no line break is not rejected; an Add with empty title and content results |
| `Cli.EditModeErrors` | crates/bpp-cli/src/main.rs:98-119 | in edit mode the only local error is `FailedToAddNote` on editor failure; the flag options are ignored |
| `Cli.FlagModeParams` | crates/bpp-cli/src/main.rs:120-132 | without `--edit`, `InvalidParameters("Title and Content cannot be empty")` exactly when title or content is absent; present values (empty included) are used unchanged |
| `Cli.Acknowledge` | crates/bpp-cli/src/main.rs:153-181 | the request is sent; exit code 0 for a note, 1 for none, the given error for a transport failure; exactly one printed element, the acknowledgement followed by the note's id, when a note comes back |
| `Cli.HandleAdd` | crates/bpp-cli/src/main.rs:141-164 | sends `AddRequest(title, content)`; 0 and "Note added! #id" iff a note comes back, 1 iff none, `FailedToAddNote` iff transport error |
| `Cli.HandleRm` | crates/bpp-cli/src/main.rs:166-182 | sends `RmRequest(id)`; 0 and "Note removed! #id" iff a note comes back, 1 iff none, `FailedToRmNote` iff transport error |
| `Cli.AddAndRmAgree` | crates/bpp-cli/src/main.rs:153-181 | for the same reply Add and Rm give the same exit code and the same number of lines |
| `Cli.AddSendsOnlyWhenResolved` | crates/bpp-cli/src/main.rs:126-132 | nothing is sent exactly when resolution rejects, and the rejection is the returned error; otherwise the resolved title and content are sent |
| `Cli.AddOutcome` | crates/bpp-cli/src/main.rs:94-133 | nothing is sent exactly when resolution rejects, and then the result is an error; the single-line notice is printed first when it applies; a rejection prints nothing else |
| `Cli.Listing` | crates/bpp-cli/src/main.rs:200-203 | two printed elements per note |
| `Cli.ListingAt` | crates/bpp-cli/src/main.rs:200-203 | two printed elements per note: element 2i renders note i, element 2i+1 is "--------" |
| `Cli.SearchOutcome` | crates/bpp-cli/src/main.rs:189-210 | sends `SearchRequest(query, all)` unchanged; `Ok(0)` exactly when answered; an empty answer prints only "Found not notes!", otherwise two elements per note |
| `Cli.HandleSearch` | crates/bpp-cli/src/main.rs:184-211 | the loop prints exactly `SearchOutcome`: the listing of the notes in reply order, or the no-notes line |
| `Cli.SearchAnswered` | crates/bpp-cli/src/main.rs:196-207 | an answered search sends the query and flag unchanged and returns 0 always; no notes prints exactly "Found not notes!", otherwise two printed elements per note |
| `Cli.SearchFailureIsRmError` | crates/bpp-cli/src/main.rs:209 | the request is still the query and flag unchanged; a search transport error is `FailedToRmNote`, displayed "Failed to Remove Note" |
| `Cli.Run` | crates/bpp-cli/src/main.rs:83-139 | a refused connection gives `FailedToConnect("Failed to connect to port 8085")` with nothing sent or printed; otherwise each subcommand's outcome; nothing sent implies an error |

## Left out

- The gRPC transport (`ApiClient::connect`, `client.add`/`rm`/`search`, tokio/tonic): replaced by the `Connection` input. Only the port 8085 appears, in the failure message.
- The editor session (`/bin/sh -c vim`, the `Uuid::new_v4` temporary file name, `fs::read_to_string`): replaced by the `EditorOutcome` input.
- The `"Add with opts {:?}"` line printed in flag mode: it is Rust `Debug` formatting of the options. `Outcome.printed` omits it.
- The line structure of standard output: each printed element is one `println!` argument, and line breaks inside it (a note's content from the editor may hold several, or end with one) are not analysed.
- The error-stack reports: only the context variant each failure is tagged with is modelled, not the chained underlying error.
- The client's `main`: it prints the `Debug` form of any error and discards `run`'s exit code. So the exit codes modelled here are `run`'s return values, not the process status.
- structopt parsing and its `required_unless_one` / `conflicts_with_all` rules: parsed options are taken as given, so `AddOpts` may hold combinations the parser would refuse.
- `Config::load`: file and environment merging through the `config` crate, serde deserialisation and its `unwrap`. Only the path choice is modelled. A non-Unicode value of `BPP_SERVER_CONFIG` is not modelled; `env::var` treats it as unset.
- The server's `main`: it only prints or panics.
- Server-side Add, Remove and Search: the source has no store, no id assignment and no matching, so none is modelled.
- Protobuf code generation (`crates/bpp-proto/build.rs`): `Note` is modelled as a datatype `{id, title, content}`. The generated module is not part of this model.
