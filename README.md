# tiny-health-checker, modelled in Dafny

`thc` is a one-shot HTTP health probe for containers. It first builds an HTTP
client whose connect and request timeouts come from `CONN_TIMEOUT` and `REQ_TIMEOUT`.
It then reads `thc [port] [path]` from its argument vector and builds a URL on
`localhost`. It issues a single GET and tests the response status.

This project models that pipeline as pure functions over injected inputs:

- `wrappers.dfy` (`Wrappers`): `Option` and `Result`. `:-` on a `Result` stands for Rust's `?`.
- `int_parse.dfy` (`IntParse`): Rust's decimal `u64` parsing, used on the timeout
  values, and the `{}` formatting of integers. The parser is proved against a
  reference definition of the text it accepts, of that text's value and of which
  error kind each rejected text gets. Parsing is proved to undo formatting.
- `errors.dfy` (`Errors`): the `anyhow::Error` values the program can produce.
  These are a `bail!` message, a `ParseIntError` kind, or the HTTP call's error.
- `args.dfy` (`Args`): `Parser`, `validate`, `parse` and path normalisation.
  `Parse` is checked against `TargetOf`, a separate reference reading of the
  arguments (port and path with their defaults). A splitter is proved to read the
  port and path back out of the URL whenever the port text has no `/`.
- `commands.dfy` (`Commands`): timeout resolution (`configure_agent`), `THC::new` and
  `THC::exec`. The environment is a map and the HTTP call is a function from the
  request to `Response(status) | Failure(cause)`. `Exec` returns the requests it made
  along with its result. This lets the model state that no request is made when the
  arguments are rejected, and that exactly one is made otherwise. `Run` is `main`'s
  `THC::new()?.exec()`.

Behaviour of the code worth knowing:

- **Status test.** The status test `status >= 200 || status < 300`
  (src/commands.rs:22) is true for every status, and the model keeps it as written.
  `StatusAccepted` and `BadStatusUnreachable` prove that the "invalid response code"
  error can never be returned. `StatusTestIgnoresRange` shows statuses 199, 404 and
  500 passing the test.
- **Configuration.** There is no scheme setting, no loopback-address flag and no
  port or path environment variable. The host is always `localhost`, the scheme is
  always `http`, and the port and path come only from the arguments.
- **Readable values only.** An environment value that is present but not valid
  Unicode makes `std::env::var` fail. `unwrap_or_else` then substitutes the default,
  so that malformed value is replaced silently (`UnreadableMeansDefault`). Only a
  readable value that does not parse is an error.
- **Timeouts before arguments.** The client is configured before the arguments are
  read, so a malformed timeout is reported even when the arguments contain `-h` or
  are too many (`Run`, `TimeoutErrorBeforeHelp`).
- **Empty argument vector.** An empty vector passes `validate` and `parse` then
  fails with "too many arguments".

## Model

| member | source | states |
|---|---|---|
| `Args.Validate` | src/args.rs:12-25 | fails iff the vector contains `-h` or has more than 3 elements; with `-h` anywhere (even element 0, even with more than 3 elements) the error text is `""`, otherwise "too many arguments"; on success the parser comes back unchanged |
| `Args.NormalizePath` | src/args.rs:36-40 | the result starts with `/`, equals the input when the input already starts with `/`, and is the input with at most one character in front of it |
| `Args.NormalizePathIdempotent` | src/args.rs:36-40 | normalising twice is the same as normalising once |
| `Args.Parse` | src/args.rs:27-45 | succeeds iff the vector has 1, 2 or 3 elements, else fails with "too many arguments" (also for length 0); every URL starts with `http://localhost:` and is exactly the rendering of the reference target: port = element 1 verbatim or 8080, path = normalised element 2 or `/` |
| `Args.SplitRender` | src/args.rs:29-42 | a URL built from a port without `/` and a path starting with `/` splits back into exactly that port and path |
| `Args.ParseRoundTrip` | src/args.rs:27-44 | for 1 to 3 arguments whose port has no `/`, the parsed URL splits back into exactly the port and path the arguments name |
| `Args.ValidateThenParse` | src/commands.rs:18-19 | the chain succeeds iff there is no `-h` and 1 to 3 elements; `-h` yields `""` before any length check; 0 or more than 3 elements yield "too many arguments"; on success the URL is `Parse`'s |
| `Args.TestVectors` | src/args.rs:71-172 | the exact outputs the module's tests expect: `http://localhost:8080/`, `http://localhost:8081/`, `http://localhost:8081/foo` for both `/foo` and `foo`, `""` for `-h` in position 1 or 2, "too many arguments" for four elements |
| `IntParse.ParseU64` | src/commands.rs:30-36 | `parse::<u64>()` succeeds iff the text, after one optional `+`, is a non-empty digit string whose value is at most `u64::MAX`, and then returns that value; `Empty` exactly for the empty text; `InvalidDigit` for a lone `+`; otherwise the digits before the first non-digit decide: `PosOverflow` when they exceed `u64::MAX`, `InvalidDigit` when they fit and a non-digit follows |
| `IntParse.AccumulateValue` | src/commands.rs:32 | the left-to-right checked digit loop succeeds iff all remaining characters are digits and the whole number fits in a u64, returns that number, and reports `PosOverflow` on an all-digit overflow |
| `IntParse.AccumulateErrorKind` | src/commands.rs:32 | the digit loop's error is `PosOverflow` when the digits before the first non-digit already exceed `u64::MAX`, and `InvalidDigit` when they fit and a non-digit follows |
| `IntParse.Decimal` | src/commands.rs:26 | `{}` formatting yields a non-empty digit string whose value is the number and which starts with `0` only when it is `0` itself, so the text is fixed for every number |
| `IntParse.DecimalRoundTrip` | src/commands.rs:30-36 | parsing the formatted text of any u64 returns that number |
| `Commands.Var` | src/commands.rs:30 | `std::env::var` succeeds iff the variable is present with a Unicode value, and returns that value |
| `Commands.SettingText` | src/commands.rs:30-35 | `std::env::var` followed by `unwrap_or_else` with the default: the variable's value when it can be read, the default text whenever it cannot |
| `Commands.ResolveTimeout` | src/commands.rs:30-32 | a timeout resolves iff the setting's text (the readable value, else the default) parses as a u64, to that text's value; otherwise the error is that parse's `ParseIntError` |
| `Commands.DefaultTimeoutsParse` | src/commands.rs:30-36 | the default texts "10" and "15" parse to 10 and 15 |
| `Commands.ConfigureAgent` | src/commands.rs:29-42 | succeeds iff both setting texts parse; an unreadable `CONN_TIMEOUT` gives 10 s, an unreadable `REQ_TIMEOUT` 15 s, a readable one its parsed value; a malformed `CONN_TIMEOUT` is the error whatever `REQ_TIMEOUT` holds; when the connect timeout's text parses and the request timeout's text does not, the error is the request timeout's `ParseIntError` |
| `Commands.UnreadableMeansDefault` | src/commands.rs:30-32 | a non-Unicode value resolves exactly as if the variable were absent |
| `Commands.New` | src/commands.rs:11-15 | construction succeeds iff timeout configuration does, with that agent, and on failure returns `configure_agent`'s own error unchanged, which is always a `ParseIntError` |
| `Commands.Exec` | src/commands.rs:17-27 | at most one request; no request iff validation or parsing fails, and then that error is returned; otherwise exactly one request, with the configured agent and the parsed URL; a failed call's error is returned unchanged; any response gives `Ok` |
| `Commands.Run` | src/bin/thc.rs:4-6 | a failed timeout configuration ends the run with that error and no request, before the arguments are examined; otherwise the run is `exec` with the configured client |
| `Commands.TimeoutErrorBeforeHelp` | src/bin/thc.rs:5 | with `CONN_TIMEOUT=abc`, `thc -h` ends with the timeout's `InvalidDigit` parse error and no request, although the arguments alone would give the help error `""` |
| `Commands.StatusAccepted` | src/commands.rs:22 | the status test (at least 200, or below 300), as written, holds for every u16 status |
| `Commands.StatusTestIgnoresRange` | src/commands.rs:22 | statuses 199, 404 and 500 lie outside 200..299 yet pass the test |
| `Commands.BadStatusUnreachable` | src/commands.rs:22-26 | whenever `exec` made its request, no `bail!` error can come out of it |

## Left out

- `Parser::usage` and every `eprintln!` (src/args.rs:14, 19-20, 47-64): these only write text to standard error.
- The `ureq` client (src/commands.rs:21, 38-41): building the agent, DNS, TCP, TLS, redirects and the timeouts' effect on the network are left out. The call is an injected function from the request to `Response(status)` or `Failure(cause)`. Whether `ureq` reports 4xx/5xx statuses as errors is the client's policy and is not modelled.
- Reading the real process environment and `env::args()` (src/commands.rs:18, 30, 34): both are parameters. A non-Unicode argument, which makes `env::args()` panic, cannot be represented.
- `Duration::from_secs`: taken as the identity on seconds.
- `IntParse.ParseU64` follows the standard library's current algorithm, which reports a lone `+` or `-` as `InvalidDigit`. Behaviour of older Rust releases is not modelled.
- The process exit code: `main` (src/bin/thc.rs:4-6) returns its `Result`, and Rust turns an error into exit status 1 after printing it.
- The error messages' display text for `ParseIntError` and the call error: only their kind or cause is kept.
