/**
 * The probe: `THC::new` resolves the client's two timeouts from the
 * environment, `THC::exec` validates and parses the arguments, issues one GET
 * and tests the response status.
 *
 * The environment, the argument vector and the HTTP client are injected: the
 * environment as a map, the arguments as a sequence, and the call as a function
 * from the request to its abstract result. `Exec` reports the requests it
 * issued, so that "no call" and "exactly one call" can be stated.
 */
module Commands {
  import opened Wrappers
  import opened Errors
  import opened IntParse
  import Args

  /** An environment entry as `std::env::var` sees it: text, or bytes that are not valid Unicode. */
  datatype EnvValue = Text(s: string) | NonUnicode

  type Env = map<string, EnvValue>

  datatype VarError = NotPresent | NotUnicode

  /** `std::env::var`: fails for an absent variable and for a value that is not Unicode. */
  function Var(env: Env, name: string): (r: Result<string, VarError>)
    ensures r.Ok? <==> name in env && env[name].Text?
    ensures r.Ok? ==> r.value == env[name].s
  {
    if name !in env then Err(NotPresent)
    else match env[name]
      case Text(s) => Ok(s)
      case NonUnicode => Err(NotUnicode)
  }

  const CONN_TIMEOUT := "CONN_TIMEOUT"
  const REQ_TIMEOUT := "REQ_TIMEOUT"
  const DEFAULT_CONN_TIMEOUT := "10"
  const DEFAULT_REQ_TIMEOUT := "15"

  /** `std::env::var(name).unwrap_or_else(|_| default)`: any failure to read falls back to the default text. */
  function SettingText(env: Env, name: string, default: string): (text: string)
    ensures Var(env, name).Ok? ==> text == Var(env, name).value
    ensures Var(env, name).Err? ==> text == default
  {
    match Var(env, name)
    case Ok(v) => v
    case Err(_) => default
  }

  /** One timeout in seconds: the setting's text, then `parse::<u64>()?`. */
  function ResolveTimeout(env: Env, name: string, default: string): (r: Result<U64, Error>)
    ensures r.Ok? <==> IsU64Text(SettingText(env, name, default))
    ensures r.Ok? ==> r.value == Value(Unsigned(SettingText(env, name, default)))
    ensures r.Err? ==> r == Err(ParseInt(ParseU64(SettingText(env, name, default)).error))
  {
    match ParseU64(SettingText(env, name, default))
    case Ok(n) => Ok(n)
    case Err(kind) => Err(ParseInt(kind))
  }

  /** The client `configure_agent` builds; `Duration::from_secs` keeps the seconds as they are. */
  datatype Agent = Agent(connectTimeout: U64, requestTimeout: U64)

  /** `THC::configure_agent`: the connect timeout is resolved first, then the request timeout. */
  function ConfigureAgent(env: Env): (r: Result<Agent, Error>)
    ensures r.Ok? <==> IsU64Text(SettingText(env, CONN_TIMEOUT, DEFAULT_CONN_TIMEOUT))
                       && IsU64Text(SettingText(env, REQ_TIMEOUT, DEFAULT_REQ_TIMEOUT))
    ensures r.Ok? && Var(env, CONN_TIMEOUT).Err? ==> r.value.connectTimeout == 10
    ensures r.Ok? && Var(env, REQ_TIMEOUT).Err? ==> r.value.requestTimeout == 15
    ensures r.Ok? && Var(env, CONN_TIMEOUT).Ok? ==> r.value.connectTimeout == Value(Unsigned(Var(env, CONN_TIMEOUT).value))
    ensures r.Ok? && Var(env, REQ_TIMEOUT).Ok? ==> r.value.requestTimeout == Value(Unsigned(Var(env, REQ_TIMEOUT).value))
    ensures (Var(env, CONN_TIMEOUT).Ok? && !IsU64Text(Var(env, CONN_TIMEOUT).value)) ==>
              r == Err(ParseInt(ParseU64(Var(env, CONN_TIMEOUT).value).error))
    ensures (IsU64Text(SettingText(env, CONN_TIMEOUT, DEFAULT_CONN_TIMEOUT))
             && !IsU64Text(SettingText(env, REQ_TIMEOUT, DEFAULT_REQ_TIMEOUT))) ==>
              r == Err(ParseInt(ParseU64(SettingText(env, REQ_TIMEOUT, DEFAULT_REQ_TIMEOUT)).error))
  {
    DefaultTimeoutsParse();
    var conn :- ResolveTimeout(env, CONN_TIMEOUT, DEFAULT_CONN_TIMEOUT);
    var req :- ResolveTimeout(env, REQ_TIMEOUT, DEFAULT_REQ_TIMEOUT);
    Ok(Agent(conn, req))
  }

  lemma DefaultTimeoutsParse()
    ensures ParseU64(DEFAULT_CONN_TIMEOUT) == Ok(10)
    ensures ParseU64(DEFAULT_REQ_TIMEOUT) == Ok(15)
  {
  }

  /**
   * A variable whose value is not Unicode resolves exactly as an absent one:
   * both fall back to the default. (That a readable value is never replaced by
   * the default is stated by `ResolveTimeout` and `ConfigureAgent`.)
   */
  lemma UnreadableMeansDefault(env: Env, name: string, default: string)
    requires name in env && env[name] == NonUnicode
    ensures ResolveTimeout(env, name, default) == ResolveTimeout(env - {name}, name, default)
  {
  }

  /** `THC`: the probe holds only its client, never updated. */
  datatype Thc = Thc(agent: Agent)

  /** `THC::new`: the only way construction fails is a timeout that does not parse. */
  function New(env: Env): (r: Result<Thc, Error>)
    ensures r.Ok? <==> ConfigureAgent(env).Ok?
    ensures r.Ok? ==> r.value.agent == ConfigureAgent(env).value
    ensures r.Err? ==> r.error.ParseInt?
    ensures r.Err? ==> r.error == ConfigureAgent(env).error
  {
    var agent :- ConfigureAgent(env);
    Ok(Thc(agent))
  }

  type U16 = x: int | 0 <= x <= 0xFFFF

  /** What the injected HTTP call gives back: a response with its status, or the call's error. */
  datatype CallResult = Response(status: U16) | Failure(cause: string)

  /** One GET, made by the configured client against the URL. */
  datatype Request = Request(agent: Agent, url: string)

  /** The requests a run of `exec` issued, in order, and what it returned. */
  datatype Execution = Execution(requests: seq<Request>, result: Result<(), Error>)

  /** The status test exactly as the probe writes it; it holds of every status a response can carry. */
  function StatusAccepted(status: U16): (accepted: bool)
    ensures accepted
  {
    status >= 200 || status < 300
  }

  /** `THC::exec`: validate, parse, one call, then the status test. */
  function Exec(thc: Thc, argv: seq<string>, call: Request -> CallResult): (e: Execution)
    ensures |e.requests| <= 1
    ensures e.requests == [] <==> Args.ValidateThenParse(argv).Err?
    ensures Args.ValidateThenParse(argv).Err? ==> e.result == Err(Args.ValidateThenParse(argv).error)
    ensures Args.ValidateThenParse(argv).Ok? ==> e.requests == [Request(thc.agent, Args.ValidateThenParse(argv).value)]
    ensures e.requests != [] && call(e.requests[0]).Failure? ==> e.result == Err(Call(call(e.requests[0]).cause))
    ensures e.requests != [] && call(e.requests[0]).Response? ==> e.result == Ok(())
  {
    match Args.ValidateThenParse(argv)
    case Err(err) => Execution([], Err(err))
    case Ok(url) =>
      var request := Request(thc.agent, url);
      match call(request)
      case Failure(cause) => Execution([request], Err(Call(cause)))
      case Response(status) =>
        var code: nat := status;
        if StatusAccepted(status) then Execution([request], Ok(()))
        else Execution([request], Err(Bail("invalid response code " + Decimal(code))))
  }

  /** Statuses outside the success range 200..299 pass the test too, on both sides of it. */
  lemma StatusTestIgnoresRange()
    ensures StatusAccepted(199) && !(200 <= 199 < 300)
    ensures StatusAccepted(404) && !(200 <= 404 < 300)
    ensures StatusAccepted(500) && !(200 <= 500 < 300)
  {
  }

  /** The "invalid response code" error can never come out of `exec`. */
  lemma BadStatusUnreachable(thc: Thc, argv: seq<string>, call: Request -> CallResult)
    ensures var e := Exec(thc, argv, call);
      e.result.Err? && e.result.error.Bail? ==> e.requests == []
  {
  }

  /**
   * `main`: `THC::new()?.exec()`. The client is configured before the
   * arguments are looked at, so a malformed timeout is the error even when the
   * arguments ask for help or are too many.
   */
  function Run(env: Env, argv: seq<string>, call: Request -> CallResult): (e: Execution)
    ensures ConfigureAgent(env).Err? ==> e.requests == [] && e.result == Err(ConfigureAgent(env).error)
    ensures ConfigureAgent(env).Ok? ==> e == Exec(Thc(ConfigureAgent(env).value), argv, call)
  {
    match New(env)
    case Err(err) => Execution([], Err(err))
    case Ok(thc) => Exec(thc, argv, call)
  }

  /** With `CONN_TIMEOUT=abc`, `thc -h` ends with the timeout's parse error, not the help error. */
  lemma TimeoutErrorBeforeHelp(call: Request -> CallResult)
    ensures ParseU64("abc") == Err(InvalidDigit)
    ensures Args.ValidateThenParse(["thc", "-h"]) == Err(Bail(""))
    ensures Run(map[CONN_TIMEOUT := Text("abc")], ["thc", "-h"], call) == Execution([], Err(ParseInt(InvalidDigit)))
  {
  }
}
