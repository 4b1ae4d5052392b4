/**
 * Command-line handling of the health checker: `thc [port] [path]`.
 *
 * The argument vector includes the program name as element 0. Validation
 * rejects a help flag anywhere and more than three elements; parsing turns one,
 * two or three elements into a URL on localhost. The usage text that both
 * rejections write to standard error is not modelled.
 */
module Args {
  import opened Wrappers
  import opened Errors

  /** `Parser { args }`: never changed after construction. */
  datatype Parser = Parser(args: seq<string>)

  const HELP_FLAG := "-h"
  const TOO_MANY := "too many arguments"
  const URL_PREFIX := "http://localhost:"
  const DEFAULT_PORT := "8080"
  const ROOT_PATH := "/"

  predicate StartsWith(s: string, prefix: string) {
    |prefix| <= |s| && s[..|prefix|] == prefix
  }

  /** `Parser::validate`: the help flag takes precedence over the length check. */
  function Validate(p: Parser): (r: Result<Parser, Error>)
    ensures r.Ok? <==> HELP_FLAG !in p.args && |p.args| <= 3
    ensures r.Ok? ==> r.value == p
    ensures HELP_FLAG in p.args ==> r == Err(Bail(""))
    ensures HELP_FLAG !in p.args && |p.args| > 3 ==> r == Err(Bail(TOO_MANY))
  {
    if HELP_FLAG in p.args then Err(Bail(""))
    else if |p.args| > 3 then Err(Bail(TOO_MANY))
    else Ok(p)
  }

  /** Gives a path a leading `/` when it lacks one. */
  function NormalizePath(path: string): (r: string)
    ensures StartsWith(r, "/")
    ensures StartsWith(path, "/") ==> r == path
    ensures |path| <= |r| <= |path| + 1 && r[|r| - |path|..] == path
  {
    if StartsWith(path, "/") then path else "/" + path
  }

  /** The port and path a URL addresses; the host is always localhost. */
  datatype Target = Target(port: string, path: string)

  /**
   * Reference reading of the arguments, component by component: element 1 is
   * the port (default 8080), element 2 the path (default `/`, normalised); a
   * vector of any other length names no target.
   */
  function TargetOf(p: Parser): Option<Target> {
    if 1 <= |p.args| <= 3 then
      var port := if |p.args| >= 2 then p.args[1] else DEFAULT_PORT;
      var path := if |p.args| == 3 then NormalizePath(p.args[2]) else ROOT_PATH;
      Some(Target(port, path))
    else
      None
  }

  function Render(t: Target): string {
    URL_PREFIX + t.port + t.path
  }

  /** `Parser::parse`: one URL shape per argument count. */
  function Parse(p: Parser): (r: Result<string, Error>)
    ensures r.Ok? <==> 1 <= |p.args| <= 3
    ensures r.Err? ==> r.error == Bail(TOO_MANY)
    ensures r.Ok? ==> StartsWith(r.value, URL_PREFIX)
    ensures r.Ok? ==> TargetOf(p).Some? && r.value == Render(TargetOf(p).value)
  {
    if |p.args| == 1 then Ok("http://localhost:8080/")
    else if |p.args| == 2 then Ok("http://localhost:" + p.args[1] + "/")
    else if |p.args| == 3 then Ok("http://localhost:" + p.args[1] + NormalizePath(p.args[2]))
    else Err(Bail(TOO_MANY))
  }

  /** `parser.validate()?.parse()?`, the chain both the tests and the probe run. */
  function ValidateThenParse(argv: seq<string>): (r: Result<string, Error>)
    ensures r.Ok? <==> HELP_FLAG !in argv && 1 <= |argv| <= 3
    ensures HELP_FLAG in argv ==> r == Err(Bail(""))
    ensures HELP_FLAG !in argv && (|argv| == 0 || |argv| > 3) ==> r == Err(Bail(TOO_MANY))
    ensures r.Ok? ==> r == Parse(Parser(argv))
  {
    var p :- Validate(Parser(argv));
    Parse(p)
  }

  /** Index of the first `/` in `s`, or `|s|` when there is none. */
  function IndexOfSlash(s: string): (i: nat)
    ensures i <= |s|
    ensures forall j :: 0 <= j < i ==> s[j] != '/'
    ensures i < |s| ==> s[i] == '/'
    decreases |s|
  {
    if s == [] || s[0] == '/' then 0 else 1 + IndexOfSlash(s[1..])
  }

  /** Reads the port and path back out of a URL of the shape `Render` builds. */
  function SplitUrl(url: string): Option<Target> {
    if StartsWith(url, URL_PREFIX) then
      var rest := url[|URL_PREFIX|..];
      var i := IndexOfSlash(rest);
      Some(Target(rest[..i], rest[i..]))
    else
      None
  }

  lemma SplitRender(t: Target)
    requires '/' !in t.port && StartsWith(t.path, "/")
    ensures SplitUrl(Render(t)) == Some(t)
  {
    var url := Render(t);
    assert url[..|URL_PREFIX|] == URL_PREFIX;
    var rest := url[|URL_PREFIX|..];
    assert rest == t.port + t.path;
    assert rest[|t.port|] == '/';
    assert forall j :: 0 <= j < |t.port| ==> rest[j] == t.port[j];
    assert IndexOfSlash(rest) == |t.port|;
  }

  /**
   * The URL carries exactly the port and path the arguments name, as long as
   * the port text has no `/` of its own (it is inserted without any check).
   */
  lemma ParseRoundTrip(p: Parser)
    requires 1 <= |p.args| <= 3
    requires |p.args| >= 2 ==> '/' !in p.args[1]
    ensures Parse(p).Ok? && SplitUrl(Parse(p).value) == TargetOf(p)
  {
    SplitRender(TargetOf(p).value);
  }

  lemma NormalizePathIdempotent(path: string)
    ensures NormalizePath(NormalizePath(path)) == NormalizePath(path)
  {
  }

  /** The expected outputs of the module's own tests (src/args.rs, tests module). */
  lemma TestVectors()
    ensures ValidateThenParse(["thc"]) == Ok("http://localhost:8080/")
    ensures ValidateThenParse(["thc", "8081"]) == Ok("http://localhost:8081/")
    ensures ValidateThenParse(["thc", "8081", "/foo"]) == Ok("http://localhost:8081/foo")
    ensures ValidateThenParse(["thc", "8081", "foo"]) == Ok("http://localhost:8081/foo")
    ensures Validate(Parser(["thc"])).Ok?
    ensures Validate(Parser(["thc", "-h"])) == Err(Bail(""))
    ensures Validate(Parser(["thc", "4", "-h"])) == Err(Bail(""))
    ensures Validate(Parser(["thc", "foo", "bar", "baz"])) == Err(Bail(TOO_MANY))
  {
    assert URL_PREFIX + "8081" + "/" == "http://localhost:8081/";
    assert URL_PREFIX + "8081" + "/foo" == "http://localhost:8081/foo";
    // "foo" gets a `/` in front: its first character is `f`.
    assert !StartsWith("foo", "/") by { assert "foo"[..1][0] == 'f'; }
    assert NormalizePath("foo") == "/foo";
  }
}
