/** One metadata fetch through the external `yt-dlp` tool: the command line the
    collector builds, and how it turns what the process did into the triple
    `(info, err, rc)` the batch loop consumes. The process itself is not
    modelled: its outcome is an input. */
module Fetch {
  import opened Python

  /** The knobs the batch loop passes for every fetch. */
  datatype FetchOptions = FetchOptions(
    timeoutSec: int,
    userAgent: Option<string>,
    proxy: Option<string>,
    attemptComments: bool)

  /** The program name and the four fixed flags every command starts with. */
  const BaseCommand: seq<string> := ["yt-dlp", "--no-download", "-J", "--skip-download", "--dump-single-json"]

  const MaxErrorChars: nat := 2000

  function Count(b: bool, n: nat): nat {
    if b then n else 0
  }

  /** The argument vector for fetching `url`. */
  function Command(url: string, opts: FetchOptions): (cmd: seq<string>)
    ensures var c := Count(opts.attemptComments, 1);
            var u := Count(SomeText(opts.userAgent), 2);
            && |cmd| == |BaseCommand| + c + u + Count(SomeText(opts.proxy), 2) + 1
            && cmd[..|BaseCommand|] == BaseCommand
            && cmd[|cmd| - 1] == url
            && (opts.attemptComments ==> cmd[5] == "--write-comments")
            && (SomeText(opts.userAgent) ==> cmd[5 + c] == "--user-agent" && cmd[6 + c] == opts.userAgent.value)
            && (SomeText(opts.proxy) ==> cmd[5 + c + u] == "--proxy" && cmd[6 + c + u] == opts.proxy.value)
  {
    var comments := if opts.attemptComments then ["--write-comments"] else [];
    var agent := if SomeText(opts.userAgent) then ["--user-agent", opts.userAgent.value] else [];
    var proxy := if SomeText(opts.proxy) then ["--proxy", opts.proxy.value] else [];
    BaseCommand + comments + agent + proxy + [url]
  }

  /** What a command line asks for, read back from the argument vector. */
  datatype CommandView = CommandView(attemptComments: bool, userAgent: Option<string>, proxy: Option<string>, url: string)

  /** Reads an optional `flag value` pair at the head of `args`. */
  function ReadPair(flag: string, args: seq<string>): (Option<string>, seq<string>) {
    if |args| >= 2 && args[0] == flag then (Some(args[1]), args[2..]) else (None, args)
  }

  /** Parses an argument vector laid out as `Command` lays it out. */
  function ReadCommand(cmd: seq<string>): Option<CommandView> {
    if |cmd| < |BaseCommand| + 1 || cmd[..|BaseCommand|] != BaseCommand then None
    else
      var url := cmd[|cmd| - 1];
      var middle := cmd[|BaseCommand|..|cmd| - 1];
      var comments := |middle| > 0 && middle[0] == "--write-comments";
      var rest := if comments then middle[1..] else middle;
      var (agent, rest') := ReadPair("--user-agent", rest);
      var (proxy, rest'') := ReadPair("--proxy", rest');
      if rest'' == [] then Some(CommandView(comments, agent, proxy, url)) else None
  }

  /** An option contributes to the command only when it is a non-empty string. */
  function Effective(s: Option<string>): Option<string> {
    if SomeText(s) then s else None
  }

  /** The command line carries exactly the url and the options that are set:
      `--write-comments` iff comments are attempted, a `--user-agent` and a
      `--proxy` pair iff those values are non-empty. */
  lemma CommandRoundTrip(url: string, opts: FetchOptions)
    ensures ReadCommand(Command(url, opts))
         == Some(CommandView(opts.attemptComments, Effective(opts.userAgent), Effective(opts.proxy), url))
  {
    var cmd := Command(url, opts);
    var comments := if opts.attemptComments then ["--write-comments"] else [];
    var agent := if SomeText(opts.userAgent) then ["--user-agent", opts.userAgent.value] else [];
    var proxy := if SomeText(opts.proxy) then ["--proxy", opts.proxy.value] else [];
    assert cmd == BaseCommand + (comments + agent + proxy) + [url];
    var middle := cmd[|BaseCommand|..|cmd| - 1];
    assert middle == comments + agent + proxy;
    var rest := if opts.attemptComments then middle[1..] else middle;
    assert rest == agent + proxy;
    if SomeText(opts.userAgent) {
      assert ReadPair("--user-agent", rest) == (opts.userAgent, proxy);
    } else {
      assert ReadPair("--user-agent", rest) == (None, proxy);
    }
    assert ReadPair("--proxy", proxy).1 == [];
  }

  /** What the operating system reports for one run of the tool. */
  datatype ProcessOutcome =
    | TimedOut                       // the wall-clock timeout expired
    | ToolMissing                    // the `yt-dlp` executable was not found
    | Crashed(message: string)       // any other exception; `message` is its text
    | Exited(returnCode: int,
             stderr: Option<string>,
             parsed: Option<Json>)   // stdout through `json.loads`; None when it is not JSON

  /** `(info, err, rc)`: the parsed document or None, the error text or None,
      and the return code. */
  datatype FetchResult = FetchResult(info: Json, err: Option<string>, rc: int)

  /** The batch loop's test `err or not info`. */
  predicate IsError(r: FetchResult) {
    SomeText(r.err) || !Truthy(r.info)
  }

  /** The diagnostic kept for a non-zero exit: stderr stripped, cut to its last
      2000 characters, or a fixed text when nothing is left. */
  function ExitError(stderr: Option<string>): (e: string)
    ensures e != "" && |e| <= MaxErrorChars
    ensures var t := Strip(if stderr.Some? then stderr.value else "");
            && (t == "" ==> e == "yt-dlp failed")
            && (t != "" ==> |e| == (if |t| > MaxErrorChars then MaxErrorChars else |t|) && e == t[|t| - |e|..])
  {
    var t := Strip(if stderr.Some? then stderr.value else "");
    var kept := if |t| > MaxErrorChars then t[|t| - MaxErrorChars..] else t;
    if kept == "" then "yt-dlp failed" else kept
  }

  /** One fetch: the argument vector and the timeout handed to the process. */
  datatype Invocation = Invocation(argv: seq<string>, timeoutSec: int)

  function Invoke(url: string, opts: FetchOptions): Invocation {
    Invocation(Command(url, opts), opts.timeoutSec)
  }

  /** Maps what the process did to `(info, err, rc)`. */
  function Classify(p: ProcessOutcome): (r: FetchResult)
    ensures p.TimedOut? ==> r == FetchResult(JNull, Some("timeout"), 124)
    ensures p.ToolMissing? ==> r == FetchResult(JNull, Some("yt-dlp not found (is your venv active?)"), 127)
    ensures p.Crashed? ==> r == FetchResult(JNull, Some("exception: " + p.message), 1)
    ensures p.Exited? && p.returnCode != 0 ==> r == FetchResult(JNull, Some(ExitError(p.stderr)), p.returnCode)
    ensures p.Exited? && p.returnCode == 0 && p.parsed.None?
            ==> r == FetchResult(JNull, Some("failed to parse yt-dlp JSON output"), 2)
    ensures p.Exited? && p.returnCode == 0 && p.parsed.Some? ==> r == FetchResult(p.parsed.value, None, 0)
  {
    match p
    case TimedOut => FetchResult(JNull, Some("timeout"), 124)
    case ToolMissing => FetchResult(JNull, Some("yt-dlp not found (is your venv active?)"), 127)
    case Crashed(msg) => FetchResult(JNull, Some("exception: " + msg), 1)
    case Exited(code, stderr, parsed) =>
      if code != 0 then FetchResult(JNull, Some(ExitError(stderr)), code)
      else
        match parsed
        case None => FetchResult(JNull, Some("failed to parse yt-dlp JSON output"), 2)
        case Some(doc) => FetchResult(doc, None, 0)
  }

  /** A fetch counts as a success for the batch loop exactly when the tool
      exited 0 and printed a JSON document that is truthy; an error message,
      when present, is never empty and comes with no document. */
  lemma ClassifyIsError(p: ProcessOutcome)
    ensures IsError(Classify(p)) <==> !(p.Exited? && p.returnCode == 0 && p.parsed.Some? && Truthy(p.parsed.value))
    ensures Classify(p).err.Some? ==> Classify(p).err.value != "" && Classify(p).info == JNull
    ensures !IsError(Classify(p)) ==> Classify(p).rc == 0
  {
  }
}
