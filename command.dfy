/**
 * The argument list `run_ffuf` hands to the external scanner, and a reader
 * of such lists that recovers the scan request from them.
 */
module Command {
  import opened Wrappers
  import opened Decimal
  import opened Scan

  const Program: string := "ffuf"
  const OutputFormat: string := "json"

  /** The eleven arguments every invocation carries, in order. */
  function BaseCommand(url: string, wordlist: string, threads: int, outputJson: string): seq<string> {
    [Program, "-u", url, "-w", wordlist, "-t", IntToString(threads), "-o", outputJson, "-of", OutputFormat]
  }

  /** The `-H` pair, present only for a truthy header. */
  function HeaderArgs(header: Option<string>): seq<string> {
    if Given(header) then ["-H", header.value] else []
  }

  /** The complete argument list, the specification of BuildFfufCommand. */
  function FfufCommand(url: string, wordlist: string, threads: int, outputJson: string, header: Option<string>): seq<string> {
    BaseCommand(url, wordlist, threads, outputJson) + HeaderArgs(header)
  }

  /** Builds the list, then extends it with the header pair when the header is truthy. */
  method BuildFfufCommand(url: string, wordlist: string, threads: int, outputJson: string, header: Option<string>)
    returns (cmd: seq<string>)
    ensures cmd == FfufCommand(url, wordlist, threads, outputJson, header)
    ensures cmd[..11] == ["ffuf", "-u", url, "-w", wordlist, "-t", IntToString(threads), "-o", outputJson, "-of", "json"]
    ensures |cmd| == (if Given(header) then 13 else 11)
  {
    cmd := [
      Program,
      "-u", url,
      "-w", wordlist,
      "-t", IntToString(threads),
      "-o", outputJson,
      "-of", OutputFormat
    ];
    if Given(header) {
      cmd := cmd + ["-H", header.value];
    }
  }

  /**
   * The command always starts with the same eleven arguments, and ends with
   * `-H` and the header exactly when the header is truthy.
   */
  lemma FfufCommandShape(url: string, wordlist: string, threads: int, outputJson: string, header: Option<string>)
    ensures var cmd := FfufCommand(url, wordlist, threads, outputJson, header);
      && |cmd| >= 11
      && cmd[..11] == ["ffuf", "-u", url, "-w", wordlist, "-t", IntToString(threads), "-o", outputJson, "-of", "json"]
      && (|cmd| == 13 <==> Given(header))
      && (|cmd| == 11 <==> !Given(header))
      && (Given(header) ==> cmd[11..] == ["-H", header.value])
  {
  }

  /** What the scanner is asked to do, as read back from its argument list. */
  datatype Invocation = Invocation(url: string, wordlist: string, threads: int, output: string, format: string, header: Option<string>)

  /** The value after the first occurrence of `flag`, reading `args` as flag/value pairs. */
  function FlagValue(args: seq<string>, flag: string): (v: Option<string>)
    ensures v.Some? ==> |args| >= 2
    ensures |args| >= 2 && args[0] == flag ==> v == Some(args[1])
    decreases |args|
  {
    if |args| < 2 then None
    else if args[0] == flag then Some(args[1])
    else FlagValue(args[2..], flag)
  }

  /**
   * Reads an argument list back into an invocation: the program name, then
   * flag/value pairs holding the five required options and an optional `-H`.
   */
  function ParseCommand(cmd: seq<string>): Option<Invocation> {
    if |cmd| == 0 || cmd[0] != Program || |cmd| % 2 != 1 then None
    else
      var args := cmd[1..];
      match (FlagValue(args, "-u"), FlagValue(args, "-w"), FlagValue(args, "-t"), FlagValue(args, "-o"), FlagValue(args, "-of"))
      case (Some(u), Some(w), Some(t), Some(o), Some(f)) =>
        (match ParseInt(t)
         case Some(n) => Some(Invocation(u, w, n, o, f, FlagValue(args, "-H")))
         case None => None)
      case _ => None
  }

  lemma FlagValuePair(flag: string, value: string, rest: seq<string>, wanted: string)
    ensures FlagValue([flag, value] + rest, wanted) == if flag == wanted then Some(value) else FlagValue(rest, wanted)
  {
    assert ([flag, value] + rest)[2..] == rest;
  }

  /**
   * Reading the built command back recovers every part of the request: the
   * scanner sees the given target, wordlist, thread count and output path,
   * JSON output, and the header exactly when it is truthy.
   */
  lemma {:induction false} FfufCommandRoundTrip(url: string, wordlist: string, threads: int, outputJson: string, header: Option<string>)
    ensures ParseCommand(FfufCommand(url, wordlist, threads, outputJson, header))
         == Some(Invocation(url, wordlist, threads, outputJson, OutputFormat, if Given(header) then header else None))
  {
    var t := IntToString(threads);
    var h := HeaderArgs(header);
    var a4 := ["-of", OutputFormat] + h;
    var a3 := ["-o", outputJson] + a4;
    var a2 := ["-t", t] + a3;
    var a1 := ["-w", wordlist] + a2;
    var args := ["-u", url] + a1;
    assert FfufCommand(url, wordlist, threads, outputJson, header)[1..] == args;
    FlagValuePair("-u", url, a1, "-u");
    FlagValuePair("-u", url, a1, "-w");
    FlagValuePair("-u", url, a1, "-t");
    FlagValuePair("-u", url, a1, "-o");
    FlagValuePair("-u", url, a1, "-of");
    FlagValuePair("-u", url, a1, "-H");
    FlagValuePair("-w", wordlist, a2, "-w");
    FlagValuePair("-w", wordlist, a2, "-t");
    FlagValuePair("-w", wordlist, a2, "-o");
    FlagValuePair("-w", wordlist, a2, "-of");
    FlagValuePair("-w", wordlist, a2, "-H");
    FlagValuePair("-t", t, a3, "-t");
    FlagValuePair("-t", t, a3, "-o");
    FlagValuePair("-t", t, a3, "-of");
    FlagValuePair("-t", t, a3, "-H");
    FlagValuePair("-o", outputJson, a4, "-o");
    FlagValuePair("-o", outputJson, a4, "-of");
    FlagValuePair("-o", outputJson, a4, "-H");
    FlagValuePair("-of", OutputFormat, h, "-of");
    FlagValuePair("-of", OutputFormat, h, "-H");
    IntToStringRoundTrip(threads);
    assert FlagValue(h, "-H") == if Given(header) then header else None;
  }

  /** The command for target `http://x/FUZZ`, wordlist `w.txt`, 50 threads and no header. */
  lemma ExampleCommand(outputJson: string)
    ensures FfufCommand("http://x/FUZZ", "w.txt", 50, outputJson, None)
         == ["ffuf", "-u", "http://x/FUZZ", "-w", "w.txt", "-t", "50", "-o", outputJson, "-of", "json"]
    ensures FfufCommand("http://x/FUZZ", "w.txt", 50, outputJson, Some(""))
         == FfufCommand("http://x/FUZZ", "w.txt", 50, outputJson, None)
  {
    assert DigitChar(0) == '0' && DigitChar(5) == '5';
    assert NatToString(50) == NatToString(5) + ['0'] == "50";
  }
}
