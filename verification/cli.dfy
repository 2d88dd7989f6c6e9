/** The command-line options and their conversion into a discovery query
    (src/main.rs:13-39, 65-82) and the output template (src/main.rs:48). */
module Cli {
  import opened Wrappers
  import Upnp

  newtype u8 = x: int | 0 <= x < 0x100
  newtype u64 = x: int | 0 <= x < 0x1_0000_0000_0000_0000

  /** The declared default of `--duration`. */
  const DefaultDuration: u8 := 3

  /** The template used when `--format` is not given. */
  const DefaultFormat: string :=
    "name: {name}, manufacturer: {manufacturer}, model_name: {model_name}, udn: {udn}, url: {url}"

  /** The parsed options. `duration` already holds its default when the
      option was not given. */
  datatype Args = Args(searchTarget: Option<string>, duration: u8, format: Option<string>)

  /** The options as written on the command line, with the declared default
      for a missing `--duration`. */
  function ArgsFrom(searchTarget: Option<string>, duration: Option<u8>, format: Option<string>): Args {
    Args(searchTarget, duration.GetOr(DefaultDuration), format)
  }

  /** A `std::time::Duration`: whole seconds and a sub-second part. */
  datatype Duration = Duration(secs: u64, nanos: nat)

  /** The startup error for a search target the library cannot parse. It
      keeps the offending text and the library's reason. */
  datatype StartupError = InvalidSearchTarget(input: string, cause: Upnp.TargetParseError)

  /** The library's parser for search targets (`SearchTarget::from_str`). */
  type TargetParser = string -> Result<Upnp.SearchTarget, Upnp.TargetParseError>

  /** `TryFrom<&Args> for SearchTarget`: no option means every device;
      otherwise the parser's answer, its failure becoming a startup error. */
  function SearchTargetOf(args: Args, parseTarget: TargetParser): (r: Result<Upnp.SearchTarget, StartupError>)
    ensures args.searchTarget.None? ==> r == Ok(Upnp.All)
    ensures args.searchTarget.Some? && parseTarget(args.searchTarget.value).Ok? ==>
              r == Ok(parseTarget(args.searchTarget.value).value)
    ensures args.searchTarget.Some? && parseTarget(args.searchTarget.value).Err? ==>
              r == Err(InvalidSearchTarget(args.searchTarget.value, parseTarget(args.searchTarget.value).error))
  {
    match args.searchTarget
    case None => Ok(Upnp.All)
    case Some(value) =>
      match parseTarget(value)
      case Ok(target) => Ok(target)
      case Err(cause) => Err(InvalidSearchTarget(value, cause))
  }

  /** A rejected target is reported, never replaced by `All`; and the parser
      is consulted only when the option is present. */
  lemma SearchTargetNoFallback(args: Args, parseTarget: TargetParser, other: TargetParser)
    ensures SearchTargetOf(args, parseTarget).Err? <==>
              args.searchTarget.Some? && parseTarget(args.searchTarget.value).Err?
    ensures SearchTargetOf(args, parseTarget) == Ok(Upnp.All) ==>
              args.searchTarget.None? || parseTarget(args.searchTarget.value) == Ok(Upnp.All)
    ensures args.searchTarget.None? ==> SearchTargetOf(args, parseTarget) == SearchTargetOf(args, other)
  {
  }

  /** The text of the startup error (the context attached at src/main.rs:72). */
  function StartupMessage(e: StartupError): string {
    "Unable to convert '" + e.input + "' to an URN."
  }

  /** The message quotes the rejected input verbatim. */
  lemma StartupMessageQuotesInput(e: StartupError)
    ensures var m := StartupMessage(e);
            |m| == |e.input| + 31 && m[19..19 + |e.input|] == e.input
  {
  }

  /** `From<&Args> for Duration`: whole seconds, widened from `u8`. */
  function DurationOf(args: Args): (d: Duration)
    ensures d.secs as int == args.duration as int
    ensures d.nanos == 0
    ensures 0 <= d.secs <= 255
  {
    Duration(args.duration as int as u64, 0)
  }

  /** A missing `--duration` scans for three seconds; a given one is used
      as it is. */
  lemma DefaultScanDuration(st: Option<string>, given: u8, f: Option<string>)
    ensures DurationOf(ArgsFrom(st, None, f)) == Duration(3, 0)
    ensures DurationOf(ArgsFrom(st, Some(given), f)).secs as int == given as int
  {
  }

  /** The template in force: the one given, else the default. */
  function FormatOf(args: Args): (f: string)
    ensures args.format.Some? ==> f == args.format.value
    ensures args.format.None? ==> f == DefaultFormat
  {
    args.format.GetOr(DefaultFormat)
  }
}
