/** The program's run: options to query, discovery, and the output loop that
    renders one line per device until the template is rejected
    (src/main.rs:41-63). Discovery and the template library enter as
    function parameters; printing becomes the returned transcript. */
module Output {
  import opened Wrappers
  import Upnp
  import Values
  import NamedArgs
  import Cli
  import Decimal

  /** The template library's `ParsedFormat::parse`, followed by the Display
      of its result: given the template and one device's mapping, either the
      rendered line or the position at which the template was rejected. */
  type Parser = (string, map<string, Values.Value>) -> Result<string, nat>

  /** How the device stream stopped once its devices were consumed: it ran
      out (all responses read, or the scan time elapsed), or it failed. */
  datatype StreamEnd = Exhausted | Failed(error: Upnp.DiscoveryError)

  /** The devices discovery yields, in arrival order, and how it stopped. */
  datatype Stream = Stream(devices: seq<Upnp.Device>, end: StreamEnd)

  /** `rupnp::discover`: starting the search may fail outright. */
  type Discoverer = (Upnp.SearchTarget, Cli.Duration) -> Result<Stream, Upnp.DiscoveryError>

  /** The errors `main` returns. */
  datatype Error = Startup(startup: Cli.StartupError) | Discovery(discovery: Upnp.DiscoveryError)

  /** What a run prints, line by line, and what `main` returns. */
  datatype Transcript = Transcript(stdout: seq<string>, stderr: seq<string>, exit: Result<(), Error>)

  /** The search sent to the network. */
  datatype Query = Query(target: Upnp.SearchTarget, timeout: Cli.Duration)

  /** A whole run: the query issued, if the run got that far, and its output. */
  datatype Run = Run(query: Option<Query>, transcript: Transcript)

  const PositionPrefix: string := "Invalid format string at position "

  /** The line written to standard error when the template is rejected. */
  function PositionMessage(pos: nat): string {
    PositionPrefix + Decimal.NatToString(pos)
  }

  /** The message carries the position in a form that can be read back, and
      different positions give different messages. */
  lemma PositionMessageNamesPosition(pos: nat, other: nat)
    ensures |PositionMessage(pos)| > |PositionPrefix|
    ensures PositionMessage(pos)[..|PositionPrefix|] == PositionPrefix
    ensures Decimal.IsDigits(PositionMessage(pos)[|PositionPrefix|..])
    ensures Decimal.ParseDecimal(PositionMessage(pos)[|PositionPrefix|..]) == pos
    ensures PositionMessage(pos) == PositionMessage(other) ==> pos == other
  {
    assert PositionMessage(pos)[|PositionPrefix|..] == Decimal.NatToString(pos);
    Decimal.ParseNatToString(pos);
    if PositionMessage(pos) == PositionMessage(other) {
      assert PositionMessage(other)[|PositionPrefix|..] == Decimal.NatToString(other);
      Decimal.NatToStringInjective(pos, other);
    }
  }

  /** One pass of the loop body: the device's mapping handed to the parser. */
  function Line(parse: Parser, format: string, d: Upnp.Device): Result<string, nat> {
    parse(format, NamedArgs.ToNamedArgs(d))
  }

  /** The result of `main` when the stream stops before the template fails. */
  function EndStatus(end: StreamEnd): Result<(), Error> {
    match end
    case Exhausted => Ok(())
    case Failed(e) => Err(Discovery(e))
  }

  /** The `while let` loop as a fold over the stream. The lines printed are
      the renderings of the first devices, in order; the first device the
      template fails on stops the loop with one message naming the position,
      and `main` still succeeds. If no device fails, the stream's own end
      decides the result. */
  function Consume(devices: seq<Upnp.Device>, end: StreamEnd, format: string, parse: Parser): (t: Transcript)
    ensures |t.stdout| <= |devices|
    ensures forall j :: 0 <= j < |t.stdout| ==> Line(parse, format, devices[j]) == Ok(t.stdout[j])
    ensures |t.stdout| < |devices| ==>
              && Line(parse, format, devices[|t.stdout|]).Err?
              && t.stderr == [PositionMessage(Line(parse, format, devices[|t.stdout|]).error)]
              && t.exit == Ok(())
    ensures |t.stdout| == |devices| ==> t.stderr == [] && t.exit == EndStatus(end)
    decreases |devices|
  {
    if |devices| == 0 then
      Transcript([], [], EndStatus(end))
    else
      match Line(parse, format, devices[0])
      case Err(pos) => Transcript([], [PositionMessage(pos)], Ok(()))
      case Ok(line) =>
        var rest := Consume(devices[1..], end, format, parse);
        Transcript([line] + rest.stdout, rest.stderr, rest.exit)
  }

  /** A rejected template is never fatal to the loop: once discovery has
      started, the run fails only when every device rendered and the stream
      itself failed. At most one error line is written, and it is written
      exactly when some device failed. */
  lemma FormatErrorIsNotFatal(devices: seq<Upnp.Device>, end: StreamEnd, format: string, parse: Parser)
    ensures var t := Consume(devices, end, format, parse);
            && (t.exit.Err? <==> end.Failed? && forall j :: 0 <= j < |devices| ==> Line(parse, format, devices[j]).Ok?)
            && |t.stderr| <= 1
            && (|t.stderr| == 1 <==> exists j :: 0 <= j < |devices| && Line(parse, format, devices[j]).Err?)
  {
    var t := Consume(devices, end, format, parse);
    if |t.stdout| < |devices| {
      assert Line(parse, format, devices[|t.stdout|]).Err?;
    } else {
      assert forall j :: 0 <= j < |devices| ==> Line(parse, format, devices[j]).Ok? by {
        forall j | 0 <= j < |devices|
          ensures Line(parse, format, devices[j]).Ok?
        {
          assert Line(parse, format, devices[j]) == Ok(t.stdout[j]);
        }
      }
    }
  }

  /** Once the template fails on a device, nothing after it is looked at:
      neither later devices nor a failure of the stream change the run. */
  lemma {:induction false} LaterDevicesUnseen(devices: seq<Upnp.Device>, more: seq<Upnp.Device>,
                                              end: StreamEnd, end': StreamEnd,
                                              format: string, parse: Parser, i: nat)
    requires i < |devices|
    requires Line(parse, format, devices[i]).Err?
    ensures Consume(devices + more, end', format, parse) == Consume(devices, end, format, parse)
    decreases |devices|
  {
    assert (devices + more)[0] == devices[0];
    if Line(parse, format, devices[0]).Ok? {
      assert (devices + more)[1..] == devices[1..] + more;
      LaterDevicesUnseen(devices[1..], more, end, end', format, parse, i - 1);
    }
  }

  /** `main`: convert the options, discover, then run the loop with the
      template given or the default one. The query carries the converted
      target and the scan duration; a rejected target or a failed discovery
      ends the run with that error and no output; otherwise the output is the
      loop's over the discovered stream. */
  function Execute(args: Cli.Args, parseTarget: Cli.TargetParser, discover: Discoverer, parse: Parser): (r: Run)
    ensures r.query.Some? <==> Cli.SearchTargetOf(args, parseTarget).Ok?
    ensures Cli.SearchTargetOf(args, parseTarget).Ok? ==>
              r.query == Some(Query(Cli.SearchTargetOf(args, parseTarget).value, Cli.DurationOf(args)))
    ensures r.query.Some? ==>
              r.transcript == match discover(r.query.value.target, r.query.value.timeout)
                              case Err(e) => Transcript([], [], Err(Discovery(e)))
                              case Ok(s) => Consume(s.devices, s.end, Cli.FormatOf(args), parse)
    // The clauses below follow from those above with the contracts of
    // `Cli.SearchTargetOf` and `Cli.DurationOf`; they are spelled out for
    // the reader.
    ensures args.searchTarget.None? ==> r.query == Some(Query(Upnp.All, Cli.DurationOf(args)))
    ensures r.query.Some? ==> r.query.value.timeout.secs as int == args.duration as int
    ensures r.query.None? ==>
              r.transcript == Transcript([], [], Err(Startup(Cli.InvalidSearchTarget(
                args.searchTarget.value, parseTarget(args.searchTarget.value).error))))
    ensures r.transcript.stdout != [] ==> r.query.Some? && discover(r.query.value.target, r.query.value.timeout).Ok?
  {
    match Cli.SearchTargetOf(args, parseTarget)
    case Err(e) => Run(None, Transcript([], [], Err(Startup(e))))
    case Ok(target) =>
      var query := Query(target, Cli.DurationOf(args));
      match discover(target, query.timeout)
      case Err(e) => Run(Some(query), Transcript([], [], Err(Discovery(e))))
      case Ok(stream) => Run(Some(query), Consume(stream.devices, stream.end, Cli.FormatOf(args), parse))
  }

  /** Without `--format` the run is the run with the default template given
      explicitly; and every printed line is the template in force applied to
      the device in the same position of the stream. */
  lemma TemplateInForce(args: Cli.Args, parseTarget: Cli.TargetParser, discover: Discoverer, parse: Parser)
    ensures args.format.None? ==>
              Execute(args, parseTarget, discover, parse)
              == Execute(args.(format := Some(Cli.DefaultFormat)), parseTarget, discover, parse)
    ensures var r := Execute(args, parseTarget, discover, parse);
            r.transcript.stdout != [] ==>
              var stream := discover(r.query.value.target, r.query.value.timeout).value;
              forall j :: 0 <= j < |r.transcript.stdout| ==>
                j < |stream.devices| &&
                parse(Cli.FormatOf(args), NamedArgs.ToNamedArgs(stream.devices[j])) == Ok(r.transcript.stdout[j])
  {
  }
}
