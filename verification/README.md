# rupnpc in Dafny

A model of `rupnpc`, a small command-line UPnP discoverer. The program turns
its options into an SSDP search (a search target and a scan duration), asks
the `rupnp` library for the devices that answer, projects each device onto
twelve named values and hands the template given with `--format` (or a
default one) to the `rt_format` library, printing one rendered line per
device. The model covers the logic the program itself contains:

- `upnp.dfy` (`Upnp`): the library types the program reads — `Uri`, `Urn`,
  `Device` with the twelve accessors, `SearchTarget` — as plain data.
- `values.dfy` (`Values`): the `Value` enum {Empty, String, Uri, Urn}, its
  `From` conversions, and its formatting contract: Display and Debug are
  supported, the six numeric traits always refuse.
- `named_args.dfy` (`NamedArgs`): `to_named_args`, the projection of a device
  onto exactly twelve names, with an inverse that reads the device back.
- `cli.dfy` (`Cli`): the options, the search-target conversion (absent means
  `All`, a rejected string is a startup error quoting it), the scan duration
  (whole seconds widened from `u8`, default 3) and the default template.
- `decimal.dfy` (`Decimal`): the decimal text of the position in the
  format-error message, with its parse-back.
- `output.dfy` (`Output`): `main` and its `while let` loop as a fold over the
  finite stream of devices. Lines are the renderings of the devices in
  arrival order up to the first device the template fails on; that failure
  writes one message with the position, stops the loop, and `main` still
  returns `Ok`.
- `wrappers.dfy` (`Wrappers`): `Option` and `Result`.

Foreign behaviour enters as parameters, never as invented semantics: the
template parser and renderer (`Output.Parser`), the search-target parser
(`Cli.TargetParser`), discovery (`Output.Discoverer`) and the `Debug`
rendering of `str`, `Uri` and `URN` (`Values.DebugStyle`). Printing becomes
the returned `Output.Transcript` (standard output lines, standard error
lines, and the value `main` returns).

Facts about the program the model relies on:

- `supports_format` accepts Debug for every variant, `Uri` and `Urn`
  included, and each variant has a Debug rendering (src/main.rs:115-135).
- `friendlyName`, `manufacturer`, `modelName` and `udn` are plain strings
  because rupnp's accessors for them return `&str` and go through
  `From<&str>`; the six other description elements go through
  `From<Option<&str>>` and are `Option<string>` (src/main.rs:91-102).
- A rejected template ends the loop but `main` returns `Ok`
  (src/main.rs:54-62); `Output.FormatErrorIsNotFatal` states it.

## Model

| member | source | states |
|---|---|---|
| Values.ConversionIsVerbatim | src/main.rs:162-187 | Each `From` conversion keeps its input unchanged: text and optional text can be read back exactly, `None` becomes `Empty` and nothing else does, `Uri` and `URN` are wrapped as they are, and under Display every converted value shows exactly the text it was given, an absent one showing "" |
| Values.ConversionInjective | src/main.rs:162-175 | The text conversions lose nothing: equal values come from equal text, and `Some(s)` converts to the same value as the bare `s` |
| Values.SupportsFormat | src/main.rs:114-117 | A placeholder may ask a value for a trait exactly when the trait is not one of the six numeric ones, whatever the variant |
| Values.Fmt | src/main.rs:119-159 | Calling the trait a placeholder asks for succeeds exactly when `supports_format` accepts it; every numeric trait fails with the formatting error and no text; Display with no fill, width or precision gives the value's own text (empty for `Empty`) and Debug the foreign Debug rendering |
| Values.NumericFormatsAlwaysFail | src/main.rs:137-159 | For every variant, `Empty` included, and whatever the Debug rules, octal, hex, binary and exponent formatting fail identically and are reported as unsupported |
| Values.DisplayIgnoresVariant | src/main.rs:119-125 | For a placeholder with no fill, width or precision, Display depends only on the carried text: a string, a URI and a URN with the same text render alike, and `Empty` renders as the empty string |
| NamedArgs.ToNamedArgs | src/main.rs:89-104 | The mapping's keys are exactly the twelve placeholder names, whatever the device leaves out |
| NamedArgs.FieldNamesDistinct | src/main.rs:91-102 | The twelve names bound are pairwise different |
| NamedArgs.NamedArgsHaveTwelveKeys | src/main.rs:89-104 | Every mapping holds exactly twelve entries, one per placeholder name |
| NamedArgs.NamedArgsLookup | src/main.rs:91-102 | Each name is bound to the conversion of its own accessor: `name` to the friendly name, `serial` to the serial number, every other name to the accessor of the same name |
| NamedArgs.NamedArgsRoundTrip | src/main.rs:89-104 | The device can be rebuilt from its mapping, so the projection drops and alters no attribute |
| NamedArgs.NamedArgsInjective | src/main.rs:89-104 | Different devices give different mappings |
| NamedArgs.EmptyOnlyWhenAbsent | src/main.rs:95-102 | Only the six optional elements can be `Empty`, each exactly when the device does not report it; `url` always holds the URI and `device_type` the URN |
| Cli.SearchTargetOf | src/main.rs:68-75 | No search-target option gives `All`; a given one gives the parser's target, and its rejection becomes a startup error carrying the input and the parser's reason |
| Cli.SearchTargetNoFallback | src/main.rs:68-75 | The conversion fails exactly when an option is given and rejected; it yields `All` only when no option is given or the parser itself says `All`; and with no option the parser is never consulted |
| Cli.StartupMessageQuotesInput | src/main.rs:72 | The startup error message quotes the rejected input verbatim at a fixed offset |
| Cli.DurationOf | src/main.rs:78-82 | The scan lasts the option's number of whole seconds, with no sub-second part, always between 0 and 255 seconds |
| Cli.DefaultScanDuration | src/main.rs:19-21 | Without `--duration` the scan lasts three seconds; with it, the given number of seconds |
| Cli.FormatOf | src/main.rs:48 | The template in force is the one given with `--format`, else the fixed default template |
| Decimal.NatToString | src/main.rs:55 | The position is written in decimal: at least one digit, digits only, and a leading zero only for position 0 |
| Decimal.ParseNatToString | src/main.rs:55 | Reading the decimal text back gives the position |
| Decimal.NatToStringInjective | src/main.rs:55 | Different positions have different decimal texts |
| Output.PositionMessageNamesPosition | src/main.rs:54-55 | The format-error message is the fixed prefix followed by digits that read back as the position, and different positions give different messages |
| Output.Consume | src/main.rs:50-61 | The printed lines are the renderings of the first devices in arrival order; if a device fails, it is the one right after the printed lines, exactly one error line names its position and `main` returns `Ok`; if none fails, no error line is written and the stream's own end decides the result |
| Output.FormatErrorIsNotFatal | src/main.rs:50-62 | Once discovery has started, the run fails only when every device rendered and the stream itself failed, so a rejected template never makes the loop fail; at most one error line is written, and one is written exactly when some device's rendering failed |
| Output.LaterDevicesUnseen | src/main.rs:50-57 | After the template fails on a device, later devices and a later stream failure do not change the run |
| Output.Execute | src/main.rs:42-62 | A query is sent exactly when the search target converts, and it carries the converted target (all devices when no option is given) and the option's number of seconds; a rejected target ends the run with the startup error and no output; a failed discovery ends it with the discovery error and no output; otherwise the output is the loop's over the discovered stream with the template in force |
| Output.TemplateInForce | src/main.rs:48-60 | Without `--format` the run equals the run given the default template explicitly, and each printed line is the template in force applied to the mapping of the device at the same position in the stream |

## Left out

- SSDP discovery, the `tokio` runtime, stream pinning and the time-bounded stream (src/main.rs:41-50): network I/O and concurrency inside `rupnp`. Discovery is the `Output.Discoverer` parameter returning a finite list of devices and how the stream stopped; the scan timeout is passed to it and its effect is the list it returns.
- The template parser and substitution engine of `rt_format` (`ParsedFormat::parse`, the fill, alignment, width and precision of a `Specifier`): foreign code. The parse-and-display step is the `Output.Parser` parameter; `Values.Specifier` keeps only the requested trait, the one field `supports_format` reads.
- Fill, alignment, width and precision under Display: the program passes the formatter to each variant's own Display, and the `str` Display used for `String` and `Empty` pads and truncates (`{name:.3}` keeps three characters, `{upc:>5}` on `Empty` writes five spaces). `Values.DisplayText` is the text of a placeholder without these; the padding rules belong to the standard library and the template library.
- A formatting error raised while printing an accepted template (which would make `println!` panic): the parser parameter returns the finished line, so this path is not represented.
- `SearchTarget::from_str` and URN syntax: foreign; the `Cli.TargetParser` parameter. Non-`All` targets are kept as opaque header text.
- The `Display` text of `Uri` and `URN`: each is carried as its textual form. Their `Debug` text and the quoting and escaping of `str` under `Debug`: foreign, the `Values.DebugStyle` parameter.
- `structopt` parsing of the command line (reading the `u8` from text, help output): only the declared default of `--duration` is modelled (`Cli.ArgsFrom`).
- The output of `println!`/`eprintln!` and the runtime's printing of an error returned from `main`: the model returns the lines and the result instead.
- `HashMap` hashing and iteration order, and the borrowing of `&str`/`&Uri`/`&URN`: no effect on behaviour; the mapping is a Dafny `map` and values hold the text itself.
- The sub-second part of `Cli.Duration` is an unbounded `nat` rather than a `u32`; the program always sets it to 0.
