/** The value bound to one placeholder name, how it is built from a device
    attribute, and which formatting traits it answers to (src/main.rs:107-187). */
module Values {
  import opened Wrappers
  import Upnp

  /** A device attribute wrapped for the template renderer. The wrapped text
      is borrowed, never copied or changed. */
  datatype Value = Empty | String(text: string) | Uri(uri: Upnp.Uri) | Urn(urn: Upnp.Urn)

  /** The formatting trait a placeholder asks for: `{x}` is Display, `{x:?}`
      Debug, `{x:o}` Octal, `{x:x}` LowerHex, `{x:X}` UpperHex, `{x:b}`
      Binary, `{x:e}` LowerExp and `{x:E}` UpperExp. */
  datatype Format = Display | Debug | Octal | LowerHex | UpperHex | Binary | LowerExp | UpperExp

  /** A placeholder's format specification. Only the requested trait matters
      to `supports_format`. Fill, alignment, width and precision are not
      modelled: the program hands the formatter to each variant's own
      Display, and for `String` and `Empty` that is the `str` Display, which
      pads and truncates (`{name:.3}` keeps three characters, `{upc:>5}` on
      `Empty` writes five spaces). */
  datatype Specifier = Specifier(format: Format)

  /** The unit error a formatting trait returns when it refuses. */
  datatype FmtError = FmtError

  /** The numeric traits, none of which a `Value` implements. */
  predicate IsNumeric(f: Format) {
    f.Octal? || f.LowerHex? || f.UpperHex? || f.Binary? || f.LowerExp? || f.UpperExp?
  }

  /** How the standard library's `Debug` writes a `str`, a `Uri` and a `URN`
      (quoting and escaping). These rules belong to other crates, so they
      enter the model as parameters. */
  datatype DebugStyle = DebugStyle(
    str: string -> string,
    uri: Upnp.Uri -> string,
    urn: Upnp.Urn -> string
  )

  // ---- Conversions (the `From` impls) ----

  /** A required text attribute (`From<&str> for Value`). */
  function FromText(s: string): Value {
    String(s)
  }

  /** An optional text attribute: absent becomes `Empty`. */
  function FromOptional(o: Option<string>): Value {
    match o
    case None => Empty
    case Some(s) => String(s)
  }

  function FromUri(u: Upnp.Uri): Value {
    Uri(u)
  }

  function FromUrn(n: Upnp.Urn): Value {
    Urn(n)
  }

  /** Reads the text back out of a value built from text: the inverse of
      `FromText` and `FromOptional`. `None` for the identifier variants. */
  function AsOptionalText(v: Value): Option<Option<string>> {
    match v
    case Empty => Some(None)
    case String(s) => Some(Some(s))
    case Uri(_) => None
    case Urn(_) => None
  }

  /** No conversion alters its text: each has an inverse, and each renders
      under Display as exactly the text it was given, absent rendering as "". */
  lemma ConversionIsVerbatim(s: string, o: Option<string>, u: Upnp.Uri, n: Upnp.Urn)
    ensures AsOptionalText(FromText(s)) == Some(Some(s))
    ensures AsOptionalText(FromOptional(o)) == Some(o)
    ensures FromOptional(o).Empty? <==> o.None?
    ensures FromUri(u).Uri? && FromUri(u).uri == u
    ensures FromUrn(n).Urn? && FromUrn(n).urn == n
    ensures DisplayText(FromText(s)) == s
    ensures DisplayText(FromOptional(o)) == o.GetOr("")
    ensures DisplayText(FromUri(u)) == u.text
    ensures DisplayText(FromUrn(n)) == n.text
  {
  }

  /** `FromOptional` and `FromText` lose nothing: equal values came from
      equal text. */
  lemma ConversionInjective(a: Option<string>, b: Option<string>, s: string, t: string)
    ensures FromOptional(a) == FromOptional(b) ==> a == b
    ensures FromText(s) == FromText(t) ==> s == t
    ensures FromOptional(Some(s)) == FromText(s)
  {
    ConversionIsVerbatim(s, a, Upnp.Uri(""), Upnp.Urn(""));
    ConversionIsVerbatim(t, b, Upnp.Uri(""), Upnp.Urn(""));
  }

  // ---- The formatting contract (`FormatArgument`) ----

  /** `supports_format`: whether a placeholder may ask this value for the
      specifier's trait. Only the trait is consulted. */
  function SupportsFormat(v: Value, spec: Specifier): (b: bool)
    ensures b <==> !IsNumeric(spec.format)
  {
    spec.format.Display? || spec.format.Debug?
  }

  /** The Display text of a placeholder with no fill, width or precision:
      `Empty` writes nothing, the others their own text. */
  function DisplayText(v: Value): string {
    match v
    case Empty => ""
    case String(s) => s
    case Uri(u) => u.text
    case Urn(n) => n.text
  }

  /** The Debug text: `Empty` is written as the empty `str` would be. */
  function DebugText(v: Value, style: DebugStyle): string {
    match v
    case Empty => style.str("")
    case String(s) => style.str(s)
    case Uri(u) => style.uri(u)
    case Urn(n) => style.urn(n)
  }

  /** What the renderer gets when it calls the value's trait method for `f`. */
  function Fmt(v: Value, f: Format, style: DebugStyle): (r: Result<string, FmtError>)
    ensures r.Ok? <==> SupportsFormat(v, Specifier(f))
    ensures IsNumeric(f) ==> r == Err(FmtError)
    ensures f.Display? ==> r == Ok(DisplayText(v))
    ensures f.Debug? ==> r == Ok(DebugText(v, style))
  {
    match f
    case Display => Ok(DisplayText(v))
    case Debug => Ok(DebugText(v, style))
    case Octal => Err(FmtError)
    case LowerHex => Err(FmtError)
    case UpperHex => Err(FmtError)
    case Binary => Err(FmtError)
    case LowerExp => Err(FmtError)
    case UpperExp => Err(FmtError)
  }

  /** The numeric refusal does not depend on the value: every variant,
      `Empty` included, answers each numeric trait with the same error and no
      text, whatever Debug style is in force. */
  lemma NumericFormatsAlwaysFail(v: Value, w: Value, f: Format, style: DebugStyle, style': DebugStyle)
    requires IsNumeric(f)
    ensures Fmt(v, f, style) == Fmt(w, f, style') == Err(FmtError)
    ensures !SupportsFormat(v, Specifier(f))
  {
  }

  /** For a placeholder with no fill, width or precision, Display depends
      only on the text, never on which variant carries it: a `String` and a
      `Uri` or `Urn` with the same text render alike. */
  lemma DisplayIgnoresVariant(s: string, style: DebugStyle)
    ensures Fmt(String(s), Display, style) == Fmt(Uri(Upnp.Uri(s)), Display, style)
    ensures Fmt(Uri(Upnp.Uri(s)), Display, style) == Fmt(Urn(Upnp.Urn(s)), Display, style)
    ensures Fmt(Empty, Display, style) == Fmt(String(""), Display, style) == Ok("")
  {
  }
}
