/**
  The error type that every fallible operation of the dashboard returns
  (src/result.rs), together with the small wrapper datatypes the other
  modules use: an optional value, a result, and the outcome of a call that
  may panic.

  The wrapped library errors (chrono, rppal, reqwest, std::io, serde_json,
  serde_xml_rs, prost) are opaque here: each variant carries the text that
  the wrapped error's own `Display` would print.
*/
module Errors {

  datatype Option<+T> = None | Some(value: T) {
    function GetOr(default: T): T {
      match this
      case Some(v) => v
      case None => default
    }
  }

  datatype TTDashError =
    | SimpleError(message: string)
    | ChronoParseError(chrono: string)
    | GpioError(gpio: string)
    | HttpError(http: string)
    | IoError(io: string)
    | JsonError(json: string)
    | XmlError(xml: string)
    | ProstDecodeError(prost: string)
    | SpiError(spi: string)

  /** `TTDashResult<T>`: a value, or the error that stopped the computation. */
  datatype Result<+T> = Ok(value: T) | Err(error: TTDashError) {
    predicate IsFailure() { Err? }

    function PropagateFailure<U>(): Result<U>
      requires Err?
    {
      Err(error)
    }

    function Extract(): T
      requires Ok?
    {
      value
    }
  }

  /**
    What a call that may panic (`assert!`, `expect`, `unwrap`) comes to: the
    value it returns, or the panic with its message. A panic ends the thread.
  */
  datatype Outcome<+T> = Returned(value: T) | Panicked(message: string)

  /** `make_error`: a plain message error. */
  function MakeError(s: string): (e: TTDashError)
    ensures Description(e) == "SimpleError" && Payload(e) == s
  {
    SimpleError(s)
  }

  /** The fixed text that `Display` puts before the wrapped message. */
  function Prefix(e: TTDashError): string {
    match e
    case SimpleError(_) => "Simple Error: "
    case ChronoParseError(_) => "Chrono Parse Error: "
    case GpioError(_) => "GPIO Error: "
    case HttpError(_) => "HTTP Error: "
    case IoError(_) => "IO Error: "
    case JsonError(_) => "JSON Error: "
    case XmlError(_) => "XML Error: "
    case ProstDecodeError(_) => "ProstDecodeError: "
    case SpiError(_) => "SPI Error: "
  }

  /** The wrapped message of any variant. */
  function Payload(e: TTDashError): string {
    match e
    case SimpleError(s) => s
    case ChronoParseError(s) => s
    case GpioError(s) => s
    case HttpError(s) => s
    case IoError(s) => s
    case JsonError(s) => s
    case XmlError(s) => s
    case ProstDecodeError(s) => s
    case SpiError(s) => s
  }

  /** `Display::fmt`: the variant's prefix followed by the wrapped message. */
  function Render(e: TTDashError): (r: string)
    ensures |Prefix(e)| <= |r| && r[..|Prefix(e)|] == Prefix(e) && r[|Prefix(e)|..] == Payload(e)
  {
    Prefix(e) + Payload(e)
  }

  /** `Error::description`: the name of the variant, which always ends in "Error". */
  function Description(e: TTDashError): (d: string)
    ensures |d| > 5
    ensures d[|d| - 5] == 'E' && d[|d| - 4] == 'r' && d[|d| - 3] == 'r' && d[|d| - 2] == 'o' && d[|d| - 1] == 'r'
  {
    match e
    case SimpleError(_) => "SimpleError"
    case ChronoParseError(_) => "ChronoParseError"
    case GpioError(_) => "GpioError"
    case HttpError(_) => "HttpError"
    case IoError(_) => "IoError"
    case JsonError(_) => "JsonError"
    case XmlError(_) => "XmlError"
    case ProstDecodeError(_) => "ProstDecodeError"
    case SpiError(_) => "SpiError"
  }

  /** `Error::cause`: no error has an underlying cause. */
  function Cause(e: TTDashError): (c: Option<TTDashError>)
    ensures c.None?
  {
    None
  }

  /** Two errors are of the same variant. */
  predicate SameVariant(a: TTDashError, b: TTDashError) {
    match (a, b)
    case (SimpleError(_), SimpleError(_)) => true
    case (ChronoParseError(_), ChronoParseError(_)) => true
    case (GpioError(_), GpioError(_)) => true
    case (HttpError(_), HttpError(_)) => true
    case (IoError(_), IoError(_)) => true
    case (JsonError(_), JsonError(_)) => true
    case (XmlError(_), XmlError(_)) => true
    case (ProstDecodeError(_), ProstDecodeError(_)) => true
    case (SpiError(_), SpiError(_)) => true
    case _ => false
  }

  /** The variant names are pairwise distinct. */
  lemma DescriptionIdentifiesVariant(a: TTDashError, b: TTDashError)
    ensures Description(a) == Description(b) <==> SameVariant(a, b)
  {
  }

  /**
    The first two characters of a rendered error already tell the variant
    (only "Simple Error: " and "SPI Error: " share their first letter).
  */
  lemma {:induction false} RenderHeadIdentifiesVariant(a: TTDashError, b: TTDashError)
    requires Render(a)[0] == Render(b)[0] && Render(a)[1] == Render(b)[1]
    ensures SameVariant(a, b)
  {
    assert Prefix(a)[0] == Render(a)[0] == Render(b)[0] == Prefix(b)[0];
    assert Prefix(a)[1] == Render(a)[1] == Render(b)[1] == Prefix(b)[1];
  }

  /** `Display` loses nothing: distinct errors print differently. */
  lemma {:induction false} RenderInjective(a: TTDashError, b: TTDashError)
    requires Render(a) == Render(b)
    ensures a == b
  {
    RenderHeadIdentifiesVariant(a, b);
    assert Prefix(a) == Prefix(b);
    assert Payload(a) == Render(a)[|Prefix(a)|..] == Render(b)[|Prefix(b)|..] == Payload(b);
  }

  // The `From` conversions: each library error lands in its own variant.

  function FromChrono(err: string): (e: TTDashError)
    ensures Description(e) == "ChronoParseError" && Payload(e) == err
  {
    ChronoParseError(err)
  }

  function FromGpio(err: string): (e: TTDashError)
    ensures Description(e) == "GpioError" && Payload(e) == err
  {
    GpioError(err)
  }

  function FromHttp(err: string): (e: TTDashError)
    ensures Description(e) == "HttpError" && Payload(e) == err
  {
    HttpError(err)
  }

  function FromIo(err: string): (e: TTDashError)
    ensures Description(e) == "IoError" && Payload(e) == err
  {
    IoError(err)
  }

  function FromJson(err: string): (e: TTDashError)
    ensures Description(e) == "JsonError" && Payload(e) == err
  {
    JsonError(err)
  }

  function FromXml(err: string): (e: TTDashError)
    ensures Description(e) == "XmlError" && Payload(e) == err
  {
    XmlError(err)
  }

  function FromProst(err: string): (e: TTDashError)
    ensures Description(e) == "ProstDecodeError" && Payload(e) == err
  {
    ProstDecodeError(err)
  }

  function FromSpi(err: string): (e: TTDashError)
    ensures Description(e) == "SpiError" && Payload(e) == err
  {
    SpiError(err)
  }
}
