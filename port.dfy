/**
 * The container-port value type `DockerPort` of port.go: a port given as `<port>` or
 * `<port>/<protocol>`, validated when it is parsed, and remembered together with the
 * JSON shape it was read in so that marshalling writes it back in the same shape.
 *
 * Go's value-receiver methods (`String`, `MarshalJSON`) work on a copy of the struct and
 * are functions on the datatype `PortValue`; the pointer-receiver methods that write
 * into the struct (`parseDockerPort`'s target, `UnmarshalJSON`) are methods of the class
 * `DockerPort`, whose three fields are the struct's.
 */
module Port {
  import opened Wrappers
  import opened Strings
  import opened Strconv

  const ProtocolTCP: string := "tcp"
  const ProtocolUDP: string := "udp"

  /** How a port is written back as JSON (`modePortJSONFormat`); `JsonDocker` is Go's zero value. */
  datatype JsonMode =
    | JsonDocker  // the JSON string "<port>/<protocol>"
    | JsonNumber  // the JSON number <port>
    | JsonString  // the JSON string "<port>"

  /** Why `parseDockerPort` rejects its input, in the order it checks. */
  datatype ParseError =
    | InvalidFormat    // more than one '/'
    | PortNotNumber    // the port text is not accepted by strconv.Atoi
    | PortOutOfRange   // the port is outside 1..65535
    | EmptyProtocol
    | UnknownProtocol  // neither "tcp" nor "udp"
    | NotJsonString    // `UnmarshalJSON` only: the quoted bare text is not a JSON string

  /** Why `MarshalJSON` refuses a value. */
  datatype MarshalError =
    | ProtocolNotTcp  // the number and short-string shapes cannot carry a protocol
    | PortNotInteger  // strconv.Atoi rejects the port text

  /** A JSON value as `MarshalJSON` produces it: a string (before quoting) or an integer. */
  datatype JsonValue = JStr(str: string) | JInt(num: int)

  /**
   * The raw JSON value `encoding/json` hands to `UnmarshalJSON`: either a JSON string,
   * given by its decoded contents, or any other value, given by its raw text, which
   * `UnmarshalJSON` reads as if it had been quoted.
   */
  datatype Token = Quoted(contents: string) | Bare(text: string) {
    /** The text `parseDockerPort` is given. */
    function Text(): string
    {
      match this
      case Quoted(s) => s
      case Bare(t) => t
    }

    /**
     * `UnmarshalJSON` puts quotes around bare text and decodes the result as a JSON
     * string. That fails, before any parse, when the text holds a character a JSON string
     * may not hold unescaped.
     */
    predicate QuotingFails()
    {
      Bare? && exists i :: 0 <= i < |text| && BreaksQuoting(text[i])
    }
  }

  /** A quote ends a JSON string, a backslash starts an escape, and control characters are not allowed in one. */
  predicate BreaksQuoting(c: char)
  {
    c == '"' || c == '\\' || c < ' '
  }

  /** The port text is an integer Atoi accepts, between 1 and 65535. */
  predicate ValidPort(port: string)
  {
    var n := Atoi(port);
    n.Some? && 1 <= n.value <= 65535
  }

  predicate ValidProtocol(protocol: string)
  {
    protocol == ProtocolTCP || protocol == ProtocolUDP
  }

  /** A copy of the Go struct `DockerPort`. */
  datatype PortValue = PortValue(Port: string, Protocol: string, formatJsonMode: JsonMode) {

    /** What a successful parse establishes: a valid port and protocol, and tcp in the short shapes. */
    predicate Valid()
    {
      && ValidPort(Port)
      && ValidProtocol(Protocol)
      && (formatJsonMode != JsonDocker ==> Protocol == ProtocolTCP)
    }

    /**
     * `DockerPort.String`: the canonical form, whatever the JSON shape. Splitting it on
     * '/' gives back the port and the protocol when neither holds a '/'.
     */
    function String(): (r: string)
      ensures '/' in r
      ensures '/' !in Port && '/' !in Protocol ==> Split(r, '/') == [Port, Protocol]
    {
      var r := Port + "/" + Protocol;
      assert r[|Port|] == '/';
      if '/' !in Port && '/' !in Protocol then
        SplitAfterPrefix(Port, '/', Protocol);
        SplitWhole(Protocol, '/');
        r
      else r
    }

    /** `DockerPort.MarshalJSON`: the JSON value for the remembered shape. */
    function MarshalJSON(): (r: Result<JsonValue, MarshalError>)
      ensures Valid() ==> r.Success?
      ensures formatJsonMode == JsonDocker ==> r == Success(JStr(String()))
      ensures formatJsonMode != JsonDocker && Protocol != ProtocolTCP ==> r == Failure(ProtocolNotTcp)
      ensures formatJsonMode == JsonString && Protocol == ProtocolTCP ==> r == Success(JStr(Port))
      ensures formatJsonMode == JsonNumber && Protocol == ProtocolTCP ==>
        r == (if Atoi(Port).Some? then Success(JInt(Atoi(Port).value)) else Failure(PortNotInteger))
    {
      match formatJsonMode
      case JsonDocker => Success(JStr(String()))
      case JsonNumber =>
        if Protocol != ProtocolTCP then Failure(ProtocolNotTcp)
        else
          var n := Atoi(Port);
          if n.None? then Failure(PortNotInteger) else Success(JInt(n.value))
      case JsonString =>
        if Protocol != ProtocolTCP then Failure(ProtocolNotTcp) else Success(JStr(Port))
    }
  }

  /** The zero value `DockerPort{}`. */
  const Zero: PortValue := PortValue("", "", JsonDocker)

  /**
   * The fields `parseDockerPort` writes into its target before it validates anything:
   * without a '/' the whole input with tcp in the short-string shape, with one '/' the
   * two halves in the docker shape; None (nothing written) with more than one '/'.
   */
  function Assigned(input: string): (r: Option<PortValue>)
    ensures r.Some? <==> Count(input, '/') <= 1
    ensures r.Some? ==> '/' !in r.value.Port && '/' !in r.value.Protocol && r.value.formatJsonMode != JsonNumber
    ensures r.Some? && r.value.formatJsonMode == JsonDocker ==> '/' in input && input == r.value.String()
    ensures r.Some? && r.value.formatJsonMode == JsonString ==> '/' !in input && r.value == PortValue(input, ProtocolTCP, JsonString)
  {
    var s := Split(input, '/');
    JoinSplit(input, '/');
    if |s| == 1 then Some(PortValue(s[0], ProtocolTCP, JsonString))
    else if |s| == 2 then
      assert Join(s, '/') == s[0] + "/" + s[1] by { assert s[1..] == [s[1]]; }
      Some(PortValue(s[0], s[1], JsonDocker))
    else None
  }

  /** The checks `parseDockerPort` makes on the assigned fields, in its order; None when they pass. */
  function Validate(port: string, protocol: string): (r: Option<ParseError>)
    ensures r.None? <==> ValidPort(port) && ValidProtocol(protocol)
    ensures r == Some(PortNotNumber) <==> Atoi(port).None?
    ensures r == Some(PortOutOfRange) <==> Atoi(port).Some? && !ValidPort(port)
    ensures r == Some(EmptyProtocol) <==> ValidPort(port) && protocol == ""
    ensures r == Some(UnknownProtocol) <==> ValidPort(port) && protocol != "" && !ValidProtocol(protocol)
    ensures r != Some(InvalidFormat)
  {
    var n := Atoi(port);
    if n.None? then Some(PortNotNumber)
    else if n.value < 1 || n.value > 65535 then Some(PortOutOfRange)
    else if protocol == "" then Some(EmptyProtocol)
    else if protocol == ProtocolUDP || protocol == ProtocolTCP then None
    else Some(UnknownProtocol)
  }

  /** The outcome of `parseDockerPort(input, &dp)` on success: the value it leaves in `dp`. */
  function ParsePort(input: string): (r: Result<PortValue, ParseError>)
    ensures r.Success? ==> r.value.Valid() && Assigned(input) == Some(r.value)
  {
    match Assigned(input)
    case None => Failure(InvalidFormat)
    case Some(v) =>
      match Validate(v.Port, v.Protocol)
      case Some(e) => Failure(e)
      case None => Success(v)
  }

  /**
   * The outcome of `UnmarshalJSON(data)`: quote a value that was not a JSON string and
   * decode it as one, parse the text, and put a value that was not a JSON string in the
   * number shape.
   */
  function Decode(data: Token): (r: Result<PortValue, ParseError>)
    ensures r.Failure? <==> data.QuotingFails() || ParsePort(data.Text()).Failure?
    ensures data.QuotingFails() ==> r == Failure(NotJsonString)
    ensures !data.QuotingFails() && r.Failure? ==> r.error == ParsePort(data.Text()).error
  {
    if data.QuotingFails() then Failure(NotJsonString)
    else match ParsePort(data.Text())
    case Failure(e) => Failure(e)
    case Success(v) => if data.Bare? then Success(v.(formatJsonMode := JsonNumber)) else Success(v)
  }

  /**
   * How `encoding/json` hands a value that `MarshalJSON` produced back to `UnmarshalJSON`:
   * a string as its contents, an integer as bare text that Atoi reads as that integer.
   */
  function Reread(j: JsonValue): (r: Token)
    ensures r.Quoted? <==> j.JStr?
    ensures j.JStr? ==> r.Text() == j.str
    ensures j.JInt? && MinInt <= j.num <= MaxInt ==> Atoi(r.Text()) == Some(j.num)
    ensures !r.QuotingFails()
  {
    match j
    case JStr(s) => Quoted(s)
    case JInt(n) =>
      if MinInt <= n <= MaxInt then AtoiFormatInt(n); Bare(FormatInt(n))
      else Bare(FormatInt(n))
  }

  /** The Go struct `DockerPort`, as the target that parsing and unmarshalling write into. */
  class DockerPort {
    var Port: string
    var Protocol: string
    var formatJsonMode: JsonMode

    /** `var dp DockerPort`: the zero value. */
    constructor ()
      ensures Value() == Zero
    {
      Port, Protocol, formatJsonMode := "", "", JsonDocker;
    }

    /** The struct's current contents, as a value (`*dp`). */
    function Value(): PortValue
      reads this
    {
      PortValue(Port, Protocol, formatJsonMode)
    }

    /** `Empty`: only the port text matters, since the protocol may have been defaulted to tcp. */
    function Empty(): (r: bool)
      reads this
      ensures r <==> Value().Port == ""
      ensures r ==> !Value().Valid()
    {
      Port == ""
    }

    /** `Equals`: same port text and protocol; the JSON shape is not compared. */
    function Equals(other: PortValue): (r: bool)
      reads this
      ensures r <==> Value().(formatJsonMode := other.formatJsonMode) == other
    {
      Port == other.Port && Protocol == other.Protocol
    }

    /**
     * `parseDockerPort(input, dp)`. The fields are written as soon as the number of '/'
     * is known to be right, before the port and protocol are checked, so a failed parse
     * can still leave them overwritten.
     */
    method Parse(input: string) returns (err: Option<ParseError>)
      modifies this
      ensures err == ParsePort(input).ErrorOption()
      ensures Assigned(input).Some? ==> Value() == Assigned(input).value
      ensures Assigned(input).None? ==> Value() == old(Value())
    {
      var s := Split(input, '/');
      if |s| == 1 {
        Port, Protocol, formatJsonMode := s[0], ProtocolTCP, JsonString;
      } else if |s| == 2 {
        Port, Protocol, formatJsonMode := s[0], s[1], JsonDocker;
      } else {
        return Some(InvalidFormat);
      }

      var parsed := Atoi(Port);
      if parsed.None? {
        return Some(PortNotNumber);
      } else if parsed.value < 1 || parsed.value > 65535 {
        return Some(PortOutOfRange);
      }

      if Protocol == "" {
        err := Some(EmptyProtocol);
      } else if Protocol == ProtocolUDP || Protocol == ProtocolTCP {
        err := None;
      } else {
        err := Some(UnknownProtocol);
      }
    }

    /**
     * `UnmarshalJSON(data)`: parse the token's text into this struct and, when the token
     * was not a JSON string, switch to the number shape once the parse has succeeded.
     */
    method UnmarshalJSON(data: Token) returns (err: Option<ParseError>)
      modifies this
      ensures err == Decode(data).ErrorOption()
      ensures err.None? ==> Value() == Decode(data).value
      ensures err.Some? && !data.QuotingFails() && Assigned(data.Text()).Some? ==> Value() == Assigned(data.Text()).value
      ensures err.Some? && (data.QuotingFails() || Assigned(data.Text()).None?) ==> Value() == old(Value())
    {
      if data.QuotingFails() {
        return Some(NotJsonString);
      }

      var wasNumber := false;
      var s: string;
      match data {
        case Quoted(contents) =>
          s := contents;
        case Bare(text) =>
          s := text;
          wasNumber := true;
      }

      err := Parse(s);
      if err.Some? {
        return;
      }

      if wasNumber {
        formatJsonMode := JsonNumber;
      }
    }
  }

  /** `ParseDockerPort`: the parsed value, or the error and whatever the parse had written. */
  method ParseDockerPort(port: string) returns (result: PortValue, err: Option<ParseError>)
    ensures err == ParsePort(port).ErrorOption()
    ensures err.None? ==> result == ParsePort(port).value && result.Valid()
    ensures err.Some? ==> result == (if Assigned(port).Some? then Assigned(port).value else Zero)
  {
    var dp := new DockerPort();
    err := dp.Parse(port);
    result := dp.Value();
  }

  /**
   * `MustParseDockerPort`: panics exactly when `ParseDockerPort` reports an error, so it
   * may only be given text that parses.
   */
  method MustParseDockerPort(port: string) returns (result: PortValue)
    requires ParsePort(port).Success?
    ensures result == ParsePort(port).value && result.Valid()
  {
    var dp := new DockerPort();
    var err := dp.Parse(port);
    assert err.None?;  // the panic branch is never taken
    result := dp.Value();
  }
}
