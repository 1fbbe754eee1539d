/**
 * What port.go promises about `DockerPort`, proved of the model in module Port:
 * how the number of '/' decides the shape, what a successful parse guarantees, how
 * `String` and `MarshalJSON` give back the text that was parsed.
 */
module PortProperties {
  import opened Wrappers
  import opened Strings
  import opened Strconv
  import opened Port

  /** A valid port text never contains the separator. */
  lemma ValidPortHasNoSlash(port: string)
    requires ValidPort(port)
    ensures '/' !in port
  {
    if '/' in port {
      var i :| 0 <= i < |port| && port[i] == '/';
      AtoiChars(port, i);
    }
  }

  /**
   * The zero value `var result DockerPort` that the constructors start from: it is not a
   * valid port, it reports itself empty, and it marshals in docker notation as "/", a text
   * that does not parse.
   */
  lemma ZeroValue()
    ensures !Zero.Valid() && Zero.Port == ""
    ensures Zero.MarshalJSON() == Success(JStr("/"))
    ensures ParsePort("/") == Failure(PortNotNumber)
  {
    assert Atoi("") == None;
    ParseWithProtocol("", "");
    assert "/" == "" + "/" + "";
  }

  /** Without a '/', the whole input is the port, the protocol defaults to tcp, and the shape is the short string. */
  lemma ParseWithoutProtocol(port: string)
    requires '/' !in port
    ensures Assigned(port) == Some(PortValue(port, ProtocolTCP, JsonString))
    ensures ParsePort(port) ==
      if ValidPort(port) then Success(PortValue(port, ProtocolTCP, JsonString))
      else Failure(Validate(port, ProtocolTCP).value)
  {
  }

  /** With one '/', the two halves become the port and the protocol, and the shape is docker notation. */
  lemma {:induction false} ParseWithProtocol(port: string, protocol: string)
    requires '/' !in port && '/' !in protocol
    ensures Assigned(port + "/" + protocol) == Some(PortValue(port, protocol, JsonDocker))
    ensures ParsePort(port + "/" + protocol) ==
      if ValidPort(port) && ValidProtocol(protocol) then Success(PortValue(port, protocol, JsonDocker))
      else Failure(Validate(port, protocol).value)
  {
    SplitAfterPrefix(port, '/', protocol);
    SplitWhole(protocol, '/');
  }

  /** Two or more '/' are a format error, and nothing is written. */
  lemma ParseTooManySlashes(input: string)
    requires Count(input, '/') >= 2
    ensures Assigned(input) == None
    ensures ParsePort(input) == Failure(InvalidFormat)
  {
  }

  /** A successful parse leaves a valid port, a nonempty port text, and tcp or udp. */
  lemma ParseSound(input: string)
    requires ParsePort(input).Success?
    ensures var v := ParsePort(input).value;
      && v.Port != ""
      && '/' !in v.Port
      && Atoi(v.Port).Some? && 1 <= Atoi(v.Port).value <= 65535
      && (v.Protocol == ProtocolTCP || v.Protocol == ProtocolUDP)
  {
    ValidPortHasNoSlash(ParsePort(input).value.Port);
  }

  /**
   * `String` gives back the parsed text: unchanged when it named a protocol, followed by
   * "/tcp" when it did not.
   */
  lemma StringRoundTrip(input: string)
    requires ParsePort(input).Success?
    ensures ParsePort(input).value.String() == if '/' in input then input else input + "/tcp"
  {
  }

  /** The canonical form parses back to the same port and protocol, now in docker notation. */
  lemma ParseString(input: string)
    requires ParsePort(input).Success?
    ensures ParsePort(ParsePort(input).value.String()) == Success(ParsePort(input).value.(formatJsonMode := JsonDocker))
  {
    var v := ParsePort(input).value;
    ValidPortHasNoSlash(v.Port);
    ParseWithProtocol(v.Port, v.Protocol);
  }

  /**
   * Unmarshalling picks the shape from the token: a bare value is a number, a JSON string
   * is docker notation when it holds a '/' and the short string otherwise. The port and
   * protocol are those of the parse.
   */
  lemma DecodeShape(data: Token)
    requires Decode(data).Success?
    ensures var v := Decode(data).value;
      && v.formatJsonMode == (if data.Bare? then JsonNumber else if '/' in data.Text() then JsonDocker else JsonString)
      && ParsePort(data.Text()) == Success(v.(formatJsonMode := ParsePort(data.Text()).value.formatJsonMode))
      && (data.Quoted? || '/' !in data.Text() ==> v.Valid())
  {
  }

  /** A JSON string is decoded exactly as its contents parse: quoting never fails, and the shape is kept. */
  lemma DecodeQuoted(s: string)
    ensures Decode(Quoted(s)) == ParsePort(s)
  {
  }

  /**
   * `MarshalJSON` re-emits what `UnmarshalJSON` read: the same JSON string for a string
   * token, and the number Atoi reads for a bare token without a protocol.
   */
  lemma UnmarshalMarshal(data: Token)
    requires Decode(data).Success?
    ensures data.Quoted? ==> Decode(data).value.MarshalJSON() == Success(JStr(data.contents))
    ensures data.Bare? && '/' !in data.text ==>
      Decode(data).value.MarshalJSON() == Success(JInt(Atoi(data.text).value))
  {
  }

  /**
   * Marshalling a valid value and unmarshalling the result keeps the shape, the protocol
   * and the port number, and marshals to the same JSON again. Only the number shape may
   * respell the port text (Atoi accepts "+80" and "0080", JSON writes 80).
   */
  lemma MarshalUnmarshal(v: PortValue)
    requires v.Valid()
    ensures v.MarshalJSON().Success?
    ensures var w := Decode(Reread(v.MarshalJSON().value));
      && w.Success?
      && w.value.formatJsonMode == v.formatJsonMode
      && w.value.Protocol == v.Protocol
      && Atoi(w.value.Port) == Atoi(v.Port)
      && w.value.MarshalJSON() == v.MarshalJSON()
      && (v.formatJsonMode != JsonNumber ==> w.value == v)
  {
    ValidPortHasNoSlash(v.Port);
    match v.formatJsonMode
    case JsonDocker =>
      ParseWithProtocol(v.Port, v.Protocol);
    case JsonString =>
      ParseWithoutProtocol(v.Port);
    case JsonNumber =>
      var n := Atoi(v.Port).value;
      var text := FormatInt(n);
      AtoiFormatInt(n);
      ValidPortHasNoSlash(text);
      ParseWithoutProtocol(text);
  }
}
