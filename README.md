# DockerPort: a verified model of the container-port value type

This project models `DockerPort` from port.go of the `generictypes` Go package: a
container port written as `<port>` or `<port>/<protocol>`. Parsing splits the text on
`/`, requires the port to be an integer in 1..65535 as `strconv.Atoi` reads it, and
requires the protocol to be exactly `tcp` or `udp`. The value also remembers the JSON
shape it was read in (`formatJsonMode`), so `MarshalJSON` writes it back the same way:
`"80/tcp"` stays a docker-notation string, `"80"` stays a short string, and `80` stays a
number. This avoids spurious diffs when serialized configuration is compared.

Layout:

- `wrappers.dfy`: module `Wrappers`, the `Option` and `Result` types.
- `strings.dfy`: module `Strings`, Go's `strings.Split` on a one-character separator, with `Join` as its inverse.
- `strconv.dfy`: module `Strconv`, Go's `strconv.Atoi` for a 64-bit `int`, and `FormatInt`, the decimal text `encoding/json` writes for an `int`.
- `port.dfy`: module `Port`, the model itself.
  - `PortValue` is a copy of the struct. Go's value-receiver methods `String` and `MarshalJSON` are its functions.
  - The class `DockerPort` has the struct's three fields. Its methods are `Parse`, which is the package-level function `parseDockerPort` writing into its `*DockerPort` target, and the pointer-receiver method `UnmarshalJSON`. Its functions are `Empty` and `Equals`.
  - `ParseDockerPort` and `MustParseDockerPort` are the package-level constructors.
  - `Assigned`, `Validate`, `ParsePort` and `Decode` are pure functions. They state what the methods do, and the lemmas reason about them.
- `port_properties.dfy`: module `PortProperties`, the properties port.go promises.
- `port_examples.dfy`: module `PortExamples`, the table-driven cases of port_test.go, each proved.

## Model

| member | source | states |
|---|---|---|
| Strings.Split | port.go:125 | `strings.Split` yields one piece more than there are separators, and no piece contains the separator |
| Strings.JoinSplit | port.go:125 | joining the pieces with the separator gives the input back |
| Strings.SplitJoin | port.go:125 | splitting a join of separator-free pieces recovers exactly those pieces |
| Strconv.Digits | port.go:75 | the decimal text written for a non-negative integer is non-empty, has no leading zero, and reads back as that integer |
| Strconv.FormatInt | port.go:75 | the JSON rendering of an `int` is non-empty, holds only digits after an optional leading `-`, starts with `-` exactly for a negative number, and has no leading zero |
| Strconv.Atoi | port.go:71 | a value `Atoi` accepts fits a 64-bit `int`, comes from non-empty text ending in a digit, and is negative only when the text starts with `-` |
| Strconv.AtoiFormatInt | port.go:71-75 | `Atoi` reads the JSON rendering of every 64-bit integer back as that integer |
| Strconv.AtoiChars | port.go:140 | text that `Atoi` accepts holds only digits, apart from a sign in the first position |
| Strconv.AtoiSignsAndZeros | port.go:140 | `Atoi` accepts `80`, `+80`, `0080` (all 80) and `-80` |
| Strconv.AtoiRejects | port.go:140-141 | `Atoi` rejects the empty text, a lone sign, a letter and embedded blanks |
| Port.PortValue.String | port.go:59-61 | the canonical form holds a `/`, and splitting it on `/` gives back the port and the protocol when neither holds a `/` |
| Port.PortValue.MarshalJSON | port.go:63-84 | a valid value always marshals. Docker mode emits the JSON string `String()`. Number and short-string modes refuse any protocol but tcp. With tcp, short-string mode emits the port text as a JSON string, and number mode emits the integer `Atoi` reads or fails with `PortNotInteger` when `Atoi` rejects the port |
| PortProperties.ZeroValue | port.go:13 | the zero value `var result DockerPort` is empty and not valid, and it marshals in docker notation as `"/"`, which does not parse |
| Port.Assigned | port.go:125-138 | the fields are written exactly when the input has at most one `/`. With none: the whole input, tcp and the short-string mode. With one: halves that rebuild the input around the `/`, in docker mode. The number mode is never chosen |
| Port.Validate | port.go:140-155 | validation passes exactly when `Atoi` reads a port in 1..65535 and the protocol is tcp or udp. Each error kind holds exactly in its case, in the source's order: not a number, out of range, empty protocol, unknown protocol |
| Port.ParsePort | port.go:124-156 | a successful parse yields a valid value, and that value is the fields that were assigned |
| Port.Decode | port.go:86-113 | unmarshalling fails exactly when quoted bare text is not a JSON string or the text does not parse. The first case gives `NotJsonString`, the second the parse's own error |
| Port.Reread | port.go:66-80 | `encoding/json` hands a marshalled string back as its contents, and a marshalled integer as bare text that `Atoi` reads as that integer. Quoting that text never fails |
| Port.DockerPort.constructor | port.go:13 | the zero value: empty port and protocol, docker mode |
| Port.DockerPort.Empty | port.go:115-118 | true exactly when the port text is empty, whatever the protocol. An empty port is never valid |
| Port.DockerPort.Equals | port.go:120-122 | true exactly when the two values agree once the JSON mode is disregarded |
| Port.DockerPort.Parse | port.go:124-156 | returns the error of `ParsePort`. With at most one `/`, the fields hold the assigned values even when validation then fails. With more, nothing changes |
| Port.DockerPort.UnmarshalJSON | port.go:86-113 | returns the error of `Decode`. On success the struct is the decoded value. On failure it holds what the parse had written. It is unchanged when the quoted text was not a JSON string or the parse wrote nothing |
| Port.ParseDockerPort | port.go:20-26 | the error is that of `ParsePort`. On success the result is the parsed, valid value. On failure the result is the zero value overwritten by whatever the parse assigned |
| Port.MustParseDockerPort | port.go:12-18 | for text that parses, returns the same valid value as `ParseDockerPort` |
| PortProperties.ValidPortHasNoSlash | port.go:140-144 | a port text that passes validation contains no `/` |
| PortProperties.ParseWithoutProtocol | port.go:128-131 | for an input without `/`, the port is the whole input, the protocol tcp and the mode short-string. It parses exactly when that port is valid |
| PortProperties.ParseWithProtocol | port.go:132-135 | `port/protocol` with `/`-free halves assigns the halves in docker mode. It parses exactly when both are valid, and otherwise fails with `Validate`'s error |
| PortProperties.ParseTooManySlashes | port.go:136-137 | two or more `/` are a format error and assign nothing |
| PortProperties.ParseSound | port.go:140-155 | after a successful parse the port text is non-empty, free of `/`, and reads as an integer in 1..65535, and the protocol is tcp or udp |
| PortProperties.StringRoundTrip | port.go:59-61 | `String()` of a parsed value is the input itself when it held a `/`, and the input followed by `/tcp` otherwise |
| PortProperties.ParseString | port.go:59-61 | the canonical form parses back to the same port and protocol, in docker mode |
| PortProperties.DecodeShape | port.go:86-113 | after unmarshalling, the mode is number for a bare token, docker for a string with a `/`, and short-string otherwise. The port and protocol are the parse's, and the value is valid unless a bare token carried a protocol |
| PortProperties.UnmarshalMarshal | port.go:63-113 | marshalling what was unmarshalled gives back the same JSON string for a string token. For a bare token without a protocol it gives the number `Atoi` reads |
| PortProperties.MarshalUnmarshal | port.go:63-113 | a valid value marshals. Reading that JSON back keeps the mode, the protocol and the port number, and marshals to the same JSON again. Outside the number mode it gives back the identical value |
| PortExamples.AcceptsOneTcp | port_test.go:11 | `1/tcp` parses to port 1, tcp, docker mode |
| PortExamples.AcceptsHighTcp | port_test.go:12 | `65000/tcp` parses to port 65000, tcp, docker mode |
| PortExamples.AcceptsLowUdp | port_test.go:13 | `23/udp` parses to port 23, udp, docker mode |
| PortExamples.AcceptsHighUdp | port_test.go:14 | `65000/udp` parses to port 65000, udp, docker mode |
| PortExamples.AcceptsPlusSign | port.go:140 | `+80/tcp` parses, and the port text keeps its sign |
| PortExamples.AcceptsLeadingZeros | port.go:128-131 | `0080` parses in short-string mode, and the port text keeps its zeros |
| PortExamples.RejectsEmpty | port_test.go:29 | the empty input is not a number |
| PortExamples.RejectsLetterPort | port_test.go:30 | `a/tcp` is not a number |
| PortExamples.RejectsIcmp | port_test.go:31 | `90/icmp` has an unknown protocol |
| PortExamples.RejectsThreeParts | port_test.go:32 | `a/b/c` is a format error |
| PortExamples.RejectsZeroPort | port_test.go:34 | `0/tcp` is out of range |
| PortExamples.RejectsLargePort | port_test.go:35 | `66000/udp` is out of range |
| PortExamples.RejectsLoneSlash | port_test.go:37 | `/` has no port number |
| PortExamples.RejectsSlashesAround | port_test.go:38 | `/80/` is a format error |
| PortExamples.RejectsMissingPort | port_test.go:39 | `/80` has no port number |
| PortExamples.RejectsProtocolOnly | port_test.go:40 | `/tcp` has no port number |
| PortExamples.RejectsProtocolAsPort | port_test.go:41 | `tcp/` is not a number |
| PortExamples.RejectsWordPort | port_test.go:42 | `invalid/` is not a number |
| PortExamples.RejectsWordProtocolOnly | port_test.go:43 | `/invalid` has no port number |
| PortExamples.RejectsNegativeWithProtocol | port_test.go:44 | `-80/tcp` is out of range |
| PortExamples.RejectsNegative | port_test.go:45 | `-80` is out of range |
| PortExamples.DecodesBareNumber | port_test.go:62 | the bare token `80` unmarshals to port 80, tcp, number mode |
| PortExamples.DecodesShortString | port_test.go:63 | the string `"8080"` unmarshals to port 8080, tcp, short-string mode |
| PortExamples.DecodesDockerNotation | port_test.go:64 | the string `"10000/udp"` unmarshals to port 10000, udp, docker mode |
| PortExamples.RejectsArrayAndObject | port_test.go:86-90 | the bare tokens `[]` and `{}` reach the parse and are rejected as not a number |
| PortExamples.RejectsMultilineArray | port.go:89-101 | a bare array written over two lines fails once quoted, because a newline may not appear in a JSON string |
| PortProperties.DecodeQuoted | port.go:99-106 | a JSON string token is decoded exactly as its contents parse, shape included |
| PortExamples.BareTokenWithProtocol | port.go:86-113 | the bare text `80/udp` is accepted in number mode, and `MarshalJSON` then refuses that value |

## Left out

- domain.go is not part of this model. Its grammar check is delegated to a library whose source is not available. Its TLD refresh is a network fetch guarded by a mutex, so it is I/O and concurrency.
- The `DockerImage` type exercised by image_test.go is not part of this model: its implementation is not available, so its parse rules cannot be checked against code.
- JSON at the byte level is abstracted. A token is either the decoded contents of a JSON string or the raw text of any other JSON value. Syntax checking and escaping are `encoding/json`'s work and are not modelled. The quoting step of `UnmarshalJSON` is modelled: bare text holding `"`, `\` or a control character below U+0020 fails with `NotJsonString` and writes nothing. A backslash counts as a failure even where it would start a valid escape. That can only differ from port.go when `UnmarshalJSON` is called directly, since a valid non-string JSON value holds a backslash only inside a string, whose quote already fails. For an empty token, port.go:88 panics on `data[0]` before writing anything. The model instead gives `Bare("")` the parse's behaviour: it fails as not a number and writes an empty port, tcp and short-string mode into the fields. The invalid JSON inputs `{]`, `asdf` and the empty document of port_test.go:87-89 fail in that syntax check, before `UnmarshalJSON` runs, so they have no example here.
- Errors are the kinds in `ParseError` and `MarshalError`. The error wrapping and message texts are left out.
- The `default: panic` branch of `MarshalJSON` is unreachable once the mode is a three-valued datatype, so it has no counterpart.
- Go's `int` is taken to be 64 bits wide. `Atoi` fails outside that range, as Go's range error does.
- MustParseDockerPort: its panic is modelled as a precondition that the text parses. The model therefore says nothing about what a caller sees after the panic.

## Notes on the behaviour modelled

- The port text is kept exactly as written, not as a normalised number. `Atoi` accepts a leading `+` or `-` and leading zeros, so `+80/tcp` and `0080` are valid. The port text keeps its spelling, so `String()` gives `+80/tcp` and `0080/tcp`.
- A non-string JSON value such as `[]` is not rejected as a type error. `UnmarshalJSON` (port.go:88-104) quotes it and hands it to the parse, which rejects it as not a number.
- `UnmarshalJSON` switches to the number mode for any bare text, including text that names a protocol. No JSON number contains `/`, so this matters only when the method is called directly. A udp value unmarshalled this way cannot be marshalled again (`BareTokenWithProtocol`).
