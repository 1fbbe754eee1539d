/** The examples of port_test.go, each checked against the model. */
module PortExamples {
  import opened Wrappers
  import opened Strings
  import opened Strconv
  import opened Port
  import opened PortProperties

  /** The port numbers of the accepted test inputs, as Atoi reads them. */
  lemma AcceptedNumbers()
    ensures Atoi("1") == Some(1)
    ensures Atoi("23") == Some(23)
    ensures Atoi("65000") == Some(65000)
  {
    assert DecimalValue("1", 0, 1) == Some(1);
    assert DecimalValue("23", 0, 2) == Some(23);
    assert DecimalValue("65000", 0, 5) == Some(65000);
  }

  /** The port numbers of the rejected test inputs, as Atoi reads them. */
  lemma RejectedNumbers()
    ensures Atoi("0") == Some(0)
    ensures Atoi("66000") == Some(66000)
    ensures Atoi("90") == Some(90)
  {
    assert DecimalValue("0", 0, 1) == Some(0);
    assert DecimalValue("66000", 0, 5) == Some(66000);
    assert DecimalValue("90", 0, 2) == Some(90);
  }

  /** The port numbers of the JSON test inputs, as Atoi reads them. */
  lemma JsonNumbers()
    ensures Atoi("8080") == Some(8080)
    ensures Atoi("10000") == Some(10000)
  {
    assert DecimalValue("8080", 0, 4) == Some(8080);
    assert DecimalValue("10000", 0, 5) == Some(10000);
  }

  /** The port texts of the tests that Atoi rejects. */
  lemma TestWords()
    ensures Atoi("a") == None
    ensures Atoi("tcp") == None
    ensures Atoi("invalid") == None
    ensures Atoi("[]") == None
    ensures Atoi("{}") == None
  {
    assert DecimalValue("a", 0, 1) == None;
    assert DecimalValue("tcp", 0, 3) == None;
    assert DecimalValue("invalid", 0, 7) == None;
    assert DecimalValue("[]", 0, 2) == None;
    assert DecimalValue("{}", 0, 2) == None;
  }

  /** The bare texts of the examples survive `UnmarshalJSON`'s quoting. */
  lemma PlainBareTexts()
    ensures !Bare("80").QuotingFails()
    ensures !Bare("[]").QuotingFails()
    ensures !Bare("{}").QuotingFails()
    ensures !Bare("80/udp").QuotingFails()
  {
  }

  /** port_test.go: "1/tcp" is accepted, in docker notation. */
  lemma AcceptsOneTcp()
    ensures ParsePort("1/tcp") == Success(PortValue("1", ProtocolTCP, JsonDocker))
  {
    AcceptedNumbers();
    ParseWithProtocol("1", "tcp");
    assert "1/tcp" == "1" + "/" + "tcp";
  }

  /** port_test.go: "65000/tcp" is accepted, in docker notation. */
  lemma AcceptsHighTcp()
    ensures ParsePort("65000/tcp") == Success(PortValue("65000", ProtocolTCP, JsonDocker))
  {
    AcceptedNumbers();
    ParseWithProtocol("65000", "tcp");
    assert "65000/tcp" == "65000" + "/" + "tcp";
  }

  /** port_test.go: "23/udp" is accepted, in docker notation. */
  lemma AcceptsLowUdp()
    ensures ParsePort("23/udp") == Success(PortValue("23", ProtocolUDP, JsonDocker))
  {
    AcceptedNumbers();
    ParseWithProtocol("23", "udp");
    assert "23/udp" == "23" + "/" + "udp";
  }

  /** port_test.go: "65000/udp" is accepted, in docker notation. */
  lemma AcceptsHighUdp()
    ensures ParsePort("65000/udp") == Success(PortValue("65000", ProtocolUDP, JsonDocker))
  {
    AcceptedNumbers();
    ParseWithProtocol("65000", "udp");
    assert "65000/udp" == "65000" + "/" + "udp";
  }

  /** Atoi accepts a plus sign, and the port text keeps it. */
  lemma AcceptsPlusSign()
    ensures ParsePort("+80/tcp") == Success(PortValue("+80", ProtocolTCP, JsonDocker))
  {
    AtoiSignsAndZeros();
    ParseWithProtocol("+80", "tcp");
    assert "+80/tcp" == "+80" + "/" + "tcp";
  }

  /** Atoi accepts leading zeros, and the port text keeps them. */
  lemma AcceptsLeadingZeros()
    ensures ParsePort("0080") == Success(PortValue("0080", ProtocolTCP, JsonString))
  {
    AtoiSignsAndZeros();
    ParseWithoutProtocol("0080");
  }

  /** port_test.go: "" is rejected. */
  lemma RejectsEmpty()
    ensures ParsePort("") == Failure(PortNotNumber)
  {
    AtoiRejects();
    ParseWithoutProtocol("");
  }

  /** port_test.go: "a/tcp" is rejected. */
  lemma RejectsLetterPort()
    ensures ParsePort("a/tcp") == Failure(PortNotNumber)
  {
    TestWords();
    ParseWithProtocol("a", "tcp");
    assert "a/tcp" == "a" + "/" + "tcp";
  }

  /** port_test.go: "90/icmp" is rejected. */
  lemma RejectsIcmp()
    ensures ParsePort("90/icmp") == Failure(UnknownProtocol)
  {
    RejectedNumbers();
    ParseWithProtocol("90", "icmp");
    assert "90/icmp" == "90" + "/" + "icmp";
  }

  /** port_test.go: "a/b/c" is rejected. */
  lemma RejectsThreeParts()
    ensures ParsePort("a/b/c") == Failure(InvalidFormat)
  {
    assert Count("a/b/c", '/') == 2;
  }

  /** port_test.go: "0/tcp" is rejected. */
  lemma RejectsZeroPort()
    ensures ParsePort("0/tcp") == Failure(PortOutOfRange)
  {
    RejectedNumbers();
    ParseWithProtocol("0", "tcp");
    assert "0/tcp" == "0" + "/" + "tcp";
  }

  /** port_test.go: "66000/udp" is rejected. */
  lemma RejectsLargePort()
    ensures ParsePort("66000/udp") == Failure(PortOutOfRange)
  {
    RejectedNumbers();
    ParseWithProtocol("66000", "udp");
    assert "66000/udp" == "66000" + "/" + "udp";
  }

  /** port_test.go: "/" is rejected. */
  lemma RejectsLoneSlash()
    ensures ParsePort("/") == Failure(PortNotNumber)
  {
    AtoiRejects();
    ParseWithProtocol("", "");
    assert "/" == "" + "/" + "";
  }

  /** port_test.go: "/80/" is rejected. */
  lemma RejectsSlashesAround()
    ensures ParsePort("/80/") == Failure(InvalidFormat)
  {
    assert Count("/80/", '/') == 2;
  }

  /** port_test.go: "/80" is rejected. */
  lemma RejectsMissingPort()
    ensures ParsePort("/80") == Failure(PortNotNumber)
  {
    AtoiRejects();
    ParseWithProtocol("", "80");
    assert "/80" == "" + "/" + "80";
  }

  /** port_test.go: "/tcp" is rejected. */
  lemma RejectsProtocolOnly()
    ensures ParsePort("/tcp") == Failure(PortNotNumber)
  {
    AtoiRejects();
    ParseWithProtocol("", "tcp");
    assert "/tcp" == "" + "/" + "tcp";
  }

  /** port_test.go: "tcp/" is rejected. */
  lemma RejectsProtocolAsPort()
    ensures ParsePort("tcp/") == Failure(PortNotNumber)
  {
    TestWords();
    ParseWithProtocol("tcp", "");
    assert "tcp/" == "tcp" + "/" + "";
  }

  /** port_test.go: "invalid/" is rejected. */
  lemma RejectsWordPort()
    ensures ParsePort("invalid/") == Failure(PortNotNumber)
  {
    TestWords();
    ParseWithProtocol("invalid", "");
    assert "invalid/" == "invalid" + "/" + "";
  }

  /** port_test.go: "/invalid" is rejected. */
  lemma RejectsWordProtocolOnly()
    ensures ParsePort("/invalid") == Failure(PortNotNumber)
  {
    AtoiRejects();
    ParseWithProtocol("", "invalid");
    assert "/invalid" == "" + "/" + "invalid";
  }

  /** port_test.go: "-80/tcp" is rejected. */
  lemma RejectsNegativeWithProtocol()
    ensures ParsePort("-80/tcp") == Failure(PortOutOfRange)
  {
    AtoiSignsAndZeros();
    ParseWithProtocol("-80", "tcp");
    assert "-80/tcp" == "-80" + "/" + "tcp";
  }

  /** port_test.go: "-80" is rejected. */
  lemma RejectsNegative()
    ensures ParsePort("-80") == Failure(PortOutOfRange)
  {
    AtoiSignsAndZeros();
    ParseWithoutProtocol("-80");
  }

  /** port_test.go: a bare number unmarshals in the number shape. */
  lemma DecodesBareNumber()
    ensures Decode(Bare("80")) == Success(PortValue("80", ProtocolTCP, JsonNumber))
  {
    PlainBareTexts();
    AtoiSignsAndZeros();
    ParseWithoutProtocol("80");
  }

  /** port_test.go: a JSON string without a protocol unmarshals in the short-string shape. */
  lemma DecodesShortString()
    ensures Decode(Quoted("8080")) == Success(PortValue("8080", ProtocolTCP, JsonString))
  {
    DecodeQuoted("8080");
    JsonNumbers();
    ParseWithoutProtocol("8080");
  }

  /** The text of the docker-notation JSON example parses on its own. */
  lemma ParsesDockerNotation()
    ensures ParsePort("10000/udp") == Success(PortValue("10000", ProtocolUDP, JsonDocker))
  {
    JsonNumbers();
    ParseWithProtocol("10000", "udp");
    assert "10000/udp" == "10000" + "/" + "udp";
  }

  /** port_test.go: a JSON string in docker notation unmarshals in the docker shape. */
  lemma DecodesDockerNotation()
    ensures Decode(Quoted("10000/udp")) == Success(PortValue("10000", ProtocolUDP, JsonDocker))
  {
    DecodeQuoted("10000/udp");
    ParsesDockerNotation();
  }

  /** port_test.go: the bare values [] and {} reach the parse and fail there. */
  lemma RejectsArrayAndObject()
    ensures Decode(Bare("[]")) == Failure(PortNotNumber)
    ensures Decode(Bare("{}")) == Failure(PortNotNumber)
  {
    PlainBareTexts();
    TestWords();
    ParseWithoutProtocol("[]");
    ParseWithoutProtocol("{}");
  }

  /**
   * `UnmarshalJSON` given bare text that names a protocol accepts it and switches to the
   * number shape, which `MarshalJSON` then refuses for udp. No JSON number has this text;
   * the method can only be handed it directly.
   */
  lemma BareTokenWithProtocol()
    ensures Decode(Bare("80/udp")) == Success(PortValue("80", ProtocolUDP, JsonNumber))
    ensures Decode(Bare("80/udp")).value.MarshalJSON() == Failure(ProtocolNotTcp)
  {
    PlainBareTexts();
    AtoiSignsAndZeros();
    ParseWithProtocol("80", "udp");
    assert "80/udp" == "80" + "/" + "udp";
  }

  /**
   * A bare array spread over two lines is valid JSON, but once quoted its newline is a
   * control character inside a JSON string: decoding fails before the parse.
   */
  lemma RejectsMultilineArray()
    ensures Decode(Bare("[\n]")) == Failure(NotJsonString)
  {
    assert BreaksQuoting("[\n]"[1]);
  }
}
