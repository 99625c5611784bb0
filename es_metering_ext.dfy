/** The API extension of the enhanced metering labels: the validator of a
    label's TCP port and the constraints on a label's direction. */
module EsMeteringExt {
  import opened Common

  const MaxPort: int := 65535

  /** The directions a label may have. */
  const Directions: seq<string> := ["ingress", "egress"]

  /** The value a request gives for `tcp_port`: absent (None), an integer,
      a string, or a value `int()` refuses with a TypeError (a list or a
      dict), with the text `'%s'` renders it as. */
  datatype PortValue = Absent | IntValue(i: int) | StrValue(s: string) | OtherValue(text: string)

  /** `'%s' % data`. */
  function Text(data: PortValue): string
  {
    match data
    case Absent => "None"
    case IntValue(i) => IntToString(i)
    case StrValue(s) => s
    case OtherValue(t) => t
  }

  /** `int(data)`; None stands for the ValueError or TypeError. */
  function ToInt(data: PortValue): Option<int>
  {
    match data
    case Absent => None
    case IntValue(i) => Some(i)
    case StrValue(s) => ParseInt(s)
    case OtherValue(_) => None
  }

  /** What a validator call ends in: no message, a message, or an
      exception escaping it. */
  datatype Outcome = Accepted | Rejected(msg: string) | Raises(exception: string)

  function InvalidNumberMsg(data: PortValue): string
  {
    "Port '" + Text(data) + "' is not a valid number"
  }

  function InvalidPortMsg(data: PortValue): string
  {
    "Invalid port '" + Text(data) + "'"
  }

  /** `_validate_tcp_port` as written: when `int(data)` fails, the message
      is set but the range check then reads `val`, which was never
      assigned. */
  function ValidateTcpPortAsWritten(data: PortValue): Outcome
  {
    if data.Absent? then Accepted
    else match ToInt(data)
         case None => Raises("UnboundLocalError")
         case Some(val) => if val <= 0 || val > MaxPort then Rejected(InvalidPortMsg(data)) else Accepted
  }

  /** Called directly (as the validator registered under
      `type:tcp_port_or_none`), a port that is not a number makes the
      validator as written raise instead of returning its message: every
      value `int()` refuses does, the text `http` and a list among them. */
  lemma NonNumericPortRaises()
    ensures forall data: PortValue | !data.Absent? && ToInt(data).None? ::
              ValidateTcpPortAsWritten(data) == Raises("UnboundLocalError")
    ensures ValidateTcpPortAsWritten(StrValue("http")) == Raises("UnboundLocalError")
    ensures ValidateTcpPortAsWritten(OtherValue("[80]")) == Raises("UnboundLocalError")
  {
    var h := "http";
    assert h[0] !in Whitespace;
    assert StripLeft(h) == h;
    assert h[|h| - 1] !in Whitespace;
    assert StripRight(h) == h;
    assert !IsDigit(Strip(h)[0]);
  }

  /** `_validate_tcp_port` as evidently intended: a value that is not a
      number gets its message, and only a number is range-checked. */
  function ValidateTcpPort(data: PortValue): Outcome
  {
    if data.Absent? then Accepted
    else match ToInt(data)
         case None => Rejected(InvalidNumberMsg(data))
         case Some(val) => if val <= 0 || val > MaxPort then Rejected(InvalidPortMsg(data)) else Accepted
  }

  /** The validator never raises; it accepts exactly None and the numbers
      1 to 65535, and rejects everything else with the message naming the
      reason. */
  lemma ValidateTcpPortSpec(data: PortValue)
    ensures !ValidateTcpPort(data).Raises?
    ensures ValidateTcpPort(data).Accepted?
            <==> data.Absent? || (ToInt(data).Some? && 1 <= ToInt(data).value <= MaxPort)
    ensures !data.Absent? && ToInt(data).None? ==> ValidateTcpPort(data) == Rejected(InvalidNumberMsg(data))
    ensures ToInt(data).Some? && (ToInt(data).value < 1 || ToInt(data).value > MaxPort) ==>
              ValidateTcpPort(data) == Rejected(InvalidPortMsg(data))
  {
  }

  /** The written and the intended validator agree on every value that is
      absent or a number. */
  lemma AsWrittenAgreesOnNumbers(data: PortValue)
    requires data.Absent? || ToInt(data).Some?
    ensures ValidateTcpPortAsWritten(data) == ValidateTcpPort(data)
  {
  }

  /** A label request's `tcp_port` on the API path: the attribute's
      `convert_to_int_if_not_none` runs before the validator, turning a
      value into `int(data)` and refusing with InvalidInput a value
      `int()` refuses, so the validator sees only None or an integer. */
  function ApiTcpPortCheck(data: PortValue): Outcome
  {
    if data.Absent? then ValidateTcpPortAsWritten(Absent)
    else match ToInt(data)
         case None => Raises("InvalidInput")
         case Some(i) => ValidateTcpPortAsWritten(IntValue(i))
  }

  /** The converter hides the defect: on the API path the validator as
      written never raises, a port is accepted iff it is None or a number
      from 1 to 65535, and a value that is not a number is refused by the
      converter. */
  lemma ApiPathHidesDefect(data: PortValue)
    ensures ApiTcpPortCheck(data) != Raises("UnboundLocalError")
    ensures ApiTcpPortCheck(data).Accepted?
            <==> data.Absent? || (ToInt(data).Some? && 1 <= ToInt(data).value <= MaxPort)
    ensures !data.Absent? && ToInt(data).None? ==> ApiTcpPortCheck(data) == Raises("InvalidInput")
  {
    if !data.Absent? && ToInt(data).Some? {
      AsWrittenAgreesOnNumbers(IntValue(ToInt(data).value));
      ValidateTcpPortSpec(IntValue(ToInt(data).value));
    }
  }

  /** Every port number, given as an integer or as its decimal text, is
      accepted and read back as itself. */
  lemma PortNumbersAccepted(port: int)
    requires 1 <= port <= MaxPort
    ensures ValidateTcpPort(IntValue(port)) == Accepted
    ensures ToInt(StrValue(IntToString(port))) == Some(port)
    ensures ValidateTcpPort(StrValue(IntToString(port))) == Accepted
  {
    ParseIntOfNatToString(port);
  }

  /** The attribute checks of a label: its direction is one of the two
      listed values and its port passes the port validator. */
  predicate LabelAttributesAccepted(direction: string, tcpPort: PortValue)
  {
    direction in Directions && ValidateTcpPort(tcpPort).Accepted?
  }

  /** An accepted label counts ingress or egress traffic, on no port or on
      one valid port. */
  lemma AcceptedLabelShape(direction: string, tcpPort: PortValue)
    ensures LabelAttributesAccepted(direction, tcpPort)
            <==> (direction == "ingress" || direction == "egress")
                 && (tcpPort.Absent? || (ToInt(tcpPort).Some? && 0 < ToInt(tcpPort).value <= MaxPort))
  {
    ValidateTcpPortSpec(tcpPort);
  }
}
