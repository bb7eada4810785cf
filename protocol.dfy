/**
 * The pure decisions of the terminal: which received tokens answer a command, which command starts
 * a rotation, and which port name the operator's input selects.
 */
module Protocol {
  import opened Basics

  const MinInt32: int := -0x8000_0000
  const MaxInt32: int := 0x7FFF_FFFF

  /** The acknowledgements the table sends in answer to a command. */
  const StatusWords: set<string> := {"OK", "ERR", "READY", "BUSY", "UNKNOWN"}

  /** The prefix of the command that starts a rotation ("FM <steps>"). */
  const RotationCommandPrefix: string := "FM "

  /** The acknowledgement after which the rotation watchdog is armed. */
  const RotationAccepted: string := "OK"

  /** Progress, completion and failure tokens the table sends while rotating. */
  const PositionPrefix: string := "POS "
  const RotationEnd: string := "END"
  const RotationError: string := "MOVERR"

  predicate StartsWith(s: string, prefix: string) {
    |prefix| <= |s| && s[..|prefix|] == prefix
  }

  predicate EndsWith(s: string, suffix: string) {
    |suffix| <= |s| && s[|s| - |suffix|..] == suffix
  }

  // ---------------------------------------------------------------------------------------------
  // int.TryParse: an optional sign followed by one or more decimal digits, within the Int32 range

  predicate IsDigit(c: char) {
    '0' <= c <= '9'
  }

  predicate AllDigits(s: string) {
    forall i :: 0 <= i < |s| ==> IsDigit(s[i])
  }

  function DigitValue(c: char): nat
    requires IsDigit(c)
  {
    c as int - '0' as int
  }

  /** The number a string of decimal digits denotes, most significant digit first. */
  function ValueOfDigits(s: string): nat
    requires AllDigits(s)
    decreases |s|
  {
    if s == [] then 0 else 10 * ValueOfDigits(s[..|s| - 1]) + DigitValue(s[|s| - 1])
  }

  /** The digits after an optional leading sign. */
  function Magnitude(s: string): string {
    if |s| > 0 && (s[0] == '-' || s[0] == '+') then s[1..] else s
  }

  /** `int.TryParse(s, out _)`, with `Some` for success. */
  function ParseInt32(s: string): (r: Option<int>)
    ensures r.Some? ==> MinInt32 <= r.value <= MaxInt32
    ensures r.Some? ==> s != "" && IsDigit(s[|s| - 1])
    ensures r.Some? ==> Magnitude(s) != "" && AllDigits(Magnitude(s))
  {
    var digits := Magnitude(s);
    if digits == [] || !AllDigits(digits) then None
    else
      var m: int := ValueOfDigits(digits);
      var v := if s[0] == '-' then -m else m;
      if MinInt32 <= v <= MaxInt32 then Some(v) else None
  }

  /** The decimal digits of `n`, without leading zeros. */
  function FormatNat(n: nat): (r: string)
    ensures r != [] && AllDigits(r) && ValueOfDigits(r) == n
    ensures |r| > 1 ==> r[0] != '0'
    decreases n
  {
    var d := ['0' + (n % 10) as char];
    if n < 10 then d
    else
      var r := FormatNat(n / 10) + d;
      assert r[..|r| - 1] == FormatNat(n / 10);
      r
  }

  /** How the table writes a signed number: a minus sign for negative values, then the digits. */
  function FormatInt(n: int): string {
    if n < 0 then "-" + FormatNat(-n) else FormatNat(n)
  }

  /** Every Int32 the table prints is read back as that same number. */
  lemma ParseFormatRoundTrip(n: int)
    requires MinInt32 <= n <= MaxInt32
    ensures ParseInt32(FormatInt(n)) == Some(n)
  {
    var s := FormatInt(n);
    if n < 0 {
      assert Magnitude(s) == FormatNat(-n);
    } else {
      assert Magnitude(s) == FormatNat(n);
    }
  }

  // ---------------------------------------------------------------------------------------------
  // Classification

  /** A token answers a pending command when it is an Int32 literal or one of the status words. */
  predicate IsAcceptedResponse(token: string) {
    ParseInt32(token).Some? || token in StatusWords
  }

  /** No accepted token is empty, so "the response slot is null or empty" means "nothing accepted yet". */
  lemma AcceptedResponseNotEmpty(token: string)
    requires IsAcceptedResponse(token)
    ensures token != ""
  {
  }

  /** The progress, completion and error tokens of a rotation never answer a command. */
  lemma RotationTokensIgnored(token: string)
    requires StartsWith(token, PositionPrefix) || token == RotationEnd || token == RotationError
    ensures !IsAcceptedResponse(token)
  {
    assert token[0] in {'P', 'E', 'M'};
  }

  /**
   * A sign (or none) followed by decimal digits parses to the signed value of the digits exactly
   * when that value fits in an Int32.
   */
  lemma ParseSignedDigits(sign: string, digits: string)
    requires sign in {"", "+", "-"} && digits != "" && AllDigits(digits)
    ensures var v := if sign == "-" then -(ValueOfDigits(digits) as int) else ValueOfDigits(digits);
      ParseInt32(sign + digits) == if MinInt32 <= v <= MaxInt32 then Some(v) else None
  {
    var s := sign + digits;
    assert Magnitude(s) == digits;
    assert s[0] == '-' <==> sign == "-";
  }

  /** Numbers outside the Int32 range do not answer a command, whatever their sign. */
  lemma OutOfRangeIgnored(digits: string, sign: string)
    requires digits != "" && AllDigits(digits)
    requires if sign == "-" then ValueOfDigits(digits) > MaxInt32 + 1 else ValueOfDigits(digits) > MaxInt32
    requires sign in {"", "+", "-"}
    ensures !IsAcceptedResponse(sign + digits)
  {
    var s := sign + digits;
    ParseSignedDigits(sign, digits);
    assert s[|s| - 1] == digits[|digits| - 1];
    StatusWordsEndInLetters(s);
  }

  /** Every status word ends in a letter, so nothing that ends in a digit is one. */
  lemma StatusWordsEndInLetters(s: string)
    requires s != "" && IsDigit(s[|s| - 1])
    ensures s !in StatusWords
  {
  }

  /** A token that does not begin with P is not a progress report. */
  lemma NotPositionReport(token: string)
    requires token != "" && token[0] != 'P'
    ensures !StartsWith(token, PositionPrefix)
  {
    assert PositionPrefix[0] == 'P';
  }

  /** Whether a command starts a rotation. */
  predicate IsRotationStart(command: string) {
    StartsWith(command, RotationCommandPrefix)
  }

  // ---------------------------------------------------------------------------------------------
  // Port name selection

  /** The ASCII part of `char.ToLower`. */
  function LowerAscii(c: char): char {
    if 'A' <= c <= 'Z' then (c as int + 32) as char else c
  }

  function ToLower(s: string): (r: string)
    ensures |r| == |s|
  {
    seq(|s|, i requires 0 <= i < |s| => LowerAscii(s[i]))
  }

  /** A name whose first three letters spell "com" in any mixture of cases. */
  predicate NamesComPort(name: string) {
    |name| >= 3 && LowerAscii(name[0]) == 'c' && LowerAscii(name[1]) == 'o' && LowerAscii(name[2]) == 'm'
  }

  /** `portName.ToLower()` on the null that `Console.ReadLine` returns at the end of input. */
  datatype PortNameError = NullInput

  /** The port name chosen from the operator's line; the default is kept unless the line names a COM port. */
  function SetPortName(defaultPortName: string, typed: Option<string>): (r: Result<string, PortNameError>)
    ensures r.Err? <==> typed.None?
    ensures typed.Some? && NamesComPort(typed.value) ==> r == Ok(typed.value)
    ensures typed.Some? && !NamesComPort(typed.value) ==> r == Ok(defaultPortName)
  {
    match typed
    case None => Err(NullInput)
    case Some(portName) =>
      var lower := ToLower(portName);
      assert StartsWith(lower, "com") <==> NamesComPort(portName) by {
        if |lower| >= 3 {
          assert lower[..3] == [lower[0], lower[1], lower[2]];
        }
      }
      if portName == "" || !StartsWith(lower, "com") then Ok(defaultPortName) else Ok(portName)
  }
}
