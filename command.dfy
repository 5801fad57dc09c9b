/**
 * `send_motor_command` in 3DOFHover.py: the three entry texts are converted
 * with Python's `int()` in argument order x, y, z, and the MANUAL_CONTROL
 * message is sent with those values, rotation 0 and buttons 0; only then is
 * the status label set to "Command Sent!". The conversion raises ValueError
 * on text that is not an integer literal, before any send and before the
 * label changes. No range check is made on the values.
 */
module Command {
  import opened Wrappers

  predicate IsDigit(c: char) {
    '0' <= c <= '9'
  }

  function DigitValue(c: char): (d: nat)
    requires IsDigit(c)
  {
    (c as int) - ('0' as int)
  }

  function DigitChar(d: nat): (c: char)
    requires d < 10
    ensures IsDigit(c) && DigitValue(c) == d
  {
    (('0' as int) + d) as char
  }

  predicate AllDigits(s: string) {
    forall i :: 0 <= i < |s| ==> IsDigit(s[i])
  }

  function Pow10(n: nat): (p: nat)
    ensures p >= 1
  {
    if n == 0 then 1 else 10 * Pow10(n - 1)
  }

  /** Positional value of a digit string, most significant digit first. */
  function DigitsValue(s: string): (v: nat)
    requires AllDigits(s)
  {
    if s == [] then 0 else DigitValue(s[0]) * Pow10(|s| - 1) + DigitsValue(s[1..])
  }

  /** The digits after an optional leading sign. */
  function Magnitude(s: string): (digits: string) {
    if s != [] && (s[0] == '+' || s[0] == '-') then s[1..] else s
  }

  /** Reference syntax of an accepted entry: an optional sign, then one or more decimal digits. */
  predicate IsIntLiteral(s: string) {
    Magnitude(s) != [] && AllDigits(Magnitude(s))
  }

  /** Reference meaning of an accepted entry. */
  function LiteralValue(s: string): (v: int)
    requires IsIntLiteral(s)
  {
    if s[0] == '-' then -(DigitsValue(Magnitude(s)) as int) else DigitsValue(Magnitude(s))
  }

  /** Appending a digit shifts the value one decimal place. */
  lemma {:induction false} DigitsValueSnoc(s: string, c: char)
    requires AllDigits(s) && IsDigit(c)
    ensures AllDigits(s + [c])
    ensures DigitsValue(s + [c]) == DigitsValue(s) * 10 + DigitValue(c)
    decreases |s|
  {
    assert AllDigits(s + [c]);
    if s != [] {
      assert (s + [c])[1..] == s[1..] + [c];
      DigitsValueSnoc(s[1..], c);
      calc {
        DigitsValue(s + [c]);
        DigitValue(s[0]) * Pow10(|s|) + DigitsValue(s[1..] + [c]);
        DigitValue(s[0]) * (10 * Pow10(|s| - 1)) + DigitsValue(s[1..]) * 10 + DigitValue(c);
        (DigitValue(s[0]) * Pow10(|s| - 1) + DigitsValue(s[1..])) * 10 + DigitValue(c);
      }
    } else {
      assert s + [c] == [c];
    }
  }

  /**
   * Unsigned conversion as a scan: each digit read multiplies the value read
   * so far by ten and adds the digit; any other character, or no digit at
   * all, is a failure.
   */
  function ParseDigits(s: string): (r: Option<nat>)
    ensures r.Some? <==> s != [] && AllDigits(s)
    ensures r.Some? ==> r.value == DigitsValue(s)
    decreases |s|
  {
    if s == [] || !IsDigit(s[|s| - 1]) then None
    else
      var init := s[..|s| - 1];
      assert s == init + [s[|s| - 1]];
      if init == [] then
        assert DigitsValue(s) == DigitValue(s[0]);
        Some(DigitValue(s[0]))
      else
        match ParseDigits(init)
        case None => None
        case Some(v) =>
          DigitsValueSnoc(init, s[|s| - 1]);
          Some(v * 10 + DigitValue(s[|s| - 1]))
  }

  /**
   * `int(text)` on an entry: an optional sign followed by the digits.
   * Whitespace and `_` separators, which Python also accepts, are rejected.
   */
  function ParseInt(s: string): (r: Option<int>)
    ensures r.Some? <==> IsIntLiteral(s)
    ensures r.Some? ==> r.value == LiteralValue(s)
  {
    match ParseDigits(Magnitude(s))
    case None => None
    case Some(v) => Some(if s[0] == '-' then -(v as int) else v)
  }

  /** Python's `str` of a natural number: its shortest decimal spelling. */
  function FormatNat(n: nat): (s: string)
    ensures s != [] && AllDigits(s)
  {
    if n < 10 then [DigitChar(n)] else FormatNat(n / 10) + [DigitChar(n % 10)]
  }

  /** Python's `str` of an integer: a minus sign for negatives, then the digits. */
  function FormatInt(n: int): (s: string)
    ensures s != [] && (s[0] == '-' <==> n < 0)
  {
    if n < 0 then "-" + FormatNat(-n) else FormatNat(n)
  }

  lemma {:induction false} ParseFormatNat(n: nat)
    ensures ParseDigits(FormatNat(n)) == Some(n)
    decreases n
  {
    if n >= 10 {
      var s := FormatNat(n);
      assert s[..|s| - 1] == FormatNat(n / 10);
      ParseFormatNat(n / 10);
    }
  }

  /** Every integer written out the way `str` writes it is read back by the entry conversion. */
  lemma ParseFormatInt(n: int)
    ensures ParseInt(FormatInt(n)) == Some(n)
  {
    if n < 0 {
      assert Magnitude(FormatInt(n)) == FormatNat(-n);
      ParseFormatNat(-n);
    } else {
      assert Magnitude(FormatInt(n)) == FormatNat(n);
      ParseFormatNat(n);
    }
  }

  /** The three entry fields, in the order their conversions are evaluated. */
  datatype Axis = X | Y | Z

  /** The ValueError raised by the first entry whose text is not an integer literal. */
  datatype ValueError = InvalidLiteral(axis: Axis, text: string)

  /** Arguments of one MANUAL_CONTROL send: target system, x, y, z, rotation, buttons. */
  datatype ManualControl = ManualControl(target: int, x: int, y: int, z: int, r: int, buttons: int)

  /**
   * Evaluating the arguments of `manual_control_send` for target system
   * `target` and the entry texts `ex`, `ey`, `ez`.
   */
  function BuildCommand(target: int, ex: string, ey: string, ez: string): (r: Result<ManualControl, ValueError>)
    ensures r.Success? <==> IsIntLiteral(ex) && IsIntLiteral(ey) && IsIntLiteral(ez)
    ensures r.Success? ==>
      r.value == ManualControl(target, LiteralValue(ex), LiteralValue(ey), LiteralValue(ez), 0, 0)
    ensures r.Failure? && !IsIntLiteral(ex) ==> r.error == InvalidLiteral(X, ex)
    ensures r.Failure? && IsIntLiteral(ex) && !IsIntLiteral(ey) ==> r.error == InvalidLiteral(Y, ey)
    ensures r.Failure? && IsIntLiteral(ex) && IsIntLiteral(ey) ==> r.error == InvalidLiteral(Z, ez)
  {
    match ParseInt(ex)
    case None => Failure(InvalidLiteral(X, ex))
    case Some(x) =>
      match ParseInt(ey)
      case None => Failure(InvalidLiteral(Y, ey))
      case Some(y) =>
        match ParseInt(ez)
        case None => Failure(InvalidLiteral(Z, ez))
        case Some(z) => Success(ManualControl(target, x, y, z, 0, 0))
  }

  const CommandSent: string := "Command Sent!"

  /** What the motor tab shows to the outside: the sends made so far and the status label. */
  datatype Panel = Panel(sent: seq<ManualControl>, status: string)

  /**
   * Pressing "Send Command": on valid entries one send is recorded and the
   * status becomes "Command Sent!"; on a ValueError neither happens.
   */
  function PressSend(p: Panel, target: int, ex: string, ey: string, ez: string): (q: Panel)
    ensures IsIntLiteral(ex) && IsIntLiteral(ey) && IsIntLiteral(ez) ==>
      q == Panel(p.sent + [ManualControl(target, LiteralValue(ex), LiteralValue(ey), LiteralValue(ez), 0, 0)], CommandSent)
    ensures !(IsIntLiteral(ex) && IsIntLiteral(ey) && IsIntLiteral(ez)) ==> q == p
  {
    match BuildCommand(target, ex, ey, ez)
    case Success(cmd) => Panel(p.sent + [cmd], CommandSent)
    case Failure(_) => p
  }

  /** Integers the operator types as `str` would spell them are sent unchanged, in x, y, z order. */
  lemma SendFormatted(p: Panel, target: int, x: int, y: int, z: int)
    ensures PressSend(p, target, FormatInt(x), FormatInt(y), FormatInt(z))
      == Panel(p.sent + [ManualControl(target, x, y, z, 0, 0)], CommandSent)
  {
    ParseFormatInt(x);
    ParseFormatInt(y);
    ParseFormatInt(z);
  }

  /** The placeholder text the x entry starts with is rejected: no send, status unchanged. */
  lemma PlaceholderRejected(p: Panel, target: int, ey: string, ez: string)
    ensures BuildCommand(target, "X Value", ey, ez) == Failure(InvalidLiteral(X, "X Value"))
    ensures PressSend(p, target, "X Value", ey, ez) == p
  {
  }

  /** Entries "10", "0", "-5" produce exactly one send with (10, 0, -5, 0, 0). */
  lemma SendExample(p: Panel, target: int)
    ensures PressSend(p, target, "10", "0", "-5") == Panel(p.sent + [ManualControl(target, 10, 0, -5, 0, 0)], CommandSent)
  {
  }
}
