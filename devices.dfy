/** Definitions shared by the three device kinds: the connection types, the
    ink and resolution constants, the blank-text test, the outcome of every
    operation and the ink arithmetic that printing and refilling share. */
module Devices {

  /** The closed set of transports a device can be attached by. */
  datatype ConnectionType = Ethernet | Wifi | Bluetooth | USB

  const MaxInkLevel: int := 100
  const MinInkLevel: int := 0
  const LowInkThreshold: int := 10
  const EmptyInkThreshold: int := 5
  const InkPerPrint: int := 5
  const MinScanResolution: int := 100
  const MaxScanResolution: int := 1200
  const DefaultScanResolution: int := 600

  /** The characters .NET's char.IsWhiteSpace accepts: the control characters
      U+0009 to U+000D, U+0085, and the Unicode space, line and paragraph
      separators. */
  predicate IsWhiteSpace(c: char)
    ensures c == ' ' || c == '\t' || c == '\n' || c == '\r' ==> IsWhiteSpace(c)
    ensures 'A' <= c <= 'Z' || 'a' <= c <= 'z' || '0' <= c <= '9' ==> !IsWhiteSpace(c)
  {
    var n := c as int;
    (0x09 <= n <= 0x0D) || n == 0x20 || n == 0x85 || n == 0xA0 || n == 0x1680
    || (0x2000 <= n <= 0x200A) || n == 0x2028 || n == 0x2029 || n == 0x202F
    || n == 0x205F || n == 0x3000
  }

  /** string.IsNullOrWhiteSpace on a non-null string: empty, or whitespace only. */
  predicate IsBlank(s: string)
    ensures s == "" ==> IsBlank(s)
    ensures |s| > 0 && !IsWhiteSpace(s[0]) ==> !IsBlank(s)
  {
    forall i :: 0 <= i < |s| ==> IsWhiteSpace(s[i])
  }

  /** A text is blank exactly when both of its parts are. */
  lemma BlankConcat(s: string, t: string)
    ensures IsBlank(s + t) <==> IsBlank(s) && IsBlank(t)
  {
    if IsBlank(s) && IsBlank(t) {
      forall i | 0 <= i < |s + t| ensures IsWhiteSpace((s + t)[i]) {
        if i < |s| { assert (s + t)[i] == s[i]; } else { assert (s + t)[i] == t[i - |s|]; }
      }
    }
    if IsBlank(s + t) {
      forall i | 0 <= i < |s| ensures IsWhiteSpace(s[i]) { assert s[i] == (s + t)[i]; }
      forall i | 0 <= i < |t| ensures IsWhiteSpace(t[i]) { assert t[i] == (s + t)[|s| + i]; }
    }
  }

  predicate InkInRange(ink: int) {
    MinInkLevel <= ink <= MaxInkLevel
  }

  predicate ResolutionInRange(resolution: int) {
    MinScanResolution <= resolution <= MaxScanResolution
  }

  /** The argument that a constructor rejected, in the order it checks them. */
  datatype ConstructError =
    | BlankModel
    | InkOutOfRange(inkLevel: int)
    | ResolutionOutOfRange(scanResolution: int)

  datatype Result<+R, +E> = Success(value: R) | Failure(error: E)

  /** Which guard made an operation decline, with the ink level or amount it
      concerns. The device's model, which the source's messages also name, is
      not repeated here. */
  datatype Decline =
    | EmptyDocument
    | NotConnected
    | OutOfInk(level: int)
    | AmountOutOfRange(amount: int)
    | WouldExceedMax(amount: int, level: int)

  /** Printing either went ahead (after a low-ink warning or not), leaving
      `remaining` ink, or declined without touching the ink. */
  datatype PrintOutcome =
    | Printed(lowInkWarning: bool, remaining: int)
    | PrintDeclined(why: Decline)

  datatype RefillOutcome =
    | Refilled(level: int)
    | RefillDeclined(why: Decline)

  datatype ScanOutcome =
    | Scanned(dpi: int)
    | ScanDeclined(why: Decline)

  /** The ink level an outcome leaves behind, starting from `ink`. */
  function InkAfterPrint(ink: int, o: PrintOutcome): int {
    if o.Printed? then o.remaining else ink
  }

  function InkAfterRefill(ink: int, o: RefillOutcome): int {
    if o.Refilled? then o.level else ink
  }

  /** The part of printing that follows the document and connection guards:
      refuse when the ink is at or below the empty threshold, warn when it is
      at or below the low threshold, then use one print's worth of ink. */
  function DrawInk(ink: int): (o: PrintOutcome)
    ensures o.Printed? <==> ink > EmptyInkThreshold
    ensures o.Printed? ==> o.remaining == ink - InkPerPrint
    ensures o.Printed? ==> (o.lowInkWarning <==> ink <= LowInkThreshold)
    ensures !o.Printed? ==> o == PrintDeclined(OutOfInk(ink))
    ensures InkInRange(ink) ==> InkInRange(InkAfterPrint(ink, o))
  {
    if ink <= EmptyInkThreshold then PrintDeclined(OutOfInk(ink))
    else Printed(ink <= LowInkThreshold, ink - InkPerPrint)
  }

  /** The part of refilling that follows any connection guard: the amount
      must lie in [MinInkLevel, MaxInkLevel] and the sum must not pass
      MaxInkLevel. */
  function AddInk(ink: int, amount: int): (o: RefillOutcome)
    ensures o.Refilled? <==> MinInkLevel <= amount <= MaxInkLevel && ink + amount <= MaxInkLevel
    ensures o.Refilled? ==> o.level == ink + amount
    ensures !InkInRange(amount) ==> o == RefillDeclined(AmountOutOfRange(amount))
    ensures InkInRange(amount) && ink + amount > MaxInkLevel ==>
              o == RefillDeclined(WouldExceedMax(amount, ink))
    ensures InkInRange(ink) ==> InkInRange(InkAfterRefill(ink, o))
  {
    if amount > MaxInkLevel || amount < MinInkLevel then RefillDeclined(AmountOutOfRange(amount))
    else if ink + amount > MaxInkLevel then RefillDeclined(WouldExceedMax(amount, ink))
    else Refilled(ink + amount)
  }
}
