/** The multifunction device: prints, refills and scans, and checks the
    connection before anything else in each of the three. */
module PrinterScanners {
  import opened Devices

  /** The observable state of a multifunction device. */
  datatype PrinterScannerState = PrinterScannerState(
    model: string,
    connection: ConnectionType,
    connected: bool,
    ink: int,
    resolution: int)

  /** What every operation keeps: a non-blank model and ink in range. The
      resolution bound holds at construction only (the setter is unchecked). */
  predicate ValidState(s: PrinterScannerState) {
    !IsBlank(s.model) && InkInRange(s.ink)
  }

  /** Construction checks the model, then the ink, then the resolution; a new
      device starts disconnected. */
  function NewPrinterScanner(model: string, typeConnection: ConnectionType, inkLevel: int, scanResolution: int)
    : (r: Result<PrinterScannerState, ConstructError>)
    ensures r.Success? <==> !IsBlank(model) && InkInRange(inkLevel) && ResolutionInRange(scanResolution)
    ensures r.Success? ==>
              r.value == PrinterScannerState(model, typeConnection, false, inkLevel, scanResolution)
    ensures r.Success? ==> ValidState(r.value)
    ensures IsBlank(model) ==> r == Failure(BlankModel)
    ensures !IsBlank(model) && !InkInRange(inkLevel) ==> r == Failure(InkOutOfRange(inkLevel))
    ensures !IsBlank(model) && InkInRange(inkLevel) && !ResolutionInRange(scanResolution) ==>
              r == Failure(ResolutionOutOfRange(scanResolution))
  {
    if IsBlank(model) then Failure(BlankModel)
    else if inkLevel > MaxInkLevel || inkLevel < MinInkLevel then Failure(InkOutOfRange(inkLevel))
    else if scanResolution < MinScanResolution || scanResolution > MaxScanResolution then
      Failure(ResolutionOutOfRange(scanResolution))
    else Success(PrinterScannerState(model, typeConnection, false, inkLevel, scanResolution))
  }

  /** The constructor with every optional argument left out: Wifi, full ink,
      600 dpi. */
  function NewPrinterScannerWithModel(model: string): (r: Result<PrinterScannerState, ConstructError>)
    ensures r.Success? <==> !IsBlank(model)
    ensures r.Success? ==> r.value.model == model && r.value.connection == Wifi && !r.value.connected
    ensures r.Success? ==> r.value.ink == MaxInkLevel && r.value.resolution == DefaultScanResolution
    ensures r.Failure? ==> r.error == BlankModel
  {
    NewPrinterScanner(model, Wifi, MaxInkLevel, DefaultScanResolution)
  }

  // Connect and Disconnect, and RunKeepsValid below, repeat the printer's
  // and the scanner's, as the source repeats them in each class.
  function ConnectStep(s: PrinterScannerState): (r: PrinterScannerState)
    ensures r.connected
    ensures r.(connected := s.connected) == s
  {
    s.(connected := true)
  }

  function DisconnectStep(s: PrinterScannerState): (r: PrinterScannerState)
    ensures !r.connected
    ensures r.(connected := s.connected) == s
  {
    s.(connected := false)
  }

  /** Printing checks the connection before the document, then the ink. */
  function PrintStep(s: PrinterScannerState, document: string): (r: (PrinterScannerState, PrintOutcome))
    ensures r.0 == s.(ink := r.0.ink)
    ensures r.1.Printed? <==> !IsBlank(document) && s.connected && s.ink > EmptyInkThreshold
    ensures r.0.ink == if r.1.Printed? then s.ink - InkPerPrint else s.ink
    ensures r.1.Printed? ==> r.1.remaining == r.0.ink
    ensures r.1.Printed? ==> (r.1.lowInkWarning <==> s.ink <= LowInkThreshold)
    ensures !s.connected ==> r.1 == PrintDeclined(NotConnected)
    ensures s.connected && IsBlank(document) ==> r.1 == PrintDeclined(EmptyDocument)
    ensures s.connected && !IsBlank(document) && s.ink <= EmptyInkThreshold ==>
              r.1 == PrintDeclined(OutOfInk(s.ink))
    ensures ValidState(s) ==> ValidState(r.0)
  {
    if !s.connected then (s, PrintDeclined(NotConnected))
    else if IsBlank(document) then (s, PrintDeclined(EmptyDocument))
    else
      var o := DrawInk(s.ink);
      (s.(ink := InkAfterPrint(s.ink, o)), o)
  }

  /** Refilling needs a connection, checked first; then the amount and the sum. */
  function RefillStep(s: PrinterScannerState, amount: int): (r: (PrinterScannerState, RefillOutcome))
    ensures r.0 == s.(ink := r.0.ink)
    ensures r.1.Refilled? <==>
              s.connected && MinInkLevel <= amount <= MaxInkLevel && s.ink + amount <= MaxInkLevel
    ensures r.0.ink == if r.1.Refilled? then s.ink + amount else s.ink
    ensures r.1.Refilled? ==> r.1.level == r.0.ink
    ensures !s.connected ==> r.1 == RefillDeclined(NotConnected)
    ensures s.connected && !InkInRange(amount) ==> r.1 == RefillDeclined(AmountOutOfRange(amount))
    ensures s.connected && InkInRange(amount) && s.ink + amount > MaxInkLevel ==>
              r.1 == RefillDeclined(WouldExceedMax(amount, s.ink))
    ensures ValidState(s) ==> ValidState(r.0)
  {
    if !s.connected then (s, RefillDeclined(NotConnected))
    else
      var o := AddInk(s.ink, amount);
      (s.(ink := InkAfterRefill(s.ink, o)), o)
  }

  /** Scanning checks the connection before the document and changes nothing. */
  function ScanStep(s: PrinterScannerState, document: string): (o: ScanOutcome)
    ensures o.Scanned? <==> !IsBlank(document) && s.connected
    ensures o.Scanned? ==> o.dpi == s.resolution
    ensures !s.connected ==> o == ScanDeclined(NotConnected)
    ensures s.connected && IsBlank(document) ==> o == ScanDeclined(EmptyDocument)
  {
    if !s.connected then ScanDeclined(NotConnected)
    else if IsBlank(document) then ScanDeclined(EmptyDocument)
    else Scanned(s.resolution)
  }

  /** The calls a client can make on the device, both public setters included. */
  datatype PrinterScannerOp =
    | Connect
    | Disconnect
    | Print(document: string)
    | RefillInk(amount: int)
    | Scan(document: string)
    | SetTypeConnection(typeConnection: ConnectionType)
    | SetScanResolution(scanResolution: int)

  function Apply(s: PrinterScannerState, op: PrinterScannerOp): PrinterScannerState {
    match op
    case Connect => ConnectStep(s)
    case Disconnect => DisconnectStep(s)
    case Print(d) => PrintStep(s, d).0
    case RefillInk(a) => RefillStep(s, a).0
    case Scan(_) => s
    case SetTypeConnection(t) => s.(connection := t)
    case SetScanResolution(r) => s.(resolution := r)
  }

  function Run(s: PrinterScannerState, ops: seq<PrinterScannerOp>): PrinterScannerState
    decreases |ops|
  {
    if ops == [] then s else Run(Apply(s, ops[0]), ops[1..])
  }

  /** The ink stays in [0, 100] and the model stays non-blank whatever the
      client calls. */
  lemma {:induction false} RunKeepsValid(s: PrinterScannerState, ops: seq<PrinterScannerOp>)
    requires ValidState(s)
    ensures ValidState(Run(s, ops))
    decreases |ops|
  {
    if ops != [] {
      var t := Apply(s, ops[0]);
      assert ValidState(t) by {
        match ops[0]
        case Print(d) => assert t == PrintStep(s, d).0;
        case RefillInk(a) => assert t == RefillStep(s, a).0;
        case _ =>
      }
      RunKeepsValid(t, ops[1..]);
    }
  }

  lemma {:induction false} RunAppend(s: PrinterScannerState, ops: seq<PrinterScannerOp>, op: PrinterScannerOp)
    ensures Run(s, ops + [op]) == Apply(Run(s, ops), op)
    decreases |ops|
  {
    if ops == [] {
      assert ops + [op] == [op];
    } else {
      assert (ops + [op])[1..] == ops[1..] + [op];
      RunAppend(Apply(s, ops[0]), ops[1..], op);
    }
  }

  /** The connection flag after some calls: that of the last Connect or
      Disconnect among them, or the initial one if there is none. */
  function LastConnectivity(connected: bool, ops: seq<PrinterScannerOp>): bool
    decreases |ops|
  {
    if ops == [] then connected
    else if ops[|ops| - 1].Connect? then true
    else if ops[|ops| - 1].Disconnect? then false
    else LastConnectivity(connected, ops[..|ops| - 1])
  }

  /** Only Connect and Disconnect change the connection flag, and neither
      depends on it: the last of them decides it. */
  lemma {:induction false} RunConnectivity(s: PrinterScannerState, ops: seq<PrinterScannerOp>)
    ensures Run(s, ops).connected == LastConnectivity(s.connected, ops)
    decreases |ops|
  {
    if ops != [] {
      var init := ops[..|ops| - 1];
      assert ops == init + [ops[|ops| - 1]];
      RunAppend(s, init, ops[|ops| - 1]);
      RunConnectivity(s, init);
    }
  }

  /** While the device stays disconnected, neither printing nor refilling
      touches the ink. */
  lemma {:induction false} DisconnectedKeepsInk(s: PrinterScannerState, ops: seq<PrinterScannerOp>)
    requires !s.connected
    requires forall i :: 0 <= i < |ops| ==> !ops[i].Connect?
    ensures Run(s, ops).ink == s.ink
    ensures !Run(s, ops).connected
    decreases |ops|
  {
    if ops != [] {
      var t := Apply(s, ops[0]);
      assert t.ink == s.ink && !t.connected by {
        match ops[0]
        case Print(d) => assert t == PrintStep(s, d).0;
        case RefillInk(a) => assert t == RefillStep(s, a).0;
        case _ =>
      }
      DisconnectedKeepsInk(t, ops[1..]);
    }
  }

  /** A multifunction device object: the fields the source class updates in place. */
  class PrinterScanner {
    var model: string
    var typeConnection: ConnectionType
    var isConnected: bool
    var inkLevel: int
    var scanResolution: int

    function State(): PrinterScannerState
      reads this
    {
      PrinterScannerState(model, typeConnection, isConnected, inkLevel, scanResolution)
    }

    ghost predicate Valid()
      reads this
    {
      ValidState(State())
    }

    /** The validated constructor: only arguments it accepts reach it. */
    constructor (model: string, typeConnection: ConnectionType, inkLevel: int, scanResolution: int)
      requires NewPrinterScanner(model, typeConnection, inkLevel, scanResolution).Success?
      ensures State() == NewPrinterScanner(model, typeConnection, inkLevel, scanResolution).value
      ensures Valid() && ResolutionInRange(scanResolution)
    {
      this.model := model;
      this.typeConnection := typeConnection;
      this.inkLevel := inkLevel;
      this.scanResolution := scanResolution;
      this.isConnected := false;
    }

    /** `new PrinterScanner(model, typeConnection, inkLevel, scanResolution)`
        with the source's defaults: a fresh device, or the argument the
        constructor throws for. */
    static method Create(
      model: string,
      typeConnection: ConnectionType := Wifi,
      inkLevel: int := MaxInkLevel,
      scanResolution: int := DefaultScanResolution)
      returns (r: Result<PrinterScanner, ConstructError>)
      ensures r.Success? <==> NewPrinterScanner(model, typeConnection, inkLevel, scanResolution).Success?
      ensures r.Success? ==> fresh(r.value) && r.value.Valid()
      ensures r.Success? ==>
                r.value.State() == NewPrinterScanner(model, typeConnection, inkLevel, scanResolution).value
      ensures r.Failure? ==>
                r.error == NewPrinterScanner(model, typeConnection, inkLevel, scanResolution).error
    {
      if IsBlank(model) {
        return Failure(BlankModel);
      }
      if inkLevel > MaxInkLevel || inkLevel < MinInkLevel {
        return Failure(InkOutOfRange(inkLevel));
      }
      if scanResolution < MinScanResolution || scanResolution > MaxScanResolution {
        return Failure(ResolutionOutOfRange(scanResolution));
      }
      var d := new PrinterScanner(model, typeConnection, inkLevel, scanResolution);
      return Success(d);
    }

    method SetTypeConnection(t: ConnectionType)
      modifies this
      ensures State() == old(State()).(connection := t)
    {
      typeConnection := t;
    }

    /** The public, unchecked resolution setter. */
    method SetScanResolution(resolution: int)
      modifies this
      ensures State() == old(State()).(resolution := resolution)
    {
      scanResolution := resolution;
    }

    method Connect()
      modifies this
      ensures State() == ConnectStep(old(State()))
    {
      isConnected := true;
    }

    method Disconnect()
      modifies this
      ensures State() == DisconnectStep(old(State()))
    {
      isConnected := false;
    }

    method Print(document: string) returns (o: PrintOutcome)
      modifies this
      ensures old(Valid()) ==> Valid()
      ensures (State(), o) == PrintStep(old(State()), document)
    {
      if !isConnected {
        return PrintDeclined(NotConnected);
      }
      if IsBlank(document) {
        return PrintDeclined(EmptyDocument);
      }
      if inkLevel <= EmptyInkThreshold {
        return PrintDeclined(OutOfInk(inkLevel));
      }
      var lowInk := inkLevel <= LowInkThreshold;
      inkLevel := inkLevel - InkPerPrint;
      return Printed(lowInk, inkLevel);
    }

    method RefillInk(amount: int) returns (o: RefillOutcome)
      modifies this
      ensures old(Valid()) ==> Valid()
      ensures (State(), o) == RefillStep(old(State()), amount)
    {
      if !isConnected {
        return RefillDeclined(NotConnected);
      }
      if amount > MaxInkLevel || amount < MinInkLevel {
        return RefillDeclined(AmountOutOfRange(amount));
      }
      if inkLevel + amount > MaxInkLevel {
        return RefillDeclined(WouldExceedMax(amount, inkLevel));
      }
      inkLevel := inkLevel + amount;
      return Refilled(inkLevel);
    }

    /** Scanning reads the device and changes nothing (no modifies clause). */
    method Scan(document: string) returns (o: ScanOutcome)
      ensures o == ScanStep(State(), document)
      ensures o.Scanned? <==> !IsBlank(document) && isConnected
      ensures o.Scanned? ==> o.dpi == scanResolution
    {
      if !isConnected {
        return ScanDeclined(NotConnected);
      }
      if IsBlank(document) {
        return ScanDeclined(EmptyDocument);
      }
      return Scanned(scanResolution);
    }
  }
}
