/** The stand-alone printer: connects and disconnects, prints by using five
    units of ink, and refills without needing a connection. */
module Printers {
  import opened Devices

  /** The observable state of a printer. */
  datatype PrinterState = PrinterState(
    model: string,
    connection: ConnectionType,
    connected: bool,
    ink: int)

  /** What construction establishes and every operation keeps. */
  predicate ValidState(s: PrinterState) {
    !IsBlank(s.model) && InkInRange(s.ink)
  }

  /** Construction: the model must not be blank, then the ink must be in
      range; a new printer starts disconnected. */
  function NewPrinter(model: string, inkLevel: int, typeConnection: ConnectionType)
    : (r: Result<PrinterState, ConstructError>)
    ensures r.Success? <==> !IsBlank(model) && InkInRange(inkLevel)
    ensures r.Success? ==> r.value == PrinterState(model, typeConnection, false, inkLevel)
    ensures r.Success? ==> ValidState(r.value)
    ensures IsBlank(model) ==> r == Failure(BlankModel)
    ensures !IsBlank(model) && !InkInRange(inkLevel) ==> r == Failure(InkOutOfRange(inkLevel))
  {
    if IsBlank(model) then Failure(BlankModel)
    else if inkLevel > MaxInkLevel || inkLevel < MinInkLevel then Failure(InkOutOfRange(inkLevel))
    else Success(PrinterState(model, typeConnection, false, inkLevel))
  }

  /** The one-argument constructor: a full, Ethernet-attached printer. */
  function NewPrinterWithModel(model: string): (r: Result<PrinterState, ConstructError>)
    ensures r.Success? <==> !IsBlank(model)
    ensures r.Success? ==> r.value.model == model && r.value.ink == MaxInkLevel
    ensures r.Success? ==> r.value.connection == Ethernet && !r.value.connected
    ensures r.Failure? ==> r.error == BlankModel
  {
    NewPrinter(model, MaxInkLevel, Ethernet)
  }

  // Connect and Disconnect, and RunKeepsValid below, are written out again in
  // the other device modules, as the source repeats them in each class.
  function ConnectStep(s: PrinterState): (r: PrinterState)
    ensures r.connected
    ensures r.(connected := s.connected) == s
  {
    s.(connected := true)
  }

  function DisconnectStep(s: PrinterState): (r: PrinterState)
    ensures !r.connected
    ensures r.(connected := s.connected) == s
  {
    s.(connected := false)
  }

  /** Printing checks the document before the connection, then the ink. */
  function PrintStep(s: PrinterState, document: string): (r: (PrinterState, PrintOutcome))
    ensures r.0 == s.(ink := r.0.ink)
    ensures r.1.Printed? <==> !IsBlank(document) && s.connected && s.ink > EmptyInkThreshold
    ensures r.0.ink == if r.1.Printed? then s.ink - InkPerPrint else s.ink
    ensures r.1.Printed? ==> r.1.remaining == r.0.ink
    ensures r.1.Printed? ==> (r.1.lowInkWarning <==> s.ink <= LowInkThreshold)
    ensures IsBlank(document) ==> r.1 == PrintDeclined(EmptyDocument)
    ensures !IsBlank(document) && !s.connected ==> r.1 == PrintDeclined(NotConnected)
    ensures !IsBlank(document) && s.connected && s.ink <= EmptyInkThreshold ==>
              r.1 == PrintDeclined(OutOfInk(s.ink))
    ensures ValidState(s) ==> ValidState(r.0)
  {
    if IsBlank(document) then (s, PrintDeclined(EmptyDocument))
    else if !s.connected then (s, PrintDeclined(NotConnected))
    else
      var o := DrawInk(s.ink);
      (s.(ink := InkAfterPrint(s.ink, o)), o)
  }

  /** Refilling checks the amount and the sum; the connection is not consulted. */
  function RefillStep(s: PrinterState, amount: int): (r: (PrinterState, RefillOutcome))
    ensures r.0 == s.(ink := r.0.ink)
    ensures r.1.Refilled? <==> MinInkLevel <= amount <= MaxInkLevel && s.ink + amount <= MaxInkLevel
    ensures r.0.ink == if r.1.Refilled? then s.ink + amount else s.ink
    ensures r.1.Refilled? ==> r.1.level == r.0.ink
    ensures !InkInRange(amount) ==> r.1 == RefillDeclined(AmountOutOfRange(amount))
    ensures InkInRange(amount) && s.ink + amount > MaxInkLevel ==>
              r.1 == RefillDeclined(WouldExceedMax(amount, s.ink))
    ensures ValidState(s) ==> ValidState(r.0)
  {
    var o := AddInk(s.ink, amount);
    (s.(ink := InkAfterRefill(s.ink, o)), o)
  }

  /** The calls a client can make on a printer, the public setter included. */
  datatype PrinterOp =
    | Connect
    | Disconnect
    | Print(document: string)
    | RefillInk(amount: int)
    | SetTypeConnection(typeConnection: ConnectionType)

  function Apply(s: PrinterState, op: PrinterOp): PrinterState {
    match op
    case Connect => ConnectStep(s)
    case Disconnect => DisconnectStep(s)
    case Print(d) => PrintStep(s, d).0
    case RefillInk(a) => RefillStep(s, a).0
    case SetTypeConnection(t) => s.(connection := t)
  }

  /** The state after a client's calls, in order. */
  function Run(s: PrinterState, ops: seq<PrinterOp>): PrinterState
    decreases |ops|
  {
    if ops == [] then s else Run(Apply(s, ops[0]), ops[1..])
  }

  /** The connection flag after some calls: that of the last Connect or
      Disconnect among them, or the initial one if there is none. */
  function LastConnectivity(connected: bool, ops: seq<PrinterOp>): bool
    decreases |ops|
  {
    if ops == [] then connected
    else if ops[|ops| - 1].Connect? then true
    else if ops[|ops| - 1].Disconnect? then false
    else LastConnectivity(connected, ops[..|ops| - 1])
  }

  lemma {:induction false} RunAppend(s: PrinterState, ops: seq<PrinterOp>, op: PrinterOp)
    ensures Run(s, ops + [op]) == Apply(Run(s, ops), op)
    decreases |ops|
  {
    if ops == [] {
      assert ops + [op] == [op];
    } else {
      assert (ops + [op])[1..] == ops[1..] + [op];
      RunAppend(Apply(s, ops[0]), ops[1..], op);
    }
  }

  /** The ink stays in [0, 100] and the model stays non-blank whatever the
      client calls. */
  lemma {:induction false} RunKeepsValid(s: PrinterState, ops: seq<PrinterOp>)
    requires ValidState(s)
    ensures ValidState(Run(s, ops))
    decreases |ops|
  {
    if ops != [] {
      var t := Apply(s, ops[0]);
      assert ValidState(t) by {
        match ops[0]
        case Print(d) => assert t == PrintStep(s, d).0;
        case RefillInk(a) => assert t == RefillStep(s, a).0;
        case _ =>
      }
      RunKeepsValid(t, ops[1..]);
    }
  }

  /** Only Connect and Disconnect change the connection flag, and neither
      depends on it: the last of them decides it. */
  lemma {:induction false} RunConnectivity(s: PrinterState, ops: seq<PrinterOp>)
    ensures Run(s, ops).connected == LastConnectivity(s.connected, ops)
    decreases |ops|
  {
    if ops != [] {
      var init := ops[..|ops| - 1];
      assert ops == init + [ops[|ops| - 1]];
      RunAppend(s, init, ops[|ops| - 1]);
      RunConnectivity(s, init);
    }
  }

  /** The model named at construction never changes. */
  lemma {:induction false} RunKeepsModel(s: PrinterState, ops: seq<PrinterOp>)
    ensures Run(s, ops).model == s.model
    decreases |ops|
  {
    if ops != [] {
      RunKeepsModel(Apply(s, ops[0]), ops[1..]);
    }
  }

  /** A printer object: the fields the source class updates in place. */
  class Printer {
    var model: string
    var typeConnection: ConnectionType
    var isConnected: bool
    var inkLevel: int

    function State(): PrinterState
      reads this
    {
      PrinterState(model, typeConnection, isConnected, inkLevel)
    }

    ghost predicate Valid()
      reads this
    {
      ValidState(State())
    }

    /** The validated constructor: only arguments it accepts reach it. */
    constructor (model: string, inkLevel: int, typeConnection: ConnectionType)
      requires NewPrinter(model, inkLevel, typeConnection).Success?
      ensures State() == NewPrinter(model, inkLevel, typeConnection).value
      ensures Valid()
    {
      this.model := model;
      this.typeConnection := typeConnection;
      this.inkLevel := inkLevel;
      this.isConnected := false;
    }

    /** `new Printer(model, inkLevel, typeConnection)`: a fresh printer, or the
        argument the constructor throws for. */
    static method Create(model: string, inkLevel: int, typeConnection: ConnectionType := Ethernet)
      returns (r: Result<Printer, ConstructError>)
      ensures r.Success? <==> NewPrinter(model, inkLevel, typeConnection).Success?
      ensures r.Success? ==> fresh(r.value) && r.value.Valid()
      ensures r.Success? ==> r.value.State() == NewPrinter(model, inkLevel, typeConnection).value
      ensures r.Failure? ==> r.error == NewPrinter(model, inkLevel, typeConnection).error
    {
      if IsBlank(model) {
        return Failure(BlankModel);
      }
      if inkLevel > MaxInkLevel || inkLevel < MinInkLevel {
        return Failure(InkOutOfRange(inkLevel));
      }
      var p := new Printer(model, inkLevel, typeConnection);
      return Success(p);
    }

    /** `new Printer(model)`: full ink, Ethernet. */
    static method CreateWithModel(model: string) returns (r: Result<Printer, ConstructError>)
      ensures r.Success? <==> NewPrinterWithModel(model).Success?
      ensures r.Success? ==> fresh(r.value) && r.value.Valid()
      ensures r.Success? ==> r.value.State() == NewPrinterWithModel(model).value
      ensures r.Failure? ==> r.error == NewPrinterWithModel(model).error
    {
      r := Create(model, MaxInkLevel, Ethernet);
    }

    method SetTypeConnection(t: ConnectionType)
      modifies this
      ensures State() == old(State()).(connection := t)
    {
      typeConnection := t;
    }

    method Connect()
      modifies this
      ensures State() == ConnectStep(old(State()))
    {
      isConnected := true;
    }

    method Disconnect()
      modifies this
      ensures State() == DisconnectStep(old(State()))
    {
      isConnected := false;
    }

    method Print(document: string) returns (o: PrintOutcome)
      modifies this
      ensures old(Valid()) ==> Valid()
      ensures (State(), o) == PrintStep(old(State()), document)
    {
      if IsBlank(document) {
        return PrintDeclined(EmptyDocument);
      }
      if !isConnected {
        return PrintDeclined(NotConnected);
      }
      if inkLevel <= EmptyInkThreshold {
        return PrintDeclined(OutOfInk(inkLevel));
      }
      var lowInk := inkLevel <= LowInkThreshold;
      inkLevel := inkLevel - InkPerPrint;
      return Printed(lowInk, inkLevel);
    }

    method RefillInk(amount: int) returns (o: RefillOutcome)
      modifies this
      ensures old(Valid()) ==> Valid()
      ensures (State(), o) == RefillStep(old(State()), amount)
    {
      if amount > MaxInkLevel || amount < MinInkLevel {
        return RefillDeclined(AmountOutOfRange(amount));
      }
      if inkLevel + amount > MaxInkLevel {
        return RefillDeclined(WouldExceedMax(amount, inkLevel));
      }
      inkLevel := inkLevel + amount;
      return Refilled(inkLevel);
    }
  }
}
