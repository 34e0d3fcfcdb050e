/** The stand-alone scanner: connects and disconnects, and scans at its
    current resolution without changing anything. */
module Scanners {
  import opened Devices

  /** The observable state of a scanner. */
  datatype ScannerState = ScannerState(
    model: string,
    connection: ConnectionType,
    connected: bool,
    resolution: int)

  /** What every operation keeps: a non-blank model. The resolution bound
      holds at construction only, since the public setter does not check it. */
  predicate ValidState(s: ScannerState) {
    !IsBlank(s.model)
  }

  /** Construction: the model must not be blank, then the resolution must be
      in range; a new scanner starts disconnected. */
  function NewScanner(model: string, scanResolution: int, typeConnection: ConnectionType)
    : (r: Result<ScannerState, ConstructError>)
    ensures r.Success? <==> !IsBlank(model) && ResolutionInRange(scanResolution)
    ensures r.Success? ==> r.value == ScannerState(model, typeConnection, false, scanResolution)
    ensures r.Success? ==> ValidState(r.value)
    ensures IsBlank(model) ==> r == Failure(BlankModel)
    ensures !IsBlank(model) && !ResolutionInRange(scanResolution) ==>
              r == Failure(ResolutionOutOfRange(scanResolution))
  {
    if IsBlank(model) then Failure(BlankModel)
    else if scanResolution < MinScanResolution || scanResolution > MaxScanResolution then
      Failure(ResolutionOutOfRange(scanResolution))
    else Success(ScannerState(model, typeConnection, false, scanResolution))
  }

  /** The one-argument constructor: lowest resolution, Ethernet. */
  function NewScannerWithModel(model: string): (r: Result<ScannerState, ConstructError>)
    ensures r.Success? <==> !IsBlank(model)
    ensures r.Success? ==> r.value.model == model && r.value.resolution == MinScanResolution
    ensures r.Success? ==> r.value.connection == Ethernet && !r.value.connected
    ensures r.Failure? ==> r.error == BlankModel
  {
    NewScanner(model, MinScanResolution, Ethernet)
  }

  // Connect and Disconnect repeat, per device, what the source repeats in
  // each class.
  function ConnectStep(s: ScannerState): (r: ScannerState)
    ensures r.connected
    ensures r.(connected := s.connected) == s
  {
    s.(connected := true)
  }

  function DisconnectStep(s: ScannerState): (r: ScannerState)
    ensures !r.connected
    ensures r.(connected := s.connected) == s
  {
    s.(connected := false)
  }

  /** Scanning checks the document before the connection and changes
      nothing; it reports the current resolution. */
  function ScanStep(s: ScannerState, document: string): (o: ScanOutcome)
    ensures o.Scanned? <==> !IsBlank(document) && s.connected
    ensures o.Scanned? ==> o.dpi == s.resolution
    ensures IsBlank(document) ==> o == ScanDeclined(EmptyDocument)
    ensures !IsBlank(document) && !s.connected ==> o == ScanDeclined(NotConnected)
  {
    if IsBlank(document) then ScanDeclined(EmptyDocument)
    else if !s.connected then ScanDeclined(NotConnected)
    else Scanned(s.resolution)
  }

  /** The calls a client can make on a scanner, both public setters included. */
  datatype ScannerOp =
    | Connect
    | Disconnect
    | Scan(document: string)
    | SetTypeConnection(typeConnection: ConnectionType)
    | SetScanResolution(scanResolution: int)

  function Apply(s: ScannerState, op: ScannerOp): ScannerState {
    match op
    case Connect => ConnectStep(s)
    case Disconnect => DisconnectStep(s)
    case Scan(_) => s
    case SetTypeConnection(t) => s.(connection := t)
    case SetScanResolution(r) => s.(resolution := r)
  }

  function Run(s: ScannerState, ops: seq<ScannerOp>): ScannerState
    decreases |ops|
  {
    if ops == [] then s else Run(Apply(s, ops[0]), ops[1..])
  }

  /** Without a call to the resolution setter, the resolution chosen at
      construction, and so its bound, is kept; the model is kept always. */
  lemma {:induction false} RunKeepsResolution(s: ScannerState, ops: seq<ScannerOp>)
    requires forall i :: 0 <= i < |ops| ==> !ops[i].SetScanResolution?
    ensures Run(s, ops).resolution == s.resolution
    ensures Run(s, ops).model == s.model
    decreases |ops|
  {
    if ops != [] {
      RunKeepsResolution(Apply(s, ops[0]), ops[1..]);
    }
  }

  /** The model stays non-blank whatever the client calls, the resolution
      setter included. */
  lemma {:induction false} RunKeepsValid(s: ScannerState, ops: seq<ScannerOp>)
    requires ValidState(s)
    ensures ValidState(Run(s, ops))
    decreases |ops|
  {
    if ops != [] {
      RunKeepsValid(Apply(s, ops[0]), ops[1..]);
    }
  }

  /** Running two call sequences one after the other. */
  lemma {:induction false} RunConcat(s: ScannerState, a: seq<ScannerOp>, b: seq<ScannerOp>)
    ensures Run(s, a + b) == Run(Run(s, a), b)
    decreases |a|
  {
    if a == [] {
      assert a + b == b;
    } else {
      assert (a + b)[1..] == a[1..] + b;
      RunConcat(Apply(s, a[0]), a[1..], b);
    }
  }

  /** The connection flag after some calls: that of the last Connect or
      Disconnect among them, or the initial one if there is none. */
  function LastConnectivity(connected: bool, ops: seq<ScannerOp>): bool
    decreases |ops|
  {
    if ops == [] then connected
    else if ops[|ops| - 1].Connect? then true
    else if ops[|ops| - 1].Disconnect? then false
    else LastConnectivity(connected, ops[..|ops| - 1])
  }

  /** Only Connect and Disconnect change the connection flag, and neither
      depends on it: the last of them decides it. */
  lemma {:induction false} RunConnectivity(s: ScannerState, ops: seq<ScannerOp>)
    ensures Run(s, ops).connected == LastConnectivity(s.connected, ops)
    decreases |ops|
  {
    if ops != [] {
      var init, op := ops[..|ops| - 1], ops[|ops| - 1];
      assert ops == init + [op];
      RunConcat(s, init, [op]);
      assert Run(Run(s, init), [op]) == Apply(Run(s, init), op);
      RunConnectivity(s, init);
    }
  }

  /** A scan inserted anywhere in a call sequence changes nothing that
      follows it: the scanner ends in the same state as without it. */
  lemma ScanAnywhereChangesNothing(s: ScannerState, ops: seq<ScannerOp>, i: nat, document: string)
    requires i <= |ops|
    ensures Run(s, ops[..i] + [Scan(document)] + ops[i..]) == Run(s, ops)
  {
    var before, after := ops[..i], ops[i..];
    assert ops == before + after;
    assert before + [Scan(document)] + after == before + ([Scan(document)] + after);
    RunConcat(s, before, [Scan(document)] + after);
    RunConcat(s, before, after);
    assert ([Scan(document)] + after)[1..] == after;
  }

  /** A scanner object: the fields the source class updates in place. */
  class Scanner {
    var model: string
    var typeConnection: ConnectionType
    var isConnected: bool
    var scanResolution: int

    function State(): ScannerState
      reads this
    {
      ScannerState(model, typeConnection, isConnected, scanResolution)
    }

    ghost predicate Valid()
      reads this
    {
      ValidState(State())
    }

    /** The validated constructor: only arguments it accepts reach it. */
    constructor (model: string, scanResolution: int, typeConnection: ConnectionType)
      requires NewScanner(model, scanResolution, typeConnection).Success?
      ensures State() == NewScanner(model, scanResolution, typeConnection).value
      ensures Valid() && ResolutionInRange(scanResolution)
    {
      this.model := model;
      this.scanResolution := scanResolution;
      this.typeConnection := typeConnection;
      this.isConnected := false;
    }

    /** `new Scanner(model, scanResolution, typeConnection)`: a fresh scanner,
        or the argument the constructor throws for. */
    static method Create(model: string, scanResolution: int, typeConnection: ConnectionType := Ethernet)
      returns (r: Result<Scanner, ConstructError>)
      ensures r.Success? <==> NewScanner(model, scanResolution, typeConnection).Success?
      ensures r.Success? ==> fresh(r.value) && r.value.Valid()
      ensures r.Success? ==> r.value.State() == NewScanner(model, scanResolution, typeConnection).value
      ensures r.Failure? ==> r.error == NewScanner(model, scanResolution, typeConnection).error
    {
      if IsBlank(model) {
        return Failure(BlankModel);
      }
      if scanResolution < MinScanResolution || scanResolution > MaxScanResolution {
        return Failure(ResolutionOutOfRange(scanResolution));
      }
      var sc := new Scanner(model, scanResolution, typeConnection);
      return Success(sc);
    }

    /** `new Scanner(model)`: lowest resolution, Ethernet. */
    static method CreateWithModel(model: string) returns (r: Result<Scanner, ConstructError>)
      ensures r.Success? <==> NewScannerWithModel(model).Success?
      ensures r.Success? ==> fresh(r.value) && r.value.Valid()
      ensures r.Success? ==> r.value.State() == NewScannerWithModel(model).value
      ensures r.Failure? ==> r.error == NewScannerWithModel(model).error
    {
      r := Create(model, MinScanResolution, Ethernet);
    }

    method SetTypeConnection(t: ConnectionType)
      modifies this
      ensures State() == old(State()).(connection := t)
    {
      typeConnection := t;
    }

    /** The public, unchecked resolution setter. */
    method SetScanResolution(resolution: int)
      modifies this
      ensures State() == old(State()).(resolution := resolution)
    {
      scanResolution := resolution;
    }

    method Connect()
      modifies this
      ensures State() == ConnectStep(old(State()))
    {
      isConnected := true;
    }

    method Disconnect()
      modifies this
      ensures State() == DisconnectStep(old(State()))
    {
      isConnected := false;
    }

    /** Scanning reads the scanner and changes nothing (no modifies clause). */
    method Scan(document: string) returns (o: ScanOutcome)
      ensures o == ScanStep(State(), document)
      ensures o.Scanned? <==> !IsBlank(document) && isConnected
      ensures o.Scanned? ==> o.dpi == scanResolution
    {
      if IsBlank(document) {
        return ScanDeclined(EmptyDocument);
      }
      if !isConnected {
        return ScanDeclined(NotConnected);
      }
      return Scanned(scanResolution);
    }
  }
}
