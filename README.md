# Printer / scanner devices — a Dafny model

This project models the three device classes of a small C# program: `Printer`,
`Scanner` and `PrinterScanner`, together with the `ConnectionType` enumeration
(Ethernet, Wifi, Bluetooth, USB). Each device is a Dafny `class` with the
source's mutable fields:

- `isConnected`, false after construction;
- `inkLevel`, on the two devices that print;
- `scanResolution`, on the two devices that scan;
- `typeConnection`, with its public setter.

Every operation is a method that updates those fields in place. It returns an
outcome value where the source writes a console line. `Printed(lowInkWarning,
remaining)`, `Refilled(level)` and `Scanned(dpi)` report success. The three
`…Declined(reason)` forms say which guard fired. Where it matters they carry
the ink level or the refused amount. They do not carry the device's model,
which several of the source's messages name.

Each class has a function `State()` that gives its abstract value. Each method
ties the new `State()` and its outcome to a pure step function of the old
state (`PrintStep`, `RefillStep`, `ScanStep`, `ConnectStep`, `DisconnectStep`).
Those functions state the source's behaviour outright:

- Ink drops by exactly 5 if and only if the document is not blank, the device
  is connected and the ink is above 5. In every other case the ink is unchanged.
- The low-ink warning comes exactly when the ink was in (5, 10].
- A refill adds exactly `amount` if and only if the amount is in [0, 100] and
  the sum stays at or below 100. On the multifunction device it also needs a
  connection, and that is checked first.
- Each device checks its guards in the source's own order.

A C# constructor that may throw `ArgumentException` becomes a static method
`Create`. It returns `Failure(reason)` for the first argument the source
rejects, and otherwise a fresh object. The Dafny constructor itself requires
valid arguments.

Over arbitrary sequences of client calls (`Run` over a `…Op` datatype), lemmas
prove the following for every device:

- On the two printing devices, the ink stays in [0, 100].
- The model stays non-blank.
- The connection flag is decided by the last `Connect`/`Disconnect`.

They also prove two results for single devices:

- A disconnected multifunction device never changes its ink.
- On a scanner, a scan inserted anywhere in a call sequence leaves the final
  state unchanged.

The module `GuardOrder` states how the stand-alone devices and the
multifunction device differ. The module `Demo` replays the entry point's
scripted calls and states their results.

"Blank" follows `string.IsNullOrWhiteSpace`: the string is empty or every
character is one `char.IsWhiteSpace` accepts. Those are U+0009 to U+000D,
U+0020, U+0085, U+00A0, U+1680, U+2000 to U+200A, U+2028, U+2029, U+202F,
U+205F and U+3000.

Files: `devices.dfy` (shared definitions and the ink arithmetic common to
both printing devices), `printers.dfy`, `scanners.dfy`, `printer_scanners.dfy`,
`guard_order.dfy`, `demo.dfy`.

## Model

| member | source | states |
|---|---|---|
| Devices.IsWhiteSpace | Program.cs:73 | the character set of char.IsWhiteSpace, which the blank test uses; space, tab, line feed and carriage return are in it, ASCII letters and digits are not |
| Devices.IsBlank | Program.cs:73 | string.IsNullOrWhiteSpace on a non-null string: the empty string is blank, and a string whose first character is not whitespace is not |
| Devices.BlankConcat | Program.cs:73 | a concatenation is blank exactly when both parts are |
| Devices.DrawInk | Program.cs:77-81 | after the guards, printing goes ahead iff ink > 5, leaves ink − 5, warns iff ink ≤ 10, otherwise declines with OutOfInk(ink); ink in range stays in range |
| Devices.AddInk | Program.cs:87-99 | a refill succeeds iff 0 ≤ amount ≤ 100 and ink + amount ≤ 100, yielding ink + amount; an out-of-range amount is reported before an overflowing one; ink in range stays in range |
| Printers.NewPrinter | Program.cs:45-55 | construction succeeds iff the model is not blank and ink is in [0, 100]; the state is then exactly the arguments, disconnected; a blank model is reported before a bad ink level |
| Printers.NewPrinterWithModel | Program.cs:57 | the one-argument constructor fails only for a blank model and gives ink 100, Ethernet, disconnected |
| Printers.ConnectStep | Program.cs:59-63 | connecting sets the flag and changes nothing else, whatever the previous flag was |
| Printers.DisconnectStep | Program.cs:65-69 | disconnecting clears the flag and changes nothing else |
| Printers.PrintStep | Program.cs:71-83 | ink drops by exactly 5 iff the document is non-blank, the device connected and ink > 5, else unchanged; warning iff ink was ≤ 10; a blank document is reported before a missing connection; nothing but ink changes; validity is kept |
| Printers.RefillStep | Program.cs:85-101 | ink rises by exactly amount iff 0 ≤ amount ≤ 100 and ink + amount ≤ 100, whatever the connection; otherwise unchanged, with the reason; validity is kept |
| Printers.RunKeepsValid | Program.cs:77-99 | after any sequence of connect, disconnect, print, refill and connection-type changes, ink is in [0, 100] and the model non-blank |
| Printers.RunConnectivity | Program.cs:59-69 | the connection flag after any call sequence is that set by the last Connect or Disconnect, or the initial one |
| Printers.RunKeepsModel | Program.cs:40 | no call sequence changes the model |
| Printers.Printer.constructor | Program.cs:45-55 | a printer built from valid arguments holds them, disconnected, and is valid |
| Printers.Printer.Create | Program.cs:45-55 | yields a fresh valid printer iff the arguments are valid, else the rejected argument; Ethernet by default |
| Printers.Printer.CreateWithModel | Program.cs:57 | as NewPrinterWithModel, on a fresh object |
| Printers.Printer.SetTypeConnection | Program.cs:41 | the setter changes the connection type only |
| Printers.Printer.Connect | Program.cs:59-63 | the new state is ConnectStep of the old |
| Printers.Printer.Disconnect | Program.cs:65-69 | the new state is DisconnectStep of the old |
| Printers.Printer.Print | Program.cs:71-83 | the new state and the outcome are PrintStep of the old state; validity is kept |
| Printers.Printer.RefillInk | Program.cs:85-101 | the new state and the outcome are RefillStep of the old state; validity is kept |
| Scanners.NewScanner | Program.cs:119-126 | construction succeeds iff the model is not blank and the resolution is in [100, 1200]; the state is then the arguments, disconnected; blank model reported first |
| Scanners.NewScannerWithModel | Program.cs:128 | the one-argument constructor fails only for a blank model and gives 100 dpi, Ethernet, disconnected |
| Scanners.ConnectStep | Program.cs:137-141 | connecting sets the flag and changes nothing else |
| Scanners.DisconnectStep | Program.cs:143-147 | disconnecting clears the flag and changes nothing else |
| Scanners.ScanStep | Program.cs:130-135 | a scan succeeds at the current resolution iff the document is non-blank and the scanner connected; a blank document is reported before a missing connection |
| Scanners.RunKeepsResolution | Program.cs:117 | without a call to the resolution setter, no call sequence changes the resolution or the model |
| Scanners.RunKeepsValid | Program.cs:114 | after any call sequence, both setters included, the model is non-blank |
| Scanners.RunConcat | Program.cs:130-147 | running two call sequences in turn is running their concatenation |
| Scanners.RunConnectivity | Program.cs:137-147 | the connection flag after any call sequence is that set by the last Connect or Disconnect, or the initial one |
| Scanners.ScanAnywhereChangesNothing | Program.cs:130-135 | a scan inserted at any position of a call sequence leaves the final state unchanged |
| Scanners.Scanner.constructor | Program.cs:119-126 | a scanner built from valid arguments holds them, disconnected |
| Scanners.Scanner.Create | Program.cs:119-126 | yields a fresh scanner iff the arguments are valid, else the rejected argument; Ethernet by default |
| Scanners.Scanner.CreateWithModel | Program.cs:128 | as NewScannerWithModel, on a fresh object |
| Scanners.Scanner.SetTypeConnection | Program.cs:115 | the setter changes the connection type only |
| Scanners.Scanner.SetScanResolution | Program.cs:117 | the unchecked setter changes the resolution only |
| Scanners.Scanner.Connect | Program.cs:137-141 | the new state is ConnectStep of the old |
| Scanners.Scanner.Disconnect | Program.cs:143-147 | the new state is DisconnectStep of the old |
| Scanners.Scanner.Scan | Program.cs:130-135 | changes nothing; succeeds at the current resolution iff the document is non-blank and the scanner connected, with the reason otherwise |
| PrinterScanners.NewPrinterScanner | Program.cs:175-191 | construction succeeds iff the model is not blank, ink in [0, 100] and resolution in [100, 1200]; checked in that order; the state is then the arguments, disconnected |
| PrinterScanners.NewPrinterScannerWithModel | Program.cs:175-179 | with every optional argument left out the device is Wifi, ink 100, 600 dpi, disconnected; only a blank model fails |
| PrinterScanners.ConnectStep | Program.cs:193-197 | connecting sets the flag and changes nothing else |
| PrinterScanners.DisconnectStep | Program.cs:199-203 | disconnecting clears the flag and changes nothing else |
| PrinterScanners.PrintStep | Program.cs:205-232 | ink drops by exactly 5 iff connected, document non-blank and ink > 5, else unchanged; warning iff ink was ≤ 10; a missing connection is reported before a blank document; validity is kept |
| PrinterScanners.RefillStep | Program.cs:234-256 | ink rises by exactly amount iff connected, 0 ≤ amount ≤ 100 and ink + amount ≤ 100; the connection is checked first; otherwise unchanged, with the reason |
| PrinterScanners.ScanStep | Program.cs:258-273 | a scan succeeds at the current resolution iff connected and the document non-blank; a missing connection is reported before a blank document |
| PrinterScanners.RunKeepsValid | Program.cs:219-254 | after any call sequence, ink is in [0, 100] and the model non-blank |
| PrinterScanners.RunConnectivity | Program.cs:193-203 | the connection flag after any call sequence is that set by the last Connect or Disconnect, or the initial one |
| PrinterScanners.DisconnectedKeepsInk | Program.cs:205-256 | while no Connect is called on a disconnected device, ink never changes and it stays disconnected |
| PrinterScanners.PrinterScanner.constructor | Program.cs:175-191 | a device built from valid arguments holds them, disconnected, and is valid |
| PrinterScanners.PrinterScanner.Create | Program.cs:175-191 | yields a fresh valid device iff the arguments are valid, else the first rejected argument; defaults Wifi, 100, 600 |
| PrinterScanners.PrinterScanner.SetTypeConnection | Program.cs:170 | the setter changes the connection type only |
| PrinterScanners.PrinterScanner.SetScanResolution | Program.cs:173 | the unchecked setter changes the resolution only |
| PrinterScanners.PrinterScanner.Connect | Program.cs:193-197 | the new state is ConnectStep of the old |
| PrinterScanners.PrinterScanner.Disconnect | Program.cs:199-203 | the new state is DisconnectStep of the old |
| PrinterScanners.PrinterScanner.Print | Program.cs:205-232 | the new state and the outcome are PrintStep of the old state; validity is kept |
| PrinterScanners.PrinterScanner.RefillInk | Program.cs:234-256 | the new state and the outcome are RefillStep of the old state; validity is kept |
| PrinterScanners.PrinterScanner.Scan | Program.cs:258-273 | changes nothing; succeeds at the current resolution iff connected and the document non-blank |
| GuardOrder.PrintGuardOrder | Program.cs:205-217 | a printer and a multifunction device in the same state print alike and leave the same ink, except exactly when the document is blank and the device disconnected: then the printer reports the empty document (line 73) and the other device the missing connection |
| GuardOrder.ScanGuardOrder | Program.cs:258-270 | the same for scanning: scanner and multifunction device differ exactly when the document is blank and the device disconnected |
| GuardOrder.RefillConnection | Program.cs:234-240 | a printer's refill does not depend on the connection; a connected multifunction device refills like a printer, a disconnected one declines and changes nothing |
| GuardOrder.RefillWhileDisconnected | Program.cs:234-240 | a disconnected printer at 50 refills to 70, a disconnected multifunction device at 50 stays at 50 |
| Demo.PrinterScenario | Program.cs:290-298 | Printer("HP LaserJet", 80): connect, print, print, refill 30 gives 75, 70, then 100 |
| Demo.ScannerScenario | Program.cs:302-338 | Scanner("Epson V39", 600): two scans succeed at 600 dpi, the resolution stays 600, and a scan after disconnecting declines for the connection |
| Demo.PrinterScannerScenario | Program.cs:313-348 | PrinterScanner("HP OfficeJet Pro", Ethernet, 50, 1200): print gives 45, scan succeeds at 1200 dpi, refill 20 gives 65; after disconnecting, print and refill decline for the connection and ink stays 65 |

## Left out

- Console output and `ToString`: the French status lines and the string
  formatting are I/O. The outcome values say which guard fired and carry the
  ink level or amount concerned. They do not carry the device's model or the
  bounds that some messages print.
- The entry point and its try/catch blocks: they are a scripted driver. Its
  call sequence is the `Demo` module. None of the calls it wraps can throw.
- Exceptions: `ArgumentException` from a constructor is the `Failure` branch of
  `Create`. The exception message text is not modelled.
- Null strings: Dafny strings cannot be null, so `IsBlank` covers only the
  empty and all-whitespace cases of `string.IsNullOrWhiteSpace`.
- The interfaces `IConnectable`, `IPrintable` and `IScanable`: they carry no
  behaviour. The three classes are modelled directly.
- 32-bit integers: fields and arguments are unbounded integers. No operation
  can overflow, since every sum or difference is taken only after guards that
  keep it between 0 and 200.
- Constructor overloads: C#'s optional arguments are Dafny default
  parameters on `Create`. The PrinterScanner constructor's partial argument
  lists are covered by those defaults.
- The resolution bound is proved only at construction and for call sequences
  without the setter. The source's public `ScanResolution` setter does not
  check the bound, so it does not hold after arbitrary calls.
- Guard order: the model keeps each class's own order (document first for
  `Printer` and `Scanner`, connection first for `PrinterScanner`) rather than
  unifying them. `GuardOrder` states exactly where the two orders disagree.
