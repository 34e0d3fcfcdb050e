/** How the stand-alone devices and the multifunction device differ: the
    order of their guards, and whether refilling needs a connection. */
module GuardOrder {
  import opened Devices
  import Printers
  import Scanners
  import PrinterScanners

  /** A printer and a multifunction device with the same connection flag and
      ink print alike, except when the document is blank AND the device is
      disconnected: then the printer blames the document, the other device
      the connection. The ink afterwards is the same in every case. */
  lemma PrintGuardOrder(p: Printers.PrinterState, q: PrinterScanners.PrinterScannerState, document: string)
    requires p.connected == q.connected && p.ink == q.ink
    ensures Printers.PrintStep(p, document).0.ink == PrinterScanners.PrintStep(q, document).0.ink
    ensures (Printers.PrintStep(p, document).1 != PrinterScanners.PrintStep(q, document).1)
              <==> IsBlank(document) && !p.connected
    ensures IsBlank(document) && !p.connected ==>
              Printers.PrintStep(p, document).1 == PrintDeclined(EmptyDocument) &&
              PrinterScanners.PrintStep(q, document).1 == PrintDeclined(NotConnected)
  {
  }

  /** The same difference for scanning, between a scanner and a
      multifunction device with the same connection flag and resolution. */
  lemma ScanGuardOrder(s: Scanners.ScannerState, q: PrinterScanners.PrinterScannerState, document: string)
    requires s.connected == q.connected && s.resolution == q.resolution
    ensures (Scanners.ScanStep(s, document) != PrinterScanners.ScanStep(q, document))
              <==> IsBlank(document) && !s.connected
    ensures IsBlank(document) && !s.connected ==>
              Scanners.ScanStep(s, document) == ScanDeclined(EmptyDocument) &&
              PrinterScanners.ScanStep(q, document) == ScanDeclined(NotConnected)
  {
  }

  /** A printer refills whether or not it is connected; a multifunction
      device refills like a printer when connected and declines otherwise. */
  lemma RefillConnection(p: Printers.PrinterState, q: PrinterScanners.PrinterScannerState, amount: int)
    requires p.ink == q.ink
    ensures Printers.RefillStep(p, amount).1 == Printers.RefillStep(p.(connected := !p.connected), amount).1
    ensures q.connected ==> PrinterScanners.RefillStep(q, amount).1 == Printers.RefillStep(p, amount).1
    ensures !q.connected ==> PrinterScanners.RefillStep(q, amount) == (q, RefillDeclined(NotConnected))
  {
  }

  /** A concrete case: a disconnected printer at 50 takes 20 units of ink, a
      disconnected multifunction device at 50 does not. */
  lemma RefillWhileDisconnected()
    ensures Printers.RefillStep(Printers.PrinterState("P", Ethernet, false, 50), 20).0.ink == 70
    ensures PrinterScanners.RefillStep(
              PrinterScanners.PrinterScannerState("P", Ethernet, false, 50, 600), 20).0.ink == 50
  {
  }
}
