/** The demonstration sequence of the program's entry point, run against the
    three device classes; its results are stated as postconditions. */
module Demo {
  import opened Devices
  import Printers
  import Scanners
  import PrinterScanners

  /** A printer at 80: connect, print twice, refill 30. */
  method PrinterScenario() returns (prints: seq<PrintOutcome>, refill: RefillOutcome, ink: int)
    ensures prints == [Printed(false, 75), Printed(false, 70)]
    ensures refill == Refilled(100) && ink == 100
  {
    var printer := new Printers.Printer("HP LaserJet", 80, Ethernet);
    printer.Connect();
    var doc1 := "Document1.pdf";
    var p1 := printer.Print(doc1);
    var doc2 := "Document2.pdf";
    var p2 := printer.Print(doc2);
    prints := [p1, p2];
    refill := printer.RefillInk(30);
    ink := printer.inkLevel;
    printer.Disconnect();
  }

  /** A scanner at 600 dpi: connect, scan twice, disconnect, scan again. */
  method ScannerScenario() returns (scans: seq<ScanOutcome>, resolution: int, late: ScanOutcome)
    ensures scans == [Scanned(600), Scanned(600)] && resolution == 600
    ensures late == ScanDeclined(NotConnected)
  {
    var scanner := new Scanners.Scanner("Epson V39", 600, Ethernet);
    scanner.Connect();
    var photo1 := "Photo1.jpg";
    var s1 := scanner.Scan(photo1);
    var doc3 := "Document3.pdf";
    var s2 := scanner.Scan(doc3);
    scans := [s1, s2];
    resolution := scanner.scanResolution;
    scanner.Disconnect();
    var photo3 := "Photo3.jpg";
    late := scanner.Scan(photo3);
  }

  /** A multifunction device at 50 ink and 1200 dpi: connect, print, scan,
      refill 20, disconnect, then print and refill again. */
  method PrinterScannerScenario()
    returns (printed: PrintOutcome, scan: ScanOutcome, refill: RefillOutcome, ink: int,
             latePrint: PrintOutcome, lateRefill: RefillOutcome, finalInk: int)
    ensures printed == Printed(false, 45) && scan == Scanned(1200)
    ensures refill == Refilled(65) && ink == 65
    ensures latePrint == PrintDeclined(NotConnected) && lateRefill == RefillDeclined(NotConnected)
    ensures finalInk == 65
  {
    var multi := new PrinterScanners.PrinterScanner("HP OfficeJet Pro", Ethernet, 50, 1200);
    multi.Connect();
    var doc4 := "Document4.pdf";
    printed := multi.Print(doc4);
    var photo2 := "Photo2.jpg";
    scan := multi.Scan(photo2);
    refill := multi.RefillInk(20);
    ink := multi.inkLevel;
    multi.Disconnect();
    latePrint := multi.Print("Document5.pdf");
    lateRefill := multi.RefillInk(30);
    finalInk := multi.inkLevel;
  }
}
