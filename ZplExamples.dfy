/** Concrete cases of the general lemmas, for the inputs a reader is likely to try. */
module ZplExamples {
  import opened Decimal
  import opened ZplGenerator
  import opened ZplLayout

  /** A lower-case QR type selects the QR branch. */
  lemma LowerCaseQrType()
    ensures Upper("qr_code") == QrKey
  {
    assert Upper("qr_code") == "QR_CODE";
  }

  /** An unsupported type such as AZTEC is emitted with CODE128's command and module width. */
  lemma AztecFallsBackToCode128()
    ensures LookupSymbology(Upper("aztec")) == LookupSymbology("CODE128")
  {
    assert Upper("aztec") == "AZTEC";
  }

  /** 1050 dots of width gives the largest magnification, 10. */
  lemma WideQrIsCapped()
    ensures QrMagnification(1050) == 10
  {
  }

  /** 500 points of bar height at 203 dpi is 1409 dots, emitted as 400. */
  lemma TallLinearBarcodeIsCapped()
    ensures ConvertToZplUnits(500.0, 203) == 1409
    ensures LinearHeight(ConvertToZplUnits(500.0, 203)) == 400
  {
    assert 1409.0 <= ExactDots(500.0, 203) < 1410.0;
  }

  /** A 12-point font gives height 14 and width 11. */
  lemma TwelvePointFont()
    ensures FontHeight(12.0) == 14 && FontWidth(14) == 11
  {
  }
}
