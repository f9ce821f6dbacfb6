/**
 * Reference decoders for the two fixed command layouts that `ZPLGenerator`
 * emits, and the round trips that tie each emitted command to the field values
 * it carries. The decoders read the layout, not the printer's behaviour: the
 * field data is everything between the first `^FD` after the numeric fields
 * and the final `^FS`, so any text or payload, carets included, is recovered.
 */
module ZplLayout {
  import opened Wrappers
  import opened Decimal
  import opened ZplGenerator

  /** The values a text command carries. */
  datatype TextField = TextField(x: int, y: int, fontHeight: int, fontWidth: int, text: string)

  /** The values a barcode command carries, in its two-dimensional or linear form. */
  datatype BarcodeField =
    | QrField(x: int, y: int, magnification: int, data: string)
    | LinearField(x: int, y: int, command: string, height: int, moduleWidth: int, data: string)

  /** Consumes the literal `lit` at the head of `s`. */
  function Expect(lit: string, s: string): (r: Option<string>)
    ensures r.Some? <==> |lit| <= |s| && s[..|lit|] == lit
    ensures r.Some? ==> s == lit + r.value
  {
    if |lit| <= |s| && s[..|lit|] == lit then Some(s[|lit|..]) else None
  }

  /** The data of `^FD…^FS` when that is all of `s`. */
  function FieldData(s: string): (r: Option<string>)
    ensures r.Some? ==> s == "^FD" + r.value + "^FS"
  {
    if |s| >= 6 && s[..3] == "^FD" && s[|s| - 3..] == "^FS" then Some(s[3..|s| - 3]) else None
  }

  /** Decodes `^FO{x},{y}^A0,{height},{width}^FD{text}^FS`. */
  function ParseText(cmd: string): Option<TextField> {
    var r0 :- Expect("^FO", cmd);
    var x :- ParseInt(r0);
    var r1 :- Expect(",", x.1);
    var y :- ParseInt(r1);
    var r2 :- Expect("^A0,", y.1);
    var h :- ParseInt(r2);
    var r3 :- Expect(",", h.1);
    var w :- ParseInt(r3);
    var text :- FieldData(w.1);
    Some(TextField(x.0, y.0, h.0, w.0, text))
  }

  /** The commands that occur in `zpl_barcode_map`. */
  const BarcodeCommands: set<string> := {"^BC", "^B3", "^BQ", "^BE", "^B8"}

  /** Every key, known or not, selects one of the table's commands. */
  lemma LookupCommandKnown(key: string)
    ensures LookupSymbology(key).command in BarcodeCommands
  {
  }

  /**
   * Decodes `^FO{x},{y}^BQ,{magnification},M^FD{data}^FS` or
   * `^FO{x},{y}{command},{height},{module width},Y,N^FD{data}^FS`.
   */
  function ParseBarcode(cmd: string): Option<BarcodeField> {
    var r0 :- Expect("^FO", cmd);
    var x :- ParseInt(r0);
    var r1 :- Expect(",", x.1);
    var y :- ParseInt(r1);
    if |y.1| < 3 || y.1[..3] !in BarcodeCommands then None
    else
      var command, r2 := y.1[..3], y.1[3..];
      if command == "^BQ" then
        var r3 :- Expect(",", r2);
        var m :- ParseInt(r3);
        var r4 :- Expect(",M", m.1);
        var data :- FieldData(r4);
        Some(QrField(x.0, y.0, m.0, data))
      else
        var r3 :- Expect(",", r2);
        var h :- ParseInt(r3);
        var r4 :- Expect(",", h.1);
        var mw :- ParseInt(r4);
        var r5 :- Expect(",Y,N", mw.1);
        var data :- FieldData(r5);
        Some(LinearField(x.0, y.0, command, h.0, mw.0, data))
  }

  lemma ExpectLiteral(lit: string, rest: string)
    ensures Expect(lit, lit + rest) == Some(rest)
  {
    assert (lit + rest)[..|lit|] == lit;
    assert (lit + rest)[|lit|..] == rest;
  }

  lemma FieldDataOf(data: string)
    ensures FieldData("^FD" + data + "^FS") == Some(data)
  {
    var s := "^FD" + data + "^FS";
    assert s[..3] == "^FD";
    assert s[|s| - 3..] == "^FS";
    assert s[3..|s| - 3] == data;
  }

  /** The text layout decodes to exactly the values it was built from. */
  lemma TextLayoutRoundTrip(x: int, y: int, fontHeight: int, fontWidth: int, text: string)
    ensures ParseText(TextLayout(x, y, fontHeight, fontWidth, text))
         == Some(TextField(x, y, fontHeight, fontWidth, text))
  {
    var s4 := "^FD" + text + "^FS";
    var s3 := IntToString(fontWidth) + s4;
    var s2 := IntToString(fontHeight) + ("," + s3);
    var s1 := IntToString(y) + ("^A0," + s2);
    var s0 := IntToString(x) + ("," + s1);
    ExpectLiteral("^FO", s0);
    ParseIntRoundTrip(x, "," + s1);
    ExpectLiteral(",", s1);
    ParseIntRoundTrip(y, "^A0," + s2);
    ExpectLiteral("^A0,", s2);
    ParseIntRoundTrip(fontHeight, "," + s3);
    ExpectLiteral(",", s3);
    ParseIntRoundTrip(fontWidth, s4);
    FieldDataOf(text);
  }

  /**
   * Every text command decodes to its converted origin, its clamped font height
   * and width, and exactly the text it was given.
   */
  lemma TextRoundTrip(text: string, x: real, y: real, fontSize: real, dpi: int)
    ensures ParseText(GenerateText(text, x, y, fontSize, dpi))
         == Some(TextField(ConvertToZplUnits(x, dpi), ConvertToZplUnits(y, dpi),
                           FontHeight(fontSize), FontWidth(FontHeight(fontSize)), text))
  {
    TextLayoutRoundTrip(ConvertToZplUnits(x, dpi), ConvertToZplUnits(y, dpi),
                        FontHeight(fontSize), FontWidth(FontHeight(fontSize)), text);
  }


  /** The QR layout decodes to exactly the values it was built from. */
  lemma QrLayoutRoundTrip(x: int, y: int, magnification: int, data: string)
    ensures ParseBarcode(QrLayout(x, y, "^BQ", magnification, data))
         == Some(QrField(x, y, magnification, data))
  {
    var tail := "^FD" + data + "^FS";
    var s2 := IntToString(magnification) + (",M" + tail);
    var s1 := IntToString(y) + ("^BQ" + ("," + s2));
    var s0 := IntToString(x) + ("," + s1);
    ExpectLiteral("^FO", s0);
    ParseIntRoundTrip(x, "," + s1);
    ExpectLiteral(",", s1);
    ParseIntRoundTrip(y, "^BQ" + ("," + s2));
    assert ("^BQ" + ("," + s2))[..3] == "^BQ" && ("^BQ" + ("," + s2))[3..] == "," + s2;
    ExpectLiteral(",", s2);
    ParseIntRoundTrip(magnification, ",M" + tail);
    ExpectLiteral(",M", tail);
    FieldDataOf(data);
  }

  /** The linear layout, with any table command but `^BQ`, decodes to the values it was built from. */
  lemma LinearLayoutRoundTrip(x: int, y: int, command: string, height: int, moduleWidth: int,
                              data: string)
    requires command in BarcodeCommands && command != "^BQ"
    ensures ParseBarcode(LinearLayout(x, y, command, height, moduleWidth, data))
         == Some(LinearField(x, y, command, height, moduleWidth, data))
  {
    var tail := "^FD" + data + "^FS";
    var s4 := IntToString(moduleWidth) + (",Y,N" + tail);
    var s3 := IntToString(height) + ("," + s4);
    var s2 := command + ("," + s3);
    var s1 := IntToString(y) + s2;
    var s0 := IntToString(x) + ("," + s1);
    assert |command| == 3 && command[0] == '^';
    ExpectLiteral("^FO", s0);
    ParseIntRoundTrip(x, "," + s1);
    ExpectLiteral(",", s1);
    ParseIntRoundTrip(y, s2);
    assert s2[..3] == command && s2[3..] == "," + s3;
    ExpectLiteral(",", s3);
    ParseIntRoundTrip(height, "," + s4);
    ExpectLiteral(",", s4);
    ParseIntRoundTrip(moduleWidth, ",Y,N" + tail);
    ExpectLiteral(",Y,N", tail);
    FieldDataOf(data);
  }

  /** The field values `generate_barcode` emits for its arguments. */
  function IntendedBarcode(barcodeType: string, data: string, x: real, y: real,
                           width: real, height: real, dpi: int): BarcodeField
  {
    var key := Upper(barcodeType);
    if key == QrKey then
      QrField(ConvertToZplUnits(x, dpi), ConvertToZplUnits(y, dpi),
              QrMagnification(ConvertToZplUnits(width, dpi)), data)
    else
      LinearField(ConvertToZplUnits(x, dpi), ConvertToZplUnits(y, dpi),
                  LookupSymbology(key).command, LinearHeight(ConvertToZplUnits(height, dpi)),
                  LookupSymbology(key).moduleWidth, data)
  }

  /**
   * Every barcode command decodes to its converted origin, the symbology the
   * upper-cased type selects (CODE128 for unknown types), the clamped
   * magnification or capped height, and exactly the payload it was given.
   */
  lemma BarcodeRoundTrip(barcodeType: string, data: string, x: real, y: real,
                         width: real, height: real, dpi: int)
    ensures ParseBarcode(GenerateBarcode(barcodeType, data, x, y, width, height, dpi))
         == Some(IntendedBarcode(barcodeType, data, x, y, width, height, dpi))
  {
    var key := Upper(barcodeType);
    var symbology := LookupSymbology(key);
    var xd, yd := ConvertToZplUnits(x, dpi), ConvertToZplUnits(y, dpi);
    QrCommandOnlyForQrKey(key);
    if key == QrKey {
      QrLayoutRoundTrip(xd, yd, QrMagnification(ConvertToZplUnits(width, dpi)), data);
    } else {
      LookupCommandKnown(key);
      LinearLayoutRoundTrip(xd, yd, symbology.command, LinearHeight(ConvertToZplUnits(height, dpi)),
                            symbology.moduleWidth, data);
    }
  }
}
