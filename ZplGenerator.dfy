/**
 * `ZPLGenerator` (app/services/zpl_generator.py): builds the Zebra
 * Programming Language commands for one text field and one barcode field.
 * Coordinates and sizes arrive in PDF points (1/72 inch) and leave as printer
 * dots. The three static methods of the class are functions here; the text and
 * the barcode payload are embedded verbatim, with no escaping.
 */
module ZplGenerator {
  import opened Numeric
  import opened Decimal

  // ---------------------------------------------------------------------------
  // Unit conversion
  // ---------------------------------------------------------------------------

  /** The exact number of dots that `value` points cover at `dpi` dots per inch. */
  function ExactDots(value: real, dpi: int): real {
    value * dpi as real / 72.0
  }

  /**
   * `convert_to_zpl_units`: points to dots, truncated toward zero. The result
   * is the whole number of dots that has the sign of the exact amount and the
   * largest magnitude not above it; for non-negative input it is the floor.
   */
  function ConvertToZplUnits(value: real, dpi: int): (dots: int)
    ensures ExactDots(value, dpi) >= 0.0 ==>
      0 <= dots && dots as real <= ExactDots(value, dpi) < dots as real + 1.0
    ensures ExactDots(value, dpi) < 0.0 ==>
      dots <= 0 && dots as real - 1.0 < ExactDots(value, dpi) <= dots as real
    ensures value >= 0.0 && dpi >= 0 ==> dots == ExactDots(value, dpi).Floor
  {
    assert (value / 72.0) * dpi as real == ExactDots(value, dpi);
    Trunc((value / 72.0) * dpi as real)
  }

  /** For a fixed non-negative resolution, more points never give fewer dots. */
  lemma ConvertToZplUnitsMonotone(v1: real, v2: real, dpi: int)
    requires dpi >= 0 && v1 <= v2
    ensures ConvertToZplUnits(v1, dpi) <= ConvertToZplUnits(v2, dpi)
  {
    assert ExactDots(v2, dpi) - ExactDots(v1, dpi) == (v2 - v1) * dpi as real / 72.0;
    assert (v2 - v1) * dpi as real >= 0.0;
    assert ExactDots(v1, dpi) <= ExactDots(v2, dpi);
  }

  // ---------------------------------------------------------------------------
  // Text fields
  // ---------------------------------------------------------------------------

  const MinFontHeight: int := 9
  const MaxFontHeight: int := 120

  /**
   * The `^A0` font height: 1.2 times the point size, truncated, then clamped
   * to [MinFontHeight, MaxFontHeight].
   */
  function FontHeight(fontSize: real): (h: int)
    ensures MinFontHeight <= h <= MaxFontHeight
    ensures MinFontHeight <= Trunc(fontSize * 1.2) <= MaxFontHeight ==> h == Trunc(fontSize * 1.2)
    ensures Trunc(fontSize * 1.2) < MinFontHeight ==> h == MinFontHeight
    ensures Trunc(fontSize * 1.2) > MaxFontHeight ==> h == MaxFontHeight
  {
    Min(Max(Trunc(fontSize * 1.2), MinFontHeight), MaxFontHeight)
  }

  /** A larger point size never selects a smaller font. */
  lemma FontHeightMonotone(s1: real, s2: real)
    requires s1 <= s2
    ensures FontHeight(s1) <= FontHeight(s2)
  {
  }

  /**
   * The `^A0` font width: 0.8 times the height, truncated. For a non-negative
   * height this is four fifths of it in integer division.
   */
  function FontWidth(height: int): (w: int)
    ensures height >= 0 ==> w == (4 * height) / 5
    ensures height >= 0 ==> 0 <= w <= height
  {
    assert height as real * 0.8 == (4 * height) as real / 5 as real;
    TruncOfQuotient(4 * height, 5);
    Trunc(height as real * 0.8)
  }

  /** Every width derived from a clamped height lies in [7, 96] and below the height. */
  lemma FontWidthOfClampedHeight(fontSize: real)
    ensures 7 <= FontWidth(FontHeight(fontSize)) <= 96
    ensures FontWidth(FontHeight(fontSize)) < FontHeight(fontSize)
  {
  }

  /** `s.endswith(suffix)`. */
  predicate EndsWith(s: string, suffix: string) {
    |suffix| <= |s| && s[|s| - |suffix|..] == suffix
  }

  /** Prepending text keeps a suffix. */
  lemma EndsWithPrepend(prefix: string, s: string, suffix: string)
    requires EndsWith(s, suffix)
    ensures EndsWith(prefix + s, suffix)
  {
    assert (prefix + s)[|prefix + s| - |suffix|..] == s[|s| - |suffix|..];
  }

  /**
   * The f-string of `generate_text`: `^FO{x},{y}^A0,{height},{width}^FD{text}^FS`.
   * The layouts are grouped from the right, so that each field is followed by the
   * rest of the command.
   */
  function TextLayout(x: int, y: int, fontHeight: int, fontWidth: int, text: string): string
  {
    var tail := "^FD" + text + "^FS";
    var rest := IntToString(x) + ("," + (IntToString(y) + ("^A0," + (IntToString(fontHeight)
      + ("," + (IntToString(fontWidth) + tail))))));
    "^FO" + rest
  }

  /**
   * `generate_text`: the text layout with the origin converted to dots. The
   * command opens a field with `^FO` and closes with the text, unchanged.
   */
  function GenerateText(text: string, x: real, y: real, fontSize: real, dpi: int): (cmd: string)
    ensures EndsWith(cmd, "^FD" + text + "^FS")
    ensures cmd[..3] == "^FO"
  {
    var xDots := ConvertToZplUnits(x, dpi);
    var yDots := ConvertToZplUnits(y, dpi);
    var fontHeight := FontHeight(fontSize);
    var fontWidth := FontWidth(fontHeight);
    TextLayoutFrame(xDots, yDots, fontHeight, fontWidth, text);
    TextLayout(xDots, yDots, fontHeight, fontWidth, text)
  }

  // ---------------------------------------------------------------------------
  // Barcode fields
  // ---------------------------------------------------------------------------

  /** A row of `zpl_barcode_map`: the ZPL command and the default module width. */
  datatype Symbology = Symbology(command: string, moduleWidth: int)

  /** `zpl_barcode_map`, keyed by the upper-cased barcode type. */
  const BarcodeMap: map<string, Symbology> := map[
    "CODE128" := Symbology("^BC", 2),
    "CODE39" := Symbology("^B3", 2),
    "QR_CODE" := Symbology("^BQ", 2),
    "EAN13" := Symbology("^BE", 3),
    "EAN8" := Symbology("^B8", 3)
  ]

  /** The type key that opens the two-dimensional branch. */
  const QrKey: string := "QR_CODE"

  /** `str.upper` on one character, for the ASCII letters. */
  function UpperChar(c: char): char {
    if 'a' <= c <= 'z' then (c as int - 32) as char else c
  }

  /** `str.upper` on a string, for the ASCII letters. */
  function Upper(s: string): (u: string)
    ensures |u| == |s|
    ensures forall i :: 0 <= i < |s| ==> u[i] == UpperChar(s[i])
  {
    seq(|s|, i requires 0 <= i < |s| => UpperChar(s[i]))
  }

  /**
   * `zpl_barcode_map.get(key, ('^BC', 2))`: a known key gets its row, every
   * other key gets exactly what CODE128 gets.
   */
  function LookupSymbology(key: string): (s: Symbology)
    ensures key in BarcodeMap ==> s == BarcodeMap[key]
    ensures key !in BarcodeMap ==> s == BarcodeMap["CODE128"]
  {
    if key in BarcodeMap then BarcodeMap[key] else Symbology("^BC", 2)
  }

  /** Only EAN13 and EAN8 use module width 3; every other key, known or not, uses 2. */
  lemma ModuleWidthByKey(key: string)
    ensures LookupSymbology(key).moduleWidth == if key == "EAN13" || key == "EAN8" then 3 else 2
  {
  }

  /** `^BQ` is selected by the QR key and by nothing else. */
  lemma QrCommandOnlyForQrKey(key: string)
    ensures LookupSymbology(key).command == "^BQ" <==> key == QrKey
  {
  }

  /** QR magnification: the width in hundreds of dots, truncated, clamped to [1, 10]. */
  function QrMagnification(widthDots: int): (m: int)
    ensures 1 <= m <= 10
    ensures 100 <= widthDots < 1100 ==> m == widthDots / 100
    ensures widthDots < 200 ==> m == 1
    ensures widthDots >= 1000 ==> m == 10
  {
    TruncOfQuotient(widthDots, 100);
    Max(1, Min(10, Trunc(widthDots as real / 100.0)))
  }

  const MaxLinearHeight: int := 400

  /** The bar height of a linear barcode, capped at MaxLinearHeight dots. */
  function LinearHeight(heightDots: int): (h: int)
    ensures h <= MaxLinearHeight
    ensures heightDots <= MaxLinearHeight ==> h == heightDots
    ensures heightDots > MaxLinearHeight ==> h == MaxLinearHeight
  {
    Min(heightDots, MaxLinearHeight)
  }

  /** The f-string of the QR branch: `^FO{x},{y}{command},{magnification},M^FD{data}^FS`. */
  function QrLayout(x: int, y: int, command: string, magnification: int, data: string): string
  {
    var tail := "^FD" + data + "^FS";
    var rest := IntToString(x) + ("," + (IntToString(y) + (command + (","
      + (IntToString(magnification) + (",M" + tail))))));
    "^FO" + rest
  }

  /** The f-string of the linear branch: `^FO{x},{y}{command},{height},{module width},Y,N^FD{data}^FS`. */
  function LinearLayout(x: int, y: int, command: string, height: int, moduleWidth: int,
                        data: string): string
  {
    var tail := "^FD" + data + "^FS";
    var rest := IntToString(x) + ("," + (IntToString(y) + (command + ("," + (IntToString(height)
      + ("," + (IntToString(moduleWidth) + (",Y,N" + tail))))))));
    "^FO" + rest
  }

  /** A text command starts with `^FO` and ends with the text, unchanged, in `^FD…^FS`. */
  lemma TextLayoutFrame(x: int, y: int, fontHeight: int, fontWidth: int, text: string)
    ensures TextLayout(x, y, fontHeight, fontWidth, text)[..3] == "^FO"
    ensures EndsWith(TextLayout(x, y, fontHeight, fontWidth, text), "^FD" + text + "^FS")
  {
    var tail := "^FD" + text + "^FS";
    var r4 := IntToString(fontWidth) + tail;
    var r3 := IntToString(fontHeight) + ("," + r4);
    var r2 := IntToString(y) + ("^A0," + r3);
    var r1 := IntToString(x) + ("," + r2);
    // One step per piece keeps this proof cheap on every solver seed.
    assert EndsWith(tail, tail);
    EndsWithPrepend(IntToString(fontWidth), tail, tail);
    EndsWithPrepend(",", r4, tail);
    EndsWithPrepend(IntToString(fontHeight), "," + r4, tail);
    EndsWithPrepend("^A0,", r3, tail);
    EndsWithPrepend(IntToString(y), "^A0," + r3, tail);
    EndsWithPrepend(",", r2, tail);
    EndsWithPrepend(IntToString(x), "," + r2, tail);
    EndsWithPrepend("^FO", r1, tail);
  }

  /** A QR command starts with `^FO` and ends with the data, unchanged, in `^FD…^FS`. */
  lemma QrLayoutFrame(x: int, y: int, command: string, magnification: int, data: string)
    ensures QrLayout(x, y, command, magnification, data)[..3] == "^FO"
    ensures EndsWith(QrLayout(x, y, command, magnification, data), "^FD" + data + "^FS")
  {
    var tail := "^FD" + data + "^FS";
    var r4 := IntToString(magnification) + (",M" + tail);
    var r3 := command + ("," + r4);
    var r2 := IntToString(y) + r3;
    var r1 := IntToString(x) + ("," + r2);
    // One step per piece keeps this proof cheap on every solver seed.
    assert EndsWith(tail, tail);
    EndsWithPrepend(",M", tail, tail);
    EndsWithPrepend(IntToString(magnification), ",M" + tail, tail);
    EndsWithPrepend(",", r4, tail);
    EndsWithPrepend(command, "," + r4, tail);
    EndsWithPrepend(IntToString(y), r3, tail);
    EndsWithPrepend(",", r2, tail);
    EndsWithPrepend(IntToString(x), "," + r2, tail);
    EndsWithPrepend("^FO", r1, tail);
  }

  /** A linear command starts with `^FO` and ends with the data, unchanged, in `^FD…^FS`. */
  lemma LinearLayoutFrame(x: int, y: int, command: string, height: int, moduleWidth: int,
                          data: string)
    ensures LinearLayout(x, y, command, height, moduleWidth, data)[..3] == "^FO"
    ensures EndsWith(LinearLayout(x, y, command, height, moduleWidth, data), "^FD" + data + "^FS")
  {
    var tail := "^FD" + data + "^FS";
    var r6 := IntToString(moduleWidth) + (",Y,N" + tail);
    var r5 := IntToString(height) + ("," + r6);
    var r4 := command + ("," + r5);
    var r3 := IntToString(y) + r4;
    var r1 := IntToString(x) + ("," + r3);
    // One step per piece keeps this proof cheap on every solver seed.
    assert EndsWith(tail, tail);
    EndsWithPrepend(",Y,N", tail, tail);
    EndsWithPrepend(IntToString(moduleWidth), ",Y,N" + tail, tail);
    EndsWithPrepend(",", r6, tail);
    EndsWithPrepend(IntToString(height), "," + r6, tail);
    EndsWithPrepend(",", r5, tail);
    EndsWithPrepend(command, "," + r5, tail);
    EndsWithPrepend(IntToString(y), r4, tail);
    EndsWithPrepend(",", r3, tail);
    EndsWithPrepend(IntToString(x), "," + r3, tail);
    EndsWithPrepend("^FO", r1, tail);
  }

  /**
   * `generate_barcode`: the QR layout when the upper-cased type is QR_CODE,
   * the linear layout otherwise, with the symbology taken from the table.
   */
  function GenerateBarcode(barcodeType: string, data: string, x: real, y: real,
                           width: real, height: real, dpi: int): (cmd: string)
    ensures EndsWith(cmd, "^FD" + data + "^FS")
    ensures cmd[..3] == "^FO"
  {
    var xDots := ConvertToZplUnits(x, dpi);
    var yDots := ConvertToZplUnits(y, dpi);
    var widthDots := ConvertToZplUnits(width, dpi);
    var heightDots := ConvertToZplUnits(height, dpi);
    var symbology := LookupSymbology(Upper(barcodeType));
    if Upper(barcodeType) == QrKey then
      QrLayoutFrame(xDots, yDots, symbology.command, QrMagnification(widthDots), data);
      QrLayout(xDots, yDots, symbology.command, QrMagnification(widthDots), data)
    else
      LinearLayoutFrame(xDots, yDots, symbology.command, LinearHeight(heightDots),
                        symbology.moduleWidth, data);
      LinearLayout(xDots, yDots, symbology.command, LinearHeight(heightDots),
                   symbology.moduleWidth, data)
  }

  /** Case-insensitive equality of two characters, for the ASCII letters. */
  predicate SameLetterIgnoringCase(c: char, d: char) {
    c == d
    || ('a' <= c <= 'z' && d as int == c as int - 32)
    || ('a' <= d <= 'z' && c as int == d as int - 32)
  }

  /** Two barcode types that differ only in letter case produce the same command. */
  lemma GenerateBarcodeIgnoresCase(t1: string, t2: string, data: string, x: real, y: real,
                                   width: real, height: real, dpi: int)
    requires |t1| == |t2|
    requires forall i :: 0 <= i < |t1| ==> SameLetterIgnoringCase(t1[i], t2[i])
    ensures GenerateBarcode(t1, data, x, y, width, height, dpi)
         == GenerateBarcode(t2, data, x, y, width, height, dpi)
  {
    assert Upper(t1) == Upper(t2);
  }
}
