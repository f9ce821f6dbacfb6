# ZPL field generator

A Dafny model of `ZPLGenerator` from the PDF/HTML-to-ZPL converter. The class
turns one positioned text run or one barcode into a Zebra Programming Language
(ZPL) field command for a label printer. Positions and sizes arrive in PDF
points (1/72 inch). They leave as printer dots at a given resolution (`dpi`).

The class has three static methods. All three are pure, so each is a Dafny
function here:

- `convert_to_zpl_units` becomes `ZplGenerator.ConvertToZplUnits`. It computes
  `value / 72 * dpi` and truncates toward zero, as Python's `int()` does. The
  truncation is `Numeric.Trunc`.
- `generate_text` becomes `ZplGenerator.GenerateText`. It emits
  `^FO{x},{y}^A0,{height},{width}^FD{text}^FS`. The font height is 1.2 × the
  point size, truncated and clamped to [9, 120]. The width is 0.8 × the height,
  truncated.
- `generate_barcode` becomes `ZplGenerator.GenerateBarcode`. The barcode type
  is upper-cased and looked up in `zpl_barcode_map` (`ZplGenerator.BarcodeMap`).
  An unknown type falls back to CODE128's command `^BC` and module width 2.
  QR_CODE emits `^FO{x},{y}^BQ,{magnification},M^FD{data}^FS`, where the
  magnification is the width in hundreds of dots, truncated and clamped to
  [1, 10]. Every other type emits
  `^FO{x},{y}{command},{height},{module width},Y,N^FD{data}^FS`, where the
  height is capped at 400 dots.

The text and the barcode payload are embedded verbatim, with no escaping.

Each f-string is its own function: `TextLayout`, `QrLayout` and `LinearLayout`.
Their partner is an independent decoder in module `ZplLayout`: `ParseText`
and `ParseBarcode`. These read the fixed layout back into field values. The
round-trip lemmas prove that every emitted command decodes to the intended
values. Those values are the converted origin, the clamped sizes, the
symbology chosen by the table, and exactly the text or payload given.
Integer rendering (`Decimal.IntToString`, Python's `str(int)`) has a partner
reader too, `Decimal.ParseInt`. A round-trip lemma ties the two together.

Modules:

- `Wrappers`: an `Option` type.
- `Numeric`: `Trunc`, `Min` and `Max`.
- `Decimal`: integer rendering and reading.
- `ZplGenerator`: the class itself.
- `ZplLayout`: the decoders and round trips.
- `ZplExamples`: concrete cases.

Behaviour of the code that the model keeps exactly:

- Positions and sizes are converted from points to dots inside the generator (zpl_generator.py:11-12, :22-25). Callers pass points, not dots.
- Sizes are truncated toward zero by `int()`, never rounded (:6, :15, :16, :38).
- Text and barcode data are embedded with no escaping (:18, :39, :42).
- The two-dimensional table key is the literal `QR_CODE` (:30, :37).

## Model

| member | source | states |
|---|---|---|
| `Numeric.Trunc` | app/services/zpl_generator.py:6 | Python `int()` on a real: the result has the sign of the input and the largest magnitude not above it |
| `Numeric.TruncMonotone` | app/services/zpl_generator.py:6 | truncation preserves order |
| `ZplGenerator.ConvertToZplUnits` | app/services/zpl_generator.py:4-6 | dots are the exact `value*dpi/72` truncated toward zero; for `value >= 0`, `dpi >= 0` they are non-negative and equal its floor |
| `ZplGenerator.ConvertToZplUnitsMonotone` | app/services/zpl_generator.py:6 | for a fixed `dpi >= 0`, more points never give fewer dots |
| `ZplGenerator.FontHeight` | app/services/zpl_generator.py:15 | font height always in [9, 120] for every real size; equals `Trunc(size*1.2)` when that is in range, else the bound it crossed |
| `ZplGenerator.FontHeightMonotone` | app/services/zpl_generator.py:15 | a larger point size never gives a smaller font height |
| `ZplGenerator.FontWidth` | app/services/zpl_generator.py:16 | for a non-negative height the width is `(4*height)/5` and lies between 0 and the height |
| `ZplGenerator.FontWidthOfClampedHeight` | app/services/zpl_generator.py:15-16 | the emitted font width always lies in [7, 96] and below the font height |
| `ZplGenerator.TextLayoutFrame` | app/services/zpl_generator.py:18 | the text command starts with `^FO` and ends with `^FD` + the text unchanged + `^FS` |
| `ZplLayout.TextLayoutRoundTrip` | app/services/zpl_generator.py:18 | decoding the text layout gives back origin, height, width and text exactly |
| `ZplLayout.TextRoundTrip` | app/services/zpl_generator.py:9-18 | every `generate_text` command decodes to the converted origin, `FontHeight`, `FontWidth` of it, and the text verbatim |
| `ZplGenerator.GenerateText` | app/services/zpl_generator.py:9-18 | the text command starts with `^FO` and ends with `^FD` + the text unchanged + `^FS`; its field values are stated by `ZplLayout.TextRoundTrip` |
| `ZplGenerator.TextLayout` | app/services/zpl_generator.py:18 | no contract of its own; see `ZplGenerator.TextLayoutFrame` and `ZplLayout.TextLayoutRoundTrip` |
| `ZplGenerator.BarcodeMap` | app/services/zpl_generator.py:27-33 | the five-row table as written (a constant, no contract of its own); its lookup is stated by `ZplGenerator.LookupSymbology`, `ModuleWidthByKey` and `QrCommandOnlyForQrKey` |
| `ZplGenerator.Upper` | app/services/zpl_generator.py:35-37 | same length as the input; each character is upper-cased pointwise (ASCII `a`-`z` to `A`-`Z`, everything else unchanged) |
| `ZplGenerator.LookupSymbology` | app/services/zpl_generator.py:27-35 | a table key gets its row; any other key gets exactly CODE128's row |
| `ZplGenerator.ModuleWidthByKey` | app/services/zpl_generator.py:27-35 | module width is 3 for EAN13 and EAN8 and 2 for every other key, known or unknown |
| `ZplGenerator.QrCommandOnlyForQrKey` | app/services/zpl_generator.py:27-37 | the `^BQ` command is selected by the key `QR_CODE` and by no other key |
| `ZplLayout.LookupCommandKnown` | app/services/zpl_generator.py:27-35 | every key selects one of the five table commands |
| `ZplGenerator.GenerateBarcodeIgnoresCase` | app/services/zpl_generator.py:35-37 | two barcode types that differ only in ASCII letter case produce the same command |
| `ZplGenerator.QrMagnification` | app/services/zpl_generator.py:38 | magnification always in [1, 10]; equals `width/100` for widths 100..1099, is 1 below 200 and 10 from 1000 |
| `ZplGenerator.QrLayoutFrame` | app/services/zpl_generator.py:39 | the QR command starts with `^FO` and ends with `^FD` + the data unchanged + `^FS` |
| `ZplLayout.QrLayoutRoundTrip` | app/services/zpl_generator.py:39 | decoding the QR layout gives back origin, magnification and data, with no height or module width field |
| `ZplGenerator.LinearHeight` | app/services/zpl_generator.py:41 | emitted bar height never exceeds 400; unchanged when at most 400, 400 otherwise |
| `ZplGenerator.LinearLayoutFrame` | app/services/zpl_generator.py:42 | the linear command starts with `^FO` and ends with `^FD` + the data unchanged + `^FS` |
| `ZplLayout.LinearLayoutRoundTrip` | app/services/zpl_generator.py:42 | decoding the linear layout with any non-QR table command gives back origin, command, height, module width and data |
| `ZplLayout.BarcodeRoundTrip` | app/services/zpl_generator.py:21-42 | every `generate_barcode` command decodes to the converted origin and, by the upper-cased type, either the QR field with the clamped magnification or the linear field with the table command, capped height and module width; the data is verbatim |
| `ZplGenerator.GenerateBarcode` | app/services/zpl_generator.py:21-42 | the barcode command starts with `^FO` and ends with `^FD` + the data unchanged + `^FS`; its field values are stated by `ZplLayout.BarcodeRoundTrip` |
| `ZplGenerator.QrLayout` | app/services/zpl_generator.py:39 | no contract of its own; see `ZplGenerator.QrLayoutFrame` and `ZplLayout.QrLayoutRoundTrip` |
| `ZplGenerator.LinearLayout` | app/services/zpl_generator.py:42 | no contract of its own; see `ZplGenerator.LinearLayoutFrame` and `ZplLayout.LinearLayoutRoundTrip` |
| `Decimal.IntToString` | app/services/zpl_generator.py:18 | f-string rendering of an int: non-empty, starts with `-` exactly for negatives, digits only otherwise |
| `Decimal.ParseIntRoundTrip` | app/services/zpl_generator.py:18 | when the text after the number is empty or starts with a non-digit, reading back a rendered integer gives the integer and leaves that text untouched (`"12" + "3"` would read as 123) |
| `Decimal.IntToStringInjective` | app/services/zpl_generator.py:18 | distinct integers render as distinct strings |
| `ZplExamples.LowerCaseQrType` | app/services/zpl_generator.py:35-37 | `qr_code` in lower case selects the QR branch |
| `ZplExamples.AztecFallsBackToCode128` | app/services/zpl_generator.py:35 | the unsupported type `aztec` gets CODE128's command and module width |
| `ZplExamples.WideQrIsCapped` | app/services/zpl_generator.py:38 | 1050 dots of width gives magnification 10 |
| `ZplExamples.TallLinearBarcodeIsCapped` | app/services/zpl_generator.py:25-41 | 500 points at 203 dpi is 1409 dots, emitted as height 400 |
| `ZplExamples.TwelvePointFont` | app/services/zpl_generator.py:15-16 | a 12-point font gives height 14 and width 11 |

## Left out

- Floating point: sizes and coordinates are exact reals. IEEE double rounding of `value / 72.0 * dpi`, `font_size * 1.2`, `font_height * 0.8` and `width_dots / 100` is not modelled. Neither is Python raising on `int()` of an infinity or NaN.
- `ZplGenerator.Upper`: `str.upper` is modelled for the ASCII letters only. Python's full Unicode case mapping (which can change a string's length) is not modelled. The upper-cased string is only compared with the table keys and is never emitted.
- `ZplGenerator.TextLayout`, `ZplGenerator.QrLayout`, `ZplGenerator.LinearLayout`: these carry no contract of their own. Their shape is stated by the frame lemmas, and their field values by the round-trip lemmas in `ZplLayout`.
- The decoders `ParseText` and `ParseBarcode` read the layout as written. They are not a model of how a printer interprets a `^` inside field data.
- The web API layer, HTML-to-PDF rendering and the external image-to-ZPL encoder in main.py are not part of this model. They are request plumbing and foreign library calls.
- app/services/pdf_analyzer.py is not part of this model. Its method bodies are not present in the repository files, and it depends on external PDF and barcode-decoding libraries.
- app/utils/helpers.py (temporary-file sweep, JSON serialisation), app/core/config.py and the pydantic schemas are not part of this model. They are filesystem, clock and library behaviour. The schemas' `dpi > 0` rule is weakened to `dpi >= 0` where a lemma needs it.
- Page analysis, coordinate mapping between page and label geometry, overlap resolution and the image-only export are not part of this model: none of them is implemented in `ZPLGenerator`.
