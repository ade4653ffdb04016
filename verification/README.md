# Barcode validation and the scanned-codes list, in Dafny

A model of the two pieces of the barcode scanner page that hold logic of
their own:

- **`BarcodeValidator`** (barcode-validator.js): the check-digit validators
  for EAN-13, EAN-8, UPC-A and UPC-E, the UPC-E to UPC-A expansion, the
  length-based dispatch `validateBarcode`, the classification
  `identifyBarcodeType` (with its ISBN-13 and ISSN refinements) and the
  origin lookup `getEANCountry` with both of its prefix tables, entry for
  entry.
- **The `barcodes` list** of app.js: the ordered list of `{ value, timestamp }`
  records that each decode result extends when its value is new, that the
  remove buttons filter and "clear all" empties after confirmation, and
  from which the count label and the CSV export are built.

Files and modules:

| file | module | contents |
|---|---|---|
| text.dfy | `Text` | the JavaScript string operations used (`charAt`, `substring` with clamping and swapping, `startsWith`, the `^\d{n}$` test, `${n}` for a number) |
| checksum.dfy | `Checksum` | the validators' weighted-sum loop and check digit, and the right-to-left weighting of section 7.9 of the GS1 General Specifications as an independent definition |
| prefix_tables.dfy | `PrefixTables` | the 3-digit and 2-digit prefix tables |
| validator.dfy | `BarcodeValidator` | the validator class |
| session.dfy | `ScanSession` | the `barcodes` list and its operations |
| csv_export.dfy | `CsvExport` | the CSV text, as written and with RFC 4180 escaping, and a reader for it |
| options.dfy | `Options` | `Option<T>` |

Strings are `seq<char>`, one `char` per Unicode scalar value. JavaScript's
`length`, indexing, `charAt` and `substring` count UTF-16 code units; the
two agree on every string without characters beyond U+FFFF. All
validator operations are total, as in the source: a malformed input yields
`false`, `Unknown` or a sentinel string. `expandUPCE` is modelled on every
string, including the clamping `charAt`/`substring` do on short ones.
`identifyBarcodeType` returns a `Symbology` whose `Label()` is the exact
string the source returns.

Where the validators compute "the last digit equals the check digit of the
data digits weighted from the left", the model proves this equal to the
standard's form "the whole code weighted 1, 3, 1, … from the right sums to
a multiple of ten", and derives from it single-digit error detection and
the UPC-A / EAN-13 leading-zero correspondence.

`expandUPCE` has four cases: selectors 0, 1 and 2 share one layout, and 3,
4 and every other character have one each.

## Model

| member | source | states |
|---|---|---|
| Checksum.WeightedSum | barcode-validator.js:14-17 | the validators' accumulated sum over digits is never negative, so JavaScript's truncating `%` and Dafny's Euclidean `%` agree on it |
| Checksum.CheckDigit | barcode-validator.js:19 | `(10 - sum % 10) % 10` is a digit 0-9 that brings the sum to a multiple of ten |
| Checksum.CheckDigitIsUnique | barcode-validator.js:19-20 | the check digit is the only digit that completes the sum to a multiple of ten |
| Checksum.ComputeCheckDigit | barcode-validator.js:14-19 | the loop with index-parity weights yields a check digit 0-9 that completes the weighted sum of the data digits to a multiple of ten, and it is the `CheckDigit` of `WeightedSum` the validator predicates compare against |
| Checksum.WeightedSumIsGs1Sum | barcode-validator.js:14-17 | left-indexed weights 1/3 over an odd count, 3/1 over an even count, equal the standard's weights 1, 3, … counted from the right |
| Checksum.LastDigitCheckIsGs1Check | barcode-validator.js:19-20 | "last digit equals the check digit of the others" holds exactly when the standard's weighted sum over the whole code is a multiple of ten |
| Checksum.Gs1SumSplitsAtLast | barcode-validator.js:14-20 | the standard's sum over the whole code is the loop's weighted sum of the data digits plus the last digit, with the weights the code's length selects |
| Checksum.Gs1SumUpdate | barcode-validator.js:14-17 | changing one digit moves the standard's sum by that position's weight times the change |
| Checksum.SingleDigitErrorDetected | barcode-validator.js:10-21 | changing any single digit of a code that passes the check makes it fail |
| Text.NatToString | app.js:161 | `${n}` writes at least one decimal digit, with a leading 0 only for zero |
| Text.SubstringInRange | barcode-validator.js:81 | with bounds inside the string, `substring` is the plain slice |
| Text.SubstringOfSlice | barcode-validator.js:89 | a `substring` of the middle slice, in range, is the corresponding slice of the whole code |
| Text.DecimalRoundTrip | app.js:161 | reading the decimal text of a count back gives the count |
| BarcodeValidator.EAN13IsGs1Check | barcode-validator.js:10-21 | `isValidEAN13` holds exactly for 13 ASCII digits whose 1/3-weighted check (from the right) is a multiple of ten; every other string gives false |
| BarcodeValidator.EAN8IsGs1Check | barcode-validator.js:28-39 | `isValidEAN8` holds exactly for 8 ASCII digits passing the standard's check |
| BarcodeValidator.UPCAIsGs1Check | barcode-validator.js:46-57 | `isValidUPCA` holds exactly for 12 ASCII digits passing the standard's check |
| BarcodeValidator.UPCAIsEAN13WithLeadingZero | barcode-validator.js:10-57 | a string is a valid UPC-A code exactly when "0" followed by it is a valid EAN-13 code |
| BarcodeValidator.EAN13DetectsSingleDigitErrors | barcode-validator.js:10-21 | replacing one digit of a valid EAN-13 code by another digit makes it invalid |
| BarcodeValidator.ExpandUPCE | barcode-validator.js:78-104 | the expansion has at most 12 characters, exactly 12 when the input has at least 8, and keeps the input's first and eighth characters at its ends |
| BarcodeValidator.ExpandUPCELayout | barcode-validator.js:78-104 | on 8 characters, each of the four selector cases lays out the middle digits and the zeros exactly as the code writes them, and digits expand to digits |
| BarcodeValidator.ExpandUPCEPieces | barcode-validator.js:79-81 | on 8 characters, `charAt` and `substring` cut plain slices: the first and eighth characters and the six between them |
| BarcodeValidator.ExpandUPCELayoutLow | barcode-validator.js:86-90 | selector 0-2: first digit, two middle digits, the selector, "0000", three middle digits, check digit |
| BarcodeValidator.ExpandUPCELayout3 | barcode-validator.js:91-93 | selector 3: first digit, three middle digits, "00000", two middle digits, check digit |
| BarcodeValidator.ExpandUPCELayout4 | barcode-validator.js:94-96 | selector 4: first digit, four middle digits, "00000", the fifth middle digit, check digit |
| BarcodeValidator.ExpandUPCELayoutHigh | barcode-validator.js:97-99 | selector 5-9 or a non-digit: first digit, five middle digits, "0000", the selector, check digit |
| BarcodeValidator.ExpandUPCEReadsFirstEight | barcode-validator.js:79-81 | characters after the eighth do not affect the expansion |
| BarcodeValidator.CompressThenExpand | barcode-validator.js:78-104 | zero suppression followed by the expansion gives back the 12-character code, and suppression keeps digits digits |
| BarcodeValidator.ExpansionIsCompressible | barcode-validator.js:78-104 | every expansion of 8 digits can be zero-suppressed to a code with the same expansion |
| BarcodeValidator.ExpansionIsNotInjective | barcode-validator.js:85-99 | "01204523" and "01224533" expand to the same UPC-A code |
| BarcodeValidator.ExpansionOf01204523 | barcode-validator.js:86-90 | "01204523" expands to "012200000453" |
| BarcodeValidator.ExpansionOf01224533 | barcode-validator.js:91-93 | "01224533" expands to "012200000453" |
| BarcodeValidator.UPCEIsGs1CheckOfExpansion | barcode-validator.js:64-71 | `isValidUPCE` holds exactly for 8 ASCII digits whose expansion passes the standard's check |
| BarcodeValidator.CompressedValidUPCAIsValidUPCE | barcode-validator.js:64-71 | the zero-suppressed form of a valid UPC-A code is a valid UPC-E code |
| BarcodeValidator.ExpansionOf51234560 | barcode-validator.js:97-99 | "51234560" expands to "512345000060" |
| BarcodeValidator.ValidUPCAExample512345000060 | barcode-validator.js:46-57 | "512345000060" passes the UPC-A check |
| BarcodeValidator.UPCENumberSystemUnrestricted | barcode-validator.js:64-71 | a code whose number-system digit is 5 can be a valid UPC-E code |
| BarcodeValidator.ValidateBarcodeIsGs1Check | barcode-validator.js:111-121 | `validateBarcode` is false for lengths other than 8, 12 and 13, equals the EAN-13, UPC-A and "EAN-8 or UPC-E" rules at those lengths, and holds exactly for digit strings passing the standard's check on themselves or, at length 8, on their expansion |
| BarcodeValidator.LabelsAreDistinct | barcode-validator.js:128-150 | the seven result strings are pairwise distinct |
| BarcodeValidator.IdentifyAgreesWithValidate | barcode-validator.js:128-150 | the type is not "Desconhecido" exactly when `validateBarcode` holds; ISBN-13 exactly for valid EAN-13 with prefix 978/979, ISSN exactly for 977, EAN-13 for the other valid EAN-13, EAN-8 for every valid EAN-8, UPC-E for valid UPC-E that is not valid EAN-8, UPC-A for valid UPC-A |
| BarcodeValidator.ExpansionOf00000260 | barcode-validator.js:97-99 | "00000260" expands to "000002000060" |
| BarcodeValidator.ValidEAN8Example | barcode-validator.js:28-39 | "00000260" passes the EAN-8 check |
| BarcodeValidator.ValidUPCAExample000002000060 | barcode-validator.js:46-57 | "000002000060" passes the UPC-A check |
| BarcodeValidator.ValidUPCEExample | barcode-validator.js:64-71 | "00000260" passes the UPC-E check |
| BarcodeValidator.EAN8TakesPrecedenceOverUPCE | barcode-validator.js:139-145 | "00000260", valid under both 8-digit rules, is reported as "EAN-8"; for every code this is the `EAN8` clause of `IdentifyAgreesWithValidate` |
| BarcodeValidator.ExpansionOf01234565 | barcode-validator.js:97-99 | "01234565" expands to "012345000065" |
| BarcodeValidator.ValidUPCAExample012345000065 | barcode-validator.js:46-57 | "012345000065" passes the UPC-A check |
| BarcodeValidator.ValidUPCEExample01234565 | barcode-validator.js:64-71 | "01234565" passes the UPC-E check |
| BarcodeValidator.ValidEAN8Example01234565 | barcode-validator.js:28-39 | "01234565" passes the EAN-8 check |
| BarcodeValidator.UPCEExampleIsReportedAsEAN8 | barcode-validator.js:139-145 | "01234565", valid as UPC-E, is reported as EAN-8 |
| BarcodeValidator.IsValidEAN13 | barcode-validator.js:10-21 | models `isValidEAN13`: 13 ASCII digits, and the 13th digit equal to `CheckDigit` of the first twelve weighted 1 at even and 3 at odd index (its contract is `EAN13IsGs1Check`) |
| BarcodeValidator.IsValidEAN8 | barcode-validator.js:28-39 | models `isValidEAN8`: 8 ASCII digits, and the 8th equal to `CheckDigit` of the first seven weighted 3 at even and 1 at odd index (its contract is `EAN8IsGs1Check`) |
| BarcodeValidator.IsValidUPCA | barcode-validator.js:46-57 | models `isValidUPCA`: 12 ASCII digits, and the 12th equal to `CheckDigit` of the first eleven weighted 3 at even and 1 at odd index (its contract is `UPCAIsGs1Check`) |
| BarcodeValidator.IsValidUPCE | barcode-validator.js:64-71 | models `isValidUPCE`: 8 ASCII digits whose `ExpandUPCE` passes `IsValidUPCA` (its contract is `UPCEIsGs1CheckOfExpansion`) |
| BarcodeValidator.ExpansionOfDigitsIsDigits | barcode-validator.js:78-104 | every piece an 8-digit code expands into is digits, so the expansion is all digits |
| BarcodeValidator.ValidateBarcode | barcode-validator.js:111-121 | models `validateBarcode`: length 13 to the EAN-13 rule, 8 to "EAN-8 or UPC-E", 12 to UPC-A, any other length false (its contract is `ValidateBarcodeIsGs1Check`) |
| BarcodeValidator.IdentifyBarcodeType | barcode-validator.js:128-150 | models `identifyBarcodeType`: a valid EAN-13 refined by the 978/979 and 977 prefixes, at length 8 EAN-8 tried before UPC-E, a valid UPC-A, else `Unknown` (its contract is `IdentifyAgreesWithValidate`) |
| BarcodeValidator.GetEANCountry | barcode-validator.js:157-695 | models `getEANCountry`: "Formato inválido" unless the length is 13, then the 3-character table, then the 2-character table, then "Desconhecido" (its contract is `GetEANCountryCases`) |
| PrefixTables.OriginByPrefix3 | barcode-validator.js:163-620 | `prefixMap[prefix]` as a function: the 451 entries of the 3-character table, `None` for any other prefix (its contract is `ListedOriginsAreNonEmpty`) |
| PrefixTables.OriginByPrefix2 | barcode-validator.js:624-693 | `prefix2Map[prefix2]` as a function: the 64 entries of the 2-character table, `None` for any other prefix |
| PrefixTables.ListedOriginsAreNonEmpty | barcode-validator.js:618-620 | no table entry is the empty string, so the truthiness test on a lookup means "the prefix is listed" |
| BarcodeValidator.NoOriginIsASentinel | barcode-validator.js:164-688 | no table entry is "Formato inválido" or "Desconhecido" |
| BarcodeValidator.GetEANCountryCases | barcode-validator.js:157-695 | "Formato inválido" exactly for a length other than 13; otherwise the 3-character table's entry when there is one, else the 2-character table's, and "Desconhecido" exactly when neither lists the prefix |
| BarcodeValidator.BookAndSerialPrefixesListed | barcode-validator.js:599-601 | the 3-character table lists 977 as serial publications and 978, 979 as books |
| BarcodeValidator.BookAndSerialOrigins | barcode-validator.js:129-137 | a code classified ISBN-13 has origin "Livros (ISBN)", one classified ISSN "Publicações periódicas (ISSN)" |
| BarcodeValidator.ValidEAN13Example | barcode-validator.js:10-21 | "4006381333931" passes the EAN-13 check |
| BarcodeValidator.GermanOriginExample | barcode-validator.js:260 | the origin of "4006381333931" is "Alemanha" |
| BarcodeValidator.GermanEAN13Example | barcode-validator.js:111-160 | "4006381333931" validates, is an EAN-13 and comes from "Alemanha" |
| ScanSession.AddBarcode | app.js:100-103 | `barcodes.push({ value, timestamp })`: the entry goes at the end (its contract is `OnDecode`) |
| ScanSession.ClearAll | app.js:149-151 | models `clearAllBarcodes`: the list emptied when the user confirms and kept when they decline (its contract is `ClearConsequences`) |
| ScanSession.Step | app.js:60-65 | the three events that change the list: a decode result goes through the duplicate check, a remove click (app.js:197-201) filters, a clear click (app.js:195) clears if confirmed |
| ScanSession.Run | app.js:12 | the list after a sequence of events, from a given list (its contract is `RunKeepsValuesUnique`) |
| ScanSession.CountLabel | app.js:160-161 | `updateTotalCount`: the template string over `barcodes.length` (its contract is `CountLabelStatesCount`) |
| ScanSession.Contains | app.js:63 | `some(code => code.value === v)` holds exactly when some entry has the value |
| ScanSession.OnDecode | app.js:63-65 | a value already listed leaves the list unchanged; a new one is appended at the end with its timestamp, the rest untouched; afterwards the value is listed, and a list without duplicates stays without |
| ScanSession.RemoveBarcode | app.js:127 | afterwards the value is absent, and every remaining entry was in the list |
| ScanSession.RemoveKeepsOthers | app.js:127 | an entry survives exactly when it was listed with a different value |
| ScanSession.RemoveKeepsValuesUnique | app.js:127 | removal never creates a duplicate |
| ScanSession.RemoveDistributes | app.js:127 | removal from a concatenation is the concatenation of the removals, so the survivors keep their order |
| ScanSession.RemoveAbsent | app.js:127 | removing an unlisted value changes nothing |
| ScanSession.OnlyEntryWithItsValue | app.js:63 | in a list the duplicate check kept free of repeats, no entry before or after entry i holds its value |
| ScanSession.RemoveDeletesTheOneEntry | app.js:127 | in a duplicate-free list, removing the value of entry i deletes exactly entry i |
| ScanSession.RedetectAfterRemove | app.js:63-65 | after a value is removed, detecting it again appends it at the end |
| ScanSession.ClearConsequences | app.js:149-161 | after a confirmed clear the label reads "Total: 0 códigos", the next detection leaves exactly its own entry, and whatever follows behaves as from an empty list; a declined clear changes nothing that follows |
| ScanSession.RunKeepsValuesUnique | app.js:63-151 | any sequence of detections, removals and clears keeps the values pairwise distinct |
| ScanSession.SessionValuesUnique | app.js:12 | starting from the empty list, no value is ever listed twice |
| ScanSession.CountLabelStatesCount | app.js:160-161 | the label is "Total: ", the decimal number of entries, " código", and a final "s" exactly when the number is not 1 |
| CsvExport.ExportCsv | app.js:165-177 | models `exportToCSV`: no export for an empty list, else the header `Código,Data/Hora` and one `"value","timestamp"` line per entry (its contracts are `ExportAppendsOneLine` and `ExportRoundTrip`) |
| CsvExport.CsvRowsConcat | app.js:175-177 | the lines of a concatenation are the lines of each part, one per entry in order |
| CsvExport.ExportAppendsOneLine | app.js:166-177 | a one-entry list exports as the header and that entry's line; appending an entry appends exactly its line |
| CsvExport.ExportRoundTrip | app.js:166-177 | no export for an empty list; otherwise the text reads back as exactly the list when no field holds a double quote |
| CsvExport.ExportConflatesQuotedFields | app.js:176 | two different lists, one holding a quote in a value, export to the same text |
| CsvExport.EscapedExportRoundTrip | app.js:176 | with quotes doubled the export reads back as exactly the list, whatever the fields hold |
| CsvExport.ExportAgreesWhenQuoteFree | app.js:176 | without quotes in the data the export as written and the escaped export are the same text |

## Findings

| source | as written | input that shows it | evidently intended | confidence | as-written member | corrected member |
|---|---|---|---|---|---|---|
| app.js:176 | each field is wrapped in double quotes but a quote inside a value or timestamp is not doubled | the list with value `A","B` and timestamp `C` and the list with value `A` and timestamp `B","C` export the same line `"A","B","C"`; the reader created at app.js:19 decodes every format, including QR and Code 128 whose text may hold `"` | quotes inside a field doubled, as section 2 of RFC 4180 requires, so the CSV reads back as the list | medium, not executed | CsvExport.ExportConflatesQuotedFields | CsvExport.EscapedExportRoundTrip |

`CsvExport.ExportCsv` is the export as written; `CsvExport.ExportCsvEscaped`
is the corrected text. `ExportAgreesWhenQuoteFree` shows the two coincide
whenever no field holds a quote, which covers every EAN/UPC value and the
timestamps.

## Left out

- barcode-worker.js is not part of this model: it is floating-point pixel processing of canvas data and calls into the ZXing library.
- Camera enumeration, the ZXing reader, starting and stopping the scanner (app.js:17-35, 49-97): calls into a library the model cannot see. A decode result enters the model as the `value` of a `Decoded` action.
- The beep, the vibration, `alert` and `confirm` dialogs, and all DOM creation, removal and button enabling: user interface. The answer to `confirm` is the `confirmed` parameter of `ClearAll`.
- The timestamp: `new Date().toLocaleString()` reads the clock and the locale, so it is an opaque string parameter.
- The remove button carries the value in an HTML attribute (app.js:111, 200); the model takes the value it hands to `removeBarcodeFromList` as given and does not model HTML attribute quoting.
- The `data:text/csv` prefix, `encodeURI` and the download link of `exportToCSV`: browser plumbing around the text; `ExportCsv` is the text before the prefix is added.
- Any stabilisation of decode results beyond the duplicate check: none exists in the code.
- Whether the prefix table matches GS1's real allocations: the table is data, kept as the code writes it.
- PrefixTables.OriginByPrefix3: the table is written as a `match` on the number a 3-digit key denotes, reached only through an all-digit 3-character prefix; the source's object lookup also answers for non-digit prefixes, but none of them is a key and no property a JavaScript object inherits has a two- or three-character name, so the answers agree.
- Characters beyond U+FFFF: JavaScript counts each as two UTF-16 code units, the model as one `char`, so such a string is shorter in the model. The length tests of `ValidateBarcode`, `IdentifyBarcodeType` and `GetEANCountry`, and the positions `ExpandUPCE` reads, can then differ from the source: "😀" followed by eleven "0" has length 13 in JavaScript, so `getEANCountry` answers "Desconhecido", while the model sees 12 characters and answers "Formato inválido". All such strings fail every validator in both.
- CsvExport.ExportRoundTrip: holds only for lists without double quotes in their fields, because the export as written does not escape them (see Findings).
