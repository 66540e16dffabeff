# LM Manutenções quote generator — a Dafny model

The application fills in a commercial quote ("orçamento") for a client and
downloads it as a PDF. The model covers three parts of it:

- **Input masks.** `maskCNPJ` and `maskCPF` keep only the digits of a value.
  They then insert the separators of a company tax number (`00.000.000/0000-00`)
  or a personal tax number (`000.000.000-00`) as far as the digits reach.
- **File name.** The company name is reduced to a slug, and the quote is
  saved as `orcamento_<slug>.pdf`.
- **Document.** `generatePDF` issues a fixed sequence of drawing calls against
  a jsPDF document. The calls are: the logo, the title and date, the client
  lines, the items table, then the total, payment and observation sections
  placed below wherever the table ended, and finally a footer and the save.

## Files

- `sequences.dfy` (`Sequences`): filtering a sequence by a character class,
  plus a few slicing and concatenation facts.
- `formatters.dfy` (`Formatters`): the two masks as functions. Each mask is
  also written a second way: a pattern (`##.###.###/####-##`,
  `###.###.###-##`) filled with the digits, where a separator is written only
  when a digit follows it. Lemmas prove the two ways agree, and state the
  masks' properties.
- `pdf_filename.dfy` (`PdfFilename`): the slug as the composition of its four
  steps, plus lemmas about the result.
- `types.dfy` (`Types`): the `Cliente` and `Item` records.
- `pdf_generator.dfy` (`PdfGenerator`): the document model.
  - `Doc` is a class whose methods append drawing commands to a `commands`
    field, or change the current font size.
  - `GeneratePdf` performs the calls of `generatePDF` in the same order.
  - `GeneratePdf` is proved to leave exactly the command list given by the
    function `Document`.
  - Lemmas state what that list contains.

The model follows `generatePDF` as written:

- The file name is `orcamento_<slug>.pdf`.
- The representative's name and CPF are two separate lines, each drawn only
  when its own field is non-empty.
- The items table always has the same four columns, and every cell is
  filled from the item.
- Nothing else is drawn between the client lines and the items, and nothing
  between the observations and the footer.
- Items are read as `quantidade`, `descricao` and `valorUnitario`. These are
  the fields the generator uses. The declared `Item` interface lists
  `valorTotal` instead of `valorUnitario`.

## Model

| member | source | states |
|---|---|---|
| Formatters.Digits | src/utils/formatters.ts:21 | `replace(/\D/g, '')` keeps only ASCII digits and is never longer than its input |
| Formatters.MaskCNPJ | src/utils/formatters.ts:19-37 | the mask is never longer than the full pattern (18 characters) |
| Formatters.MaskCNPJChars | src/utils/formatters.ts:19-37 | the result holds only digits, `.`, `/` and `-`, and is at most 18 characters long |
| Formatters.MaskCNPJStructure | src/utils/formatters.ts:23-36 | the digits of the mask are the first min(14, n) input digits; the separators are the first 0, 1, 2, 3 or 4 of `. . / -` for n ≤ 2, ≤ 5, ≤ 8, ≤ 12 or more digits; the length is their sum |
| Formatters.MaskCNPJFillsPattern | src/utils/formatters.ts:23-36 | the mask equals the pattern `##.###.###/####-##` filled with the input digits, a separator written only when a digit follows it; every position matches the pattern |
| Formatters.MaskCNPJComplete | src/utils/formatters.ts:15 | with 14 or more digits the mask is 18 characters long, the whole pattern filled |
| Formatters.MaskCNPJOnlyDigitsMatter | src/utils/formatters.ts:21 | the mask depends only on the digits of the input: inputs with the same digits give the same mask |
| Formatters.MaskCNPJIgnoresNonDigit | src/utils/formatters.ts:21 | inserting a non-digit anywhere leaves the mask unchanged |
| Formatters.MaskCNPJIdempotent | src/utils/formatters.ts:19-37 | masking a masked value changes nothing |
| Formatters.MaskCNPJExampleFull | src/utils/formatters.ts:36 | `"12345678901234"` becomes `"12.345.678/9012-34"` |
| Formatters.MaskCNPJExamplePartial | src/utils/formatters.ts:27 | `"12.3a"` (digits `123`) becomes `"12.3"` |
| Formatters.MaskCNPJExampleThreeDigits | src/utils/formatters.ts:27 | `"123"` becomes `"12.3"` |
| Formatters.MaskCPF | src/utils/formatters.ts:45-60 | the mask is never longer than the full pattern (14 characters) |
| Formatters.MaskCPFChars | src/utils/formatters.ts:45-60 | the result holds only digits, `.` and `-`, and is at most 14 characters long |
| Formatters.MaskCPFStructure | src/utils/formatters.ts:49-59 | the digits of the mask are the first min(11, n) input digits; the separators are the first 0, 1, 2 or 3 of `. . -` for n ≤ 3, ≤ 6, ≤ 9 or more digits; the length is their sum |
| Formatters.MaskCPFFillsPattern | src/utils/formatters.ts:49-59 | the mask equals the pattern `###.###.###-##` filled with the input digits; every position matches the pattern |
| Formatters.MaskCPFComplete | src/utils/formatters.ts:41 | 11 or more digits give 14 characters; exactly 10 digits give 13 (`DDD.DDD.DDD-D`) |
| Formatters.MaskCPFShortUnchanged | src/utils/formatters.ts:49-51 | with at most 3 digits the mask is just the digits, so a short digit string comes back unchanged |
| Formatters.MaskCPFOnlyDigitsMatter | src/utils/formatters.ts:47 | the mask depends only on the digits of the input |
| Formatters.MaskCPFIgnoresNonDigit | src/utils/formatters.ts:47 | inserting a non-digit anywhere leaves the mask unchanged |
| Formatters.MaskCPFIdempotent | src/utils/formatters.ts:45-60 | masking a masked value changes nothing |
| Formatters.MaskCPFExampleFull | src/utils/formatters.ts:59 | `"12345678901"` becomes `"123.456.789-01"` |
| Formatters.MaskCPFExampleTenDigits | src/utils/formatters.ts:59 | `"1234567890"` becomes `"123.456.789-0"` |
| Formatters.FillTruncates | src/utils/formatters.ts:36 | filling a pattern needs no more digits than it has holes: the digits past the last hole are dropped (`slice(12, 14)`, `slice(9, 11)`) |
| Formatters.FillFits | src/utils/formatters.ts:23-36 | a pattern filled with digits is a prefix of the pattern with holes replaced by digits |
| PdfFilename.StripPunct | src/utils/pdfGenerator.ts:152 | `replace(/[^\w\s]/gi, '')` leaves only word characters and whitespace |
| PdfFilename.TrimStart | src/utils/pdfGenerator.ts:152 | the result is a suffix of the input, everything dropped is whitespace, and it does not start with whitespace |
| PdfFilename.TrimEnd | src/utils/pdfGenerator.ts:152 | the result is a prefix of the input, everything dropped is whitespace, and it does not end with whitespace |
| PdfFilename.Trim | src/utils/pdfGenerator.ts:152 | `trim()` leaves text that neither starts nor ends with whitespace |
| PdfFilename.TrimKeeps | src/utils/pdfGenerator.ts:152 | `trim()` only removes characters: any property of every input character holds of every character left |
| PdfFilename.TrimEmptyIff | src/utils/pdfGenerator.ts:152 | text trims to nothing exactly when it is all whitespace |
| PdfFilename.Collapse | src/utils/pdfGenerator.ts:152 | `replace(/\s+/g, '_')` leaves no whitespace, is never longer than its input, and is empty exactly when its input is |
| PdfFilename.CollapsePrefix | src/utils/pdfGenerator.ts:152 | text without whitespace at the front is copied unchanged, and the rest is collapsed on its own |
| PdfFilename.CollapseRun | src/utils/pdfGenerator.ts:152 | a maximal whitespace run at the front, of any length, becomes one `_`, and the rest is collapsed on its own; with `CollapsePrefix` this fixes the result on every text, run by run |
| PdfFilename.CollapseKeeps | src/utils/pdfGenerator.ts:152 | apart from the `_` it writes, every character of the result keeps any property that all the input characters have |
| PdfFilename.CollapseJoin | src/utils/pdfGenerator.ts:152 | a whitespace run of any length between two space-free texts becomes one `_` |
| PdfFilename.Slug | src/utils/pdfGenerator.ts:152 | the slug holds only `a-z`, `0-9` and `_` |
| PdfFilename.FilenameShape | src/utils/pdfGenerator.ts:153 | the file name is `orcamento_`, then the slug, then `.pdf` |
| PdfFilename.SlugOfSlug | src/utils/pdfGenerator.ts:152 | a text already made of slug characters is its own slug |
| PdfFilename.SlugIdempotent | src/utils/pdfGenerator.ts:152 | slugging a slug changes nothing |
| PdfFilename.SlugOfWord | src/utils/pdfGenerator.ts:152 | a name of word characters only becomes its lower-case form |
| PdfFilename.SlugIgnoresPunct | src/utils/pdfGenerator.ts:152 | a character that is neither a word character nor whitespace has no effect, wherever it stands |
| PdfFilename.SlugIgnoresOuterSpace | src/utils/pdfGenerator.ts:152 | leading and trailing whitespace has no effect |
| PdfFilename.SlugJoin | src/utils/pdfGenerator.ts:152 | two words separated by any whitespace run are joined by exactly one `_`, and both are lower-cased |
| PdfFilename.SlugJoinRest | src/utils/pdfGenerator.ts:152 | a word, a whitespace run, then any further words and runs: the slug is the lower-cased word, one `_`, and the slug of the rest, so a name of any number of words has its words joined by single underscores |
| PdfFilename.SlugEmptyIff | src/utils/pdfGenerator.ts:152-153 | the slug is empty exactly when the name holds no word character, and the file is then `orcamento_.pdf` |
| PdfFilename.FilenameExample | src/utils/pdfGenerator.ts:152-153 | `"Acme & Co."` is saved as `orcamento_acme_co.pdf` |
| PdfGenerator.Doc.constructor | src/utils/pdfGenerator.ts:14 | `new jsPDF()` starts with nothing drawn, no table and the default 16-point font |
| PdfGenerator.Doc.AddText | src/utils/pdfGenerator.ts:63 | `doc.text` appends one text, at the font size currently set, and changes nothing else |
| PdfGenerator.Doc.SetFontSize | src/utils/pdfGenerator.ts:62 | `doc.setFontSize` changes the font for later texts and draws nothing |
| PdfGenerator.Doc.AddImage | src/utils/pdfGenerator.ts:50 | `doc.addImage` appends one image |
| PdfGenerator.Doc.AutoTable | src/utils/pdfGenerator.ts:106-122 | `autoTable` appends the table and records where it ended (`lastAutoTable.finalY`) |
| PdfGenerator.Doc.SaveAs | src/utils/pdfGenerator.ts:156 | `doc.save` records the save under the given file name |
| PdfGenerator.WriteHeader | src/utils/pdfGenerator.ts:50-72 | appends the logo, the title, the date and the client heading; the font is then 12 and the table state unchanged |
| PdfGenerator.WriteClient | src/utils/pdfGenerator.ts:74-84 | appends the company and CNPJ lines, then each representative line only when its field is non-empty; the font is then 10 and the table state unchanged |
| PdfGenerator.WriteItems | src/utils/pdfGenerator.ts:87-122 | appends the items heading and the table, and records where the table ended; the font is then 12 |
| PdfGenerator.WritePostTable | src/utils/pdfGenerator.ts:125-145 | appends total, payment and observations at the fixed offsets below `finalY`; the font is then 10 and the table state unchanged |
| PdfGenerator.WriteFooterAndSave | src/utils/pdfGenerator.ts:148-156 | appends the footer at 8 points, then the save under the name made from the company |
| PdfGenerator.WriteUpper | src/utils/pdfGenerator.ts:50-122 | everything down to the table, in order, ending with the table's end recorded |
| PdfGenerator.WriteLower | src/utils/pdfGenerator.ts:125-156 | everything after the table, in order, ending with the save; the table state unchanged |
| PdfGenerator.Document | src/utils/pdfGenerator.ts:38-156 | the command list is empty exactly when the logo could not be fetched |
| PdfGenerator.GeneratePdf | src/utils/pdfGenerator.ts:12-157 | the commands issued are exactly `Document` of the inputs; a failed logo fetch leaves an empty document at 16 points with no table; otherwise the document ends at 8 points with the table's end recorded |
| PdfGenerator.ClientLinesContents | src/utils/pdfGenerator.ts:75-84 | the company and CNPJ lines always come first; the representative line is present iff `nomeRepresentante` is non-empty, and the CPF line iff `cpfRepresentante` is non-empty, each independently; the count of lines follows |
| PdfGenerator.ClientLines | src/utils/pdfGenerator.ts:74-84 | between two and four client lines |
| PdfGenerator.Rows | src/utils/pdfGenerator.ts:98-103 | one row per item |
| PdfGenerator.RowsAt | src/utils/pdfGenerator.ts:98-114 | the table body has one row per item, row k built from item k, four cells each |
| PdfGenerator.RowsConcat | src/utils/pdfGenerator.ts:98-103 | the rows of two item lists joined are the rows of each, in order |
| PdfGenerator.HeaderRow | src/utils/pdfGenerator.ts:108 | `tableColumns.map(col => col.header)`: one heading per column, the heading of column i in place i |
| PdfGenerator.HeadersFromColumns | src/utils/pdfGenerator.ts:91-108 | the head row drawn is the columns' headings in column order |
| PdfGenerator.RowFollowsColumns | src/utils/pdfGenerator.ts:91-114 | the body agrees with the head: each row has one cell per column, and the cell in column i is the row object's field under column i's `dataKey` |
| PdfGenerator.PostTableLayout | src/utils/pdfGenerator.ts:125-145 | eight texts at `finalY` + 0, 15, 23, 30, 45, 53, 60, 67, in the order total, payment, bank, Pix, observations, warranty, execution, validity, each strictly below the previous one |
| PdfGenerator.PostTableShift | src/utils/pdfGenerator.ts:125 | moving the end of the table moves every later line by the same amount and changes nothing else |
| PdfGenerator.PostTableAboveFooter | src/utils/pdfGenerator.ts:125-149 | the sections after the table lie below the table and above the footer line (y 285) exactly when the table ends above y 208 |
| PdfGenerator.DocumentSaved | src/utils/pdfGenerator.ts:38-156 | no logo means nothing drawn and nothing saved; otherwise the last command is the one save, under the name made from the company |

## Left out

- The logo download is not modelled: the `fetch`, the `FileReader` conversion and `window.location` (src/utils/pdfGenerator.ts:37-47) are network and asynchronous I/O. The logo is an `Option<string>` parameter, and `None` stands for a failed fetch.
- `formatCurrency` (src/utils/formatters.ts:6-11) is not modelled: it wraps `Intl.NumberFormat`. The currency formatter and `Number.prototype.toString` are function parameters with no stated behaviour.
- The date is a parameter: `new Date().toLocaleDateString('pt-BR')` (line 66) reads the clock and the locale.
- Page layout is left to jsPDF and jspdf-autotable. How far down the table ends (`lastAutoTable.finalY`) is an input. Styling beyond alignment, head colours and theme is not modelled, and neither is page breaking or rendering.
- Amounts are exact reals. The IEEE double arithmetic of `quantidade * valorUnitario` (line 102) is not modelled.
- Commented-out code (lines 53-59) is not modelled.
- Characters: JavaScript strings are UTF-16, and the model's characters are Unicode scalar values. Characters outside the Basic Multilingual Plane match neither `\w` nor `\s`, so both are removed either way, and the slug is not affected.
- PdfFilename.Lower: lower-cases ASCII letters only. By that step only ASCII word characters and `_` remain, so it is exact there.
- The `Cliente` fields `modeloMaquina` and `marcaMaquina` are declared but never drawn. They are kept in the record only.
