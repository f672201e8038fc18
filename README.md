# ffuf_auto: command builder, result extraction and HTML report

`ffuf_auto` is a small driver around the external `ffuf` content-discovery
scanner. It builds an `ffuf` command line for a target URL, a wordlist, a
thread count and an optional HTTP header. It runs the scanner with JSON output
to a log file, then reads the `results` array back out of that JSON. Finally
it renders the results as a static HTML report with a header block (target,
wordlist, threads, header, total results), one table row per result, and a
fixed closing suffix.

This project models the three pieces of original logic in `main.py`:

- `command.dfy` (module `Command`): the argument list of `run_ffuf`. A pure
  specification `FfufCommand` is paired with the imperative builder
  `BuildFfufCommand`, which extends the list only when a header is given. A
  reader `ParseCommand` takes such a list as flag/value pairs, and a
  round-trip lemma shows that the scanner is asked for exactly the given
  request.
- `scan.dfy` (module `Scan`): the result record, the Python truthiness of the
  optional header (`Given`: absent and `""` are both false), and
  `parse_ffuf_output`'s lookup of the `results` key with an empty default.
- `report.dfy` (module `Report`): `generate_html_report`. The document is
  specified by `Document` = prefix + rows + suffix. The prefix and each row
  are lists of text pieces joined by `Text.Concat`. The method
  `GenerateHtmlReport` builds the string as the source does: the prefix, then
  the `for` loop (`AppendRows`) that appends one row per record, then the
  suffix. It is proved equal to `Document`. Lemmas state where each record's
  row sits and in which order, what each row shows, and where the header and
  the result count appear.
- `decimal.dfy` (module `Decimal`): Python's `str()` of an integer, which the
  source applies to the thread count, the result count and the numeric fields
  of each record, with a reader that reads the text back as the number.
- `text.dfy` (module `Text`) and `wrappers.dfy` (module `Wrappers`): the
  string-joining helpers and the `Option` type.

Fields are embedded in the HTML without escaping, as in the source. A URL
that contains markup therefore ends up in the page as markup. For that reason
the lemmas locate each piece at its offset rather than searching the text.

## Model

| member | source | states |
|---|---|---|
| `Command.BuildFfufCommand` | main.py:20-30 | the built list equals `FfufCommand`, begins with the eleven fixed arguments `ffuf -u url -w wordlist -t threads -o output -of json` in that order, and has 13 elements when the header is truthy and 11 otherwise |
| `Command.FfufCommandShape` | main.py:20-30 | the command always begins with the eleven fixed arguments; it has 13 elements exactly when the header is truthy, 11 exactly when it is not, and then ends with `-H` and the header |
| `Command.FfufCommandRoundTrip` | main.py:20-30 | reading the command back as flag/value pairs recovers the target, the wordlist, the thread count, the output path, the `json` format, and the header exactly when it is truthy (otherwise no `-H`) |
| `Command.ExampleCommand` | main.py:20-30 | for `http://x/FUZZ`, `w.txt`, 50 threads and no header the command is the literal eleven-element list with `"50"`; an empty header gives the same command as no header |
| `Scan.ParseResults` | main.py:42 | the result is the array stored under `results` when that key is present and the empty sequence when it is absent |
| `Scan.ParseResultsIgnoresOtherKeys` | main.py:42 | adding, replacing or removing any key other than `results` does not change the extracted records |
| `Scan.ParseResultsReturnsStored` | main.py:42-43 | whatever array is stored under `results` is returned unchanged, with the same length and the same element at every index |
| `Decimal.NatToString` | main.py:68 | the numeral of a natural number is non-empty, all digits, has no leading zero, and is one digit long exactly for numbers below 10 |
| `Decimal.IntToString` | main.py:24 | the text of an integer is non-empty, starts with `-` exactly when the integer is negative, and is all digits otherwise |
| `Decimal.IntToStringRoundTrip` | main.py:24 | reading back the text of any integer gives that integer |
| `Decimal.IntToStringInjective` | main.py:93-95 | different integers are rendered as different texts |
| `Report.StatusClass` | main.py:81-86 | the class is `status-200`, `status-403` or `status-500` exactly for those three codes and `status-other` exactly for every other code, so the split is total and exclusive |
| `Report.HeaderText` | main.py:67 | the header line shows the header verbatim when it is truthy and the literal `None` otherwise |
| `Report.RedirectText` | main.py:96 | the redirect cell holds the redirect location when the record has one and the empty string when it has none |
| `Report.AppendRows` | main.py:80-98 | the loop appends to the text it starts from the rows of all records, one per record, in input order |
| `Report.GenerateHtmlReport` | main.py:45-104 | the rendered text is the document: the prefix for the metadata and the result count, the rows of the records, then the suffix |
| `Report.RowsAppend` | main.py:80-98 | the rows of two record lists, one after the other, are the rows of their concatenation |
| `Report.RowsExtend` | main.py:80-98 | one more loop iteration adds exactly the next record's row at the end |
| `Report.RowsSplit` | main.py:80-98 | the rows consist of the rows of the records before record `k`, then record `k`'s row, then the rows of the records after it |
| `Report.RowsAreRowTexts` | main.py:80-98 | the rows are exactly one row text per record, record `i`'s row at position `i`, joined in order |
| `Report.RowsInOrder` | main.py:80-98 | the row of an earlier record ends before the row of a later record begins |
| `Report.RowsShowRow` | main.py:80-98 | record `k`'s row appears in the rows right after the rows of the records before it |
| `Report.DocumentShowsRow` | main.py:80-100 | record `k`'s row appears in the document right after the prefix and the rows of records `0..k-1` |
| `Report.DocumentShowsPrefixPart` | main.py:46-78 | every piece of the prefix appears in the document at its offset, whatever the records are |
| `Report.DocumentShowsHeader` | main.py:67 | after the `Header:` label the document shows the header verbatim when it is truthy and `None` otherwise |
| `Report.DocumentShowsCount` | main.py:68 | after the `Total Results:` label the document shows a numeral that reads back as the number of records |
| `Report.EmptyDocument` | main.py:46-104 | with no records the document is exactly the prefix followed by the suffix, and the count shown is `0` |
| `Report.RowShowsLink` | main.py:92-93 | each row shows the record URL twice, first as the link target (after `href="`) and then as the link text, followed by the status class |
| `Report.RowShowsNumbers` | main.py:93-95 | each row shows the status code, the content length and the line count as numerals that read back as the record's values |
| `Report.RowShowsRedirect` | main.py:96 | the last cell of each row holds the redirect location, or nothing when the record has none |
| `Report.ExampleReport` | main.py:64-98 | a record `http://x/admin` with status 200, length 10, 1 line and no redirect renders with class `status-200`, cells `200`, `10`, `1` and an empty redirect cell; with no header the metadata shows `None` and `Total Results` shows `1` |

## Left out

- Running the scanner (`subprocess.run` with `check=True`), its failure and the `CalledProcessError` handler in `main` (main.py:34, main.py:120-127): external process execution. The model does not capture that a failed scan produces no report.
- Timestamps from `datetime.now()` and the log and report file names built from them (main.py:17-18, main.py:123-124): non-deterministic. The output path is a parameter of the command builder.
- Creating the `reports` and `logs` directories, reading the JSON file, writing the HTML file, and every `print` (main.py:13-14, main.py:32, main.py:39-40, main.py:106-109): I/O. `GenerateHtmlReport` returns the document instead of writing it to `output_file`.
- `json.load` (main.py:40): the decoded document is modelled as a map from keys to record lists. Only the `results` key is ever read. A JSON file that fails to decode is not modelled.
- `Scan.ParseResults`: records are well-formed by construction. A record that lacks `url`, `status`, `length` or `lines` makes the source fail while rendering (a `KeyError`), and the model does not capture that failure.
- Command-line parsing with `argparse` (main.py:112-118): a library call. The default of 50 threads appears only in the examples. The source does not require the thread count to be positive, so the model accepts any integer.
- The content of the inline style sheet (main.py:50-60): kept as literal text lines and not reasoned about.
- HTML escaping: the source does none, and neither does the model.
