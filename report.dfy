/**
 * The HTML document `generate_html_report` writes: a fixed head that shows
 * the run's metadata, one table row per result record in input order, and a
 * fixed closing suffix. Fields are embedded as they are, without escaping.
 */
module Report {
  import opened Wrappers
  import opened Decimal
  import opened Scan
  import opened Text

  /** The style class of a status code: three exact codes and a catch-all. */
  function StatusClass(status: int): (c: string)
    ensures c == "status-200" <==> status == 200
    ensures c == "status-403" <==> status == 403
    ensures c == "status-500" <==> status == 500
    ensures c == "status-other" <==> status != 200 && status != 403 && status != 500
  {
    if status == 200 then "status-200"
    else if status == 403 then "status-403"
    else if status == 500 then "status-500"
    else "status-other"
  }

  /** The header as the metadata block shows it. */
  function HeaderText(header: Option<string>): (s: string)
    ensures Given(header) ==> s == header.value
    ensures !Given(header) ==> s == "None"
  {
    if Given(header) then header.value else "None"
  }

  /** The redirect cell's text. */
  function RedirectText(redirect: Option<string>): (s: string)
    ensures redirect.Some? ==> s == redirect.value
    ensures redirect.None? ==> s == ""
  {
    match redirect
    case Some(location) => location
    case None => ""
  }

  /** The lines of the inline style sheet; the model does not reason about their content. */
  const StyleLines: seq<string> := [
    "            body { background-color: #121212; color: #e0e0e0; font-family: Arial, sans-serif; }\n",
    "            table { width: 100%; border-collapse: collapse; margin-top: 20px; }\n",
    "            th, td { border: 1px solid #444; padding: 8px; text-align: left; }\n",
    "            th { background-color: #222; }\n",
    "            tr:nth-child(even) { background-color: #1c1c1c; }\n",
    "            .status-200 { color: #00ff00; }\n",
    "            .status-403 { color: #ffcc00; }\n",
    "            .status-500 { color: #ff4444; }\n",
    "            .status-other { color: #999999; }\n"]

  /** The lines before the metadata: document head with the style sheet, page title. */
  const HeadLines: seq<string> :=
    ["\n",
     "    <html>\n",
     "    <head>\n",
     "        <title>FFUF Scan Report</title>\n",
     "        <style>\n"]
    + StyleLines +
    ["        </style>\n",
     "    </head>\n",
     "    <body>\n",
     "        <h1>FFUF Scan Report</h1>\n"]

  /** The table opening and its header row, which end the prefix. */
  const TableHeadLines: seq<string> := [
    "\n",
    "        <table>\n",
    "            <tr>\n",
    "                <th>URL</th>\n",
    "                <th>Status Code</th>\n",
    "                <th>Content Length</th>\n",
    "                <th>Lines</th>\n",
    "                <th>Redirect</th>\n",
    "            </tr>\n",
    "    "]

  /** Closes the table and the document. */
  const Suffix: string :=
    "\n" +
    "        </table>\n" +
    "    </body>\n" +
    "    </html>\n" +
    "    "

  function LabelOpen(name: string): string {
    "        <p><b>" + name + ":</b> "
  }

  const LabelClose: string := "</p>\n"

  /** The metadata lines: target, wordlist, threads, header and total results, each a label and a value. */
  function MetaParts(url: string, wordlist: string, threads: int, header: Option<string>, count: nat): seq<string> {
    [LabelOpen("Target"), url, LabelClose,
     LabelOpen("Wordlist"), wordlist, LabelClose,
     LabelOpen("Threads"), IntToString(threads), LabelClose,
     LabelOpen("Header"), HeaderText(header), LabelClose,
     LabelOpen("Total Results"), NatToString(count), LabelClose]
  }

  /** The pieces of the prefix: the head lines, the metadata lines, the table opening. */
  function PrefixParts(url: string, wordlist: string, threads: int, header: Option<string>, count: nat): seq<string> {
    HeadLines + MetaParts(url, wordlist, threads, header, count) + TableHeadLines
  }

  /** Where the header's piece and the result count's piece sit among the prefix pieces. */
  const HeaderPart: nat := |HeadLines| + 10
  const CountPart: nat := |HeadLines| + 13

  /** The part of the document that depends only on the run's metadata and the result count. */
  function Prefix(url: string, wordlist: string, threads: int, header: Option<string>, count: nat): string {
    Concat(PrefixParts(url, wordlist, threads, header, count))
  }

  const RowOpen: string := "\n            <tr>\n                <td><a href=\""
  const HrefClose: string := "\" target=\"_blank\">"
  const LinkClose: string := "</a></td>\n                <td class=\""
  const ClassClose: string := "\">"
  const CellBreak: string := "</td>\n                <td>"
  const RowClose: string := "</td>\n            </tr>\n        "

  /** The pieces of one record's row: the URL as target and text of a link, then status, length, lines, redirect. */
  function RowParts(r: Record): seq<string> {
    [RowOpen, r.url, HrefClose, r.url, LinkClose,
     StatusClass(r.status), ClassClose, IntToString(r.status),
     CellBreak, IntToString(r.length),
     CellBreak, IntToString(r.lines),
     CellBreak, RedirectText(r.redirect),
     RowClose]
  }

  function Row(r: Record): string {
    Concat(RowParts(r))
  }

  /** The rows of all records, one after another in input order. */
  function Rows(rs: seq<Record>): string {
    if rs == [] then "" else Row(rs[0]) + Rows(rs[1..])
  }

  /** The complete report, the specification of GenerateHtmlReport. */
  function Document(results: seq<Record>, url: string, wordlist: string, threads: int, header: Option<string>): string {
    Prefix(url, wordlist, threads, header, |results|) + Rows(results) + Suffix
  }

  lemma {:induction false} RowsAppend(a: seq<Record>, b: seq<Record>)
    ensures Rows(a + b) == Rows(a) + Rows(b)
  {
    if a == [] {
      assert a + b == b;
    } else {
      var ab := a + b;
      assert ab[0] == a[0];
      assert ab[1..] == a[1..] + b;
      RowsAppend(a[1..], b);
      AppendAssociative(Row(a[0]), Rows(a[1..]), Rows(b));
    }
  }

  /** Extending the records by the next one extends the rows by its row. */
  lemma RowsExtend(rs: seq<Record>, i: nat)
    requires i < |rs|
    ensures Rows(rs[..i + 1]) == Rows(rs[..i]) + Row(rs[i])
  {
    TakeOneMore(rs, i);
    RowsAppend(rs[..i], [rs[i]]);
    RowsSingle(rs[i]);
  }

  lemma RowsSingle(r: Record)
    ensures Rows([r]) == Row(r)
  {
    assert [r][1..] == [];
    var row := Row(r);
    assert row + "" == row;
  }

  /** The rows split around the row of record `k`. */
  lemma RowsSplit(rs: seq<Record>, k: nat)
    requires k < |rs|
    ensures Rows(rs) == Rows(rs[..k]) + Row(rs[k]) + Rows(rs[k + 1..])
  {
    TakeDrop(rs, k);
    RowsAppend(rs[..k] + [rs[k]], rs[k + 1..]);
    RowsAppend(rs[..k], [rs[k]]);
    RowsSingle(rs[k]);
  }

  /** The rows are exactly one row per record, in the records' order. */
  lemma {:induction false} RowsAreRowTexts(rs: seq<Record>)
    ensures Rows(rs) == Concat(seq(|rs|, i requires 0 <= i < |rs| => Row(rs[i])))
  {
    var texts := seq(|rs|, i requires 0 <= i < |rs| => Row(rs[i]));
    if rs != [] {
      var rest := seq(|rs| - 1, i requires 0 <= i < |rs| - 1 => Row(rs[1..][i]));
      assert texts[1..] == rest;
      RowsAreRowTexts(rs[1..]);
    }
  }

  /** Rows keep the records' order: the row of an earlier record ends before the row of a later one starts. */
  lemma RowsInOrder(rs: seq<Record>, j: nat, k: nat)
    requires j < k < |rs|
    ensures |Rows(rs[..j])| + |Row(rs[j])| <= |Rows(rs[..k])|
  {
    var before := rs[..k];
    assert before[..j] == rs[..j] && before[j] == rs[j];
    RowsSplit(before, j);
  }

  /** The rows hold the row of record `k` right after the rows of the records before it. */
  lemma RowsShowRow(rs: seq<Record>, k: nat)
    requires k < |rs|
    ensures Embedded(Rows(rs), |Rows(rs[..k])|, Row(rs[k]))
  {
    RowsSplit(rs, k);
    SliceMiddle(Rows(rs[..k]), Row(rs[k]), Rows(rs[k + 1..]));
  }

  /** The document holds the row of record `k` right after the prefix and the rows of the records before it. */
  lemma DocumentShowsRow(results: seq<Record>, url: string, wordlist: string, threads: int, header: Option<string>, k: nat)
    requires k < |results|
    ensures Embedded(Document(results, url, wordlist, threads, header),
                     |Prefix(url, wordlist, threads, header, |results|)| + |Rows(results[..k])|,
                     Row(results[k]))
  {
    RowsShowRow(results, k);
    EmbeddedWithin(Prefix(url, wordlist, threads, header, |results|), Rows(results), Suffix, |Rows(results[..k])|, Row(results[k]));
  }

  /** A piece of the prefix appears at its offset in the whole document. */
  lemma DocumentShowsPrefixPart(results: seq<Record>, url: string, wordlist: string, threads: int, header: Option<string>, k: nat)
    requires k < |PrefixParts(url, wordlist, threads, header, |results|)|
    ensures var parts := PrefixParts(url, wordlist, threads, header, |results|);
      Embedded(Document(results, url, wordlist, threads, header), Offset(parts, k), parts[k])
  {
    var parts := PrefixParts(url, wordlist, threads, header, |results|);
    ConcatEmbeds(parts, k);
    EmbeddedBefore(Concat(parts), Rows(results), Offset(parts, k), parts[k]);
    EmbeddedBefore(Concat(parts) + Rows(results), Suffix, Offset(parts, k), parts[k]);
  }

  /** The header line shows the header verbatim when it is truthy and `None` otherwise. */
  lemma DocumentShowsHeader(results: seq<Record>, url: string, wordlist: string, threads: int, header: Option<string>)
    ensures var parts := PrefixParts(url, wordlist, threads, header, |results|);
      && parts[HeaderPart - 1] == LabelOpen("Header")
      && Embedded(Document(results, url, wordlist, threads, header), Offset(parts, HeaderPart),
                  if Given(header) then header.value else "None")
  {
    DocumentShowsPrefixPart(results, url, wordlist, threads, header, HeaderPart);
  }

  /** The "Total Results" line shows a numeral that reads back as the number of records. */
  lemma DocumentShowsCount(results: seq<Record>, url: string, wordlist: string, threads: int, header: Option<string>)
    ensures var parts := PrefixParts(url, wordlist, threads, header, |results|);
      && parts[CountPart - 1] == LabelOpen("Total Results")
      && Embedded(Document(results, url, wordlist, threads, header), Offset(parts, CountPart), parts[CountPart])
      && ParseInt(parts[CountPart]) == Some(|results|)
  {
    DocumentShowsPrefixPart(results, url, wordlist, threads, header, CountPart);
    IntToStringRoundTrip(|results|);
  }

  /** With no records the document is the prefix followed directly by the suffix, with a count of 0. */
  lemma EmptyDocument(url: string, wordlist: string, threads: int, header: Option<string>)
    ensures Document([], url, wordlist, threads, header) == Prefix(url, wordlist, threads, header, 0) + Suffix
    ensures PrefixParts(url, wordlist, threads, header, 0)[CountPart] == "0"
  {
    var p := Prefix(url, wordlist, threads, header, 0);
    assert p + "" == p;
  }

  /** Each row shows the record's URL twice, as link target and as link text, and then its status class. */
  lemma RowShowsLink(r: Record)
    ensures var parts := RowParts(r);
      && parts[0] == RowOpen && parts[2] == HrefClose
      && Embedded(Row(r), Offset(parts, 1), r.url)
      && Embedded(Row(r), Offset(parts, 3), r.url)
      && Embedded(Row(r), Offset(parts, 5), StatusClass(r.status))
  {
    var parts := RowParts(r);
    ConcatEmbeds(parts, 1);
    ConcatEmbeds(parts, 3);
    ConcatEmbeds(parts, 5);
  }

  /** Each row shows the status code, length and line count as numerals that read back as the record's values. */
  lemma RowShowsNumbers(r: Record)
    ensures var parts := RowParts(r);
      && Embedded(Row(r), Offset(parts, 7), parts[7]) && ParseInt(parts[7]) == Some(r.status)
      && Embedded(Row(r), Offset(parts, 9), parts[9]) && ParseInt(parts[9]) == Some(r.length)
      && Embedded(Row(r), Offset(parts, 11), parts[11]) && ParseInt(parts[11]) == Some(r.lines)
  {
    var parts := RowParts(r);
    ConcatEmbeds(parts, 7);
    ConcatEmbeds(parts, 9);
    ConcatEmbeds(parts, 11);
    IntToStringRoundTrip(r.status);
    IntToStringRoundTrip(r.length);
    IntToStringRoundTrip(r.lines);
  }

  /** The last cell of each row holds the redirect location, or nothing when the record has none. */
  lemma RowShowsRedirect(r: Record)
    ensures var parts := RowParts(r);
      && parts[12] == CellBreak && parts[14] == RowClose && |parts| == 15
      && Embedded(Row(r), Offset(parts, 13), if r.redirect.Some? then r.redirect.value else "")
  {
    ConcatEmbeds(RowParts(r), 13);
  }

  /**
   * A scan with one result, `http://x/admin` with status 200, length 10 and
   * one line, no redirect and no header: the row carries the 200 class and an
   * empty redirect cell, and the header line shows `None`.
   */
  lemma ExampleReport()
    ensures var r := Record("http://x/admin", 200, 10, 1, None);
      && RowParts(r) == [RowOpen, "http://x/admin", HrefClose, "http://x/admin", LinkClose,
                         "status-200", ClassClose, "200",
                         CellBreak, "10", CellBreak, "1", CellBreak, "",
                         RowClose]
      && MetaParts("http://x/FUZZ", "w.txt", 50, None, 1)
         == [LabelOpen("Target"), "http://x/FUZZ", LabelClose,
             LabelOpen("Wordlist"), "w.txt", LabelClose,
             LabelOpen("Threads"), "50", LabelClose,
             LabelOpen("Header"), "None", LabelClose,
             LabelOpen("Total Results"), "1", LabelClose]
  {
    assert DigitChar(0) == '0' && DigitChar(1) == '1' && DigitChar(2) == '2' && DigitChar(5) == '5';
    assert NatToString(200) == NatToString(20) + ['0'] == NatToString(2) + ['0'] + ['0'] == "200";
    assert NatToString(10) == NatToString(1) + ['0'] == "10";
    assert NatToString(50) == NatToString(5) + ['0'] == "50";
    assert NatToString(1) == "1";
  }

  /** The loop of the renderer: appends one row per record, in order, to `html`. */
  method AppendRows(html: string, results: seq<Record>) returns (out: string)
    ensures out == html + Rows(results)
  {
    out := html;
    for i := 0 to |results|
      invariant out == html + Rows(results[..i])
    {
      var result := results[i];
      RowsExtend(results, i);
      AppendAssociative(html, Rows(results[..i]), Row(result));
      out := out + Row(result);
    }
    TakeAll(results);
  }

  /**
   * Renders the report: the prefix for the run's metadata and result count,
   * then the rows, then the suffix.
   */
  method GenerateHtmlReport(results: seq<Record>, url: string, wordlist: string, header: Option<string>, threads: int)
    returns (html: string)
    ensures html == Document(results, url, wordlist, threads, header)
  {
    html := Prefix(url, wordlist, threads, header, |results|);
    html := AppendRows(html, results);
    html := html + Suffix;
  }
}
