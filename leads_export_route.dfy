/** CSV export of the saved leads (src/app/api/leads/export/route.ts): a fixed
    header line, then one line per lead, fields joined by "," and lines by
    "\n". Authentication and the database query are outside the model: the
    leads come in as rows, in the order the query returns them. */
module LeadsExportRoute {

  import opened Wrappers
  import opened Strings

  /** A saved lead as the export reads it. `createdAtIso` is the creation
      time already rendered by `toISOString()`. */
  datatype LeadRow = LeadRow(
    name: Option<string>,
    emails: Option<seq<string>>,
    primaryType: Option<string>,
    formattedAddress: Option<string>,
    phone: Option<string>,
    websiteUrl: Option<string>,
    rating: Option<string>,
    reviewCount: Option<int>,
    leadScore: Option<int>,
    notes: Option<string>,
    createdAtIso: string)

  const HEADERS: seq<string> := ["Name", "Email", "Type", "Address", "Phone", "Website", "Rating", "Reviews", "Score", "Notes", "Saved At"]

  // ------------------------------------------------------------ quoting

  /** `s.replace(/"/g, '""')`: every double quote doubled. */
  function EscapeQuotes(s: string): (r: string)
    ensures |r| >= |s|
    decreases |s|
  {
    if |s| == 0 then ""
    else (if s[0] == '"' then "\"\"" else [s[0]]) + EscapeQuotes(s[1..])
  }

  /** A field wrapped in double quotes with its quotes doubled. */
  function Quote(s: string): (r: string)
    ensures |r| >= 2 && r[0] == '"' && r[|r| - 1] == '"'
  {
    "\"" + EscapeQuotes(s) + "\""
  }

  /** A CSV reader's view of a quoted field: given the text after the opening
      quote, the field's value and the text after the closing quote, or
      `None` when the closing quote is missing. */
  function ReadQuotedBody(t: string): Option<(string, string)>
    decreases |t|
  {
    if |t| == 0 then None
    else if t[0] == '"' then
      if |t| >= 2 && t[1] == '"' then
        match ReadQuotedBody(t[2..])
        case None => None
        case Some(p) => Some(("\"" + p.0, p.1))
      else Some(("", t[1..]))
    else
      match ReadQuotedBody(t[1..])
      case None => None
      case Some(p) => Some(([t[0]] + p.0, p.1))
  }

  /** Quoting round-trips: after the opening quote a reader gets back the
      original value and stops right after the closing quote, whatever
      follows it unless that is another quote (in a row it is "," or "\n"
      or the end). */
  lemma {:induction false} EscapedRoundTrip(s: string, rest: string)
    requires rest == [] || rest[0] != '"'
    ensures ReadQuotedBody(EscapeQuotes(s) + ("\"" + rest)) == Some((s, rest))
    decreases |s|
  {
    if |s| == 0 {
      ReadClosingQuote(rest);
    } else {
      EscapedRoundTrip(s[1..], rest);
      EscapedStep(s, rest);
    }
  }

  /** The reader stops at a quote that is not doubled. */
  lemma ReadClosingQuote(rest: string)
    requires rest == [] || rest[0] != '"'
    ensures ReadQuotedBody(EscapeQuotes("") + ("\"" + rest)) == Some(("", rest))
  {
    assert EscapeQuotes("") + ("\"" + rest) == "\"" + rest;
    assert ("\"" + rest)[1..] == rest;
  }

  /** The inductive step of the round trip, on the first character of `s`. */
  lemma EscapedStep(s: string, rest: string)
    requires |s| > 0
    requires ReadQuotedBody(EscapeQuotes(s[1..]) + ("\"" + rest)) == Some((s[1..], rest))
    ensures ReadQuotedBody(EscapeQuotes(s) + ("\"" + rest)) == Some((s, rest))
  {
    var tail := EscapeQuotes(s[1..]) + ("\"" + rest);
    var head := if s[0] == '"' then "\"\"" else [s[0]];
    assert EscapeQuotes(s) == head + EscapeQuotes(s[1..]);
    ConcatAssoc(head, EscapeQuotes(s[1..]), "\"" + rest);
    if s[0] == '"' {
      ReadDoubledQuote(s, tail, rest);
    } else {
      ReadPlainChar(s, tail, rest);
    }
  }

  /** Regrouping a concatenation; kept as a lemma so that `EscapedStep` sees
      only this instance and stays cheap. */
  lemma ConcatAssoc(a: string, b: string, c: string)
    ensures (a + b) + c == a + (b + c)
  {
  }

  /** One step of the reader: an ordinary character is part of the value. */
  lemma ReadPlainChar(s: string, t: string, rest: string)
    requires |s| > 0 && s[0] != '"' && ReadQuotedBody(t) == Some((s[1..], rest))
    ensures ReadQuotedBody([s[0]] + t) == Some((s, rest))
  {
    assert ([s[0]] + t)[1..] == t;
    assert [s[0]] + s[1..] == s;
  }

  /** One step of the reader: a doubled quote is one quote of the value. */
  lemma ReadDoubledQuote(s: string, t: string, rest: string)
    requires |s| > 0 && s[0] == '"' && ReadQuotedBody(t) == Some((s[1..], rest))
    ensures ReadQuotedBody("\"\"" + t) == Some((s, rest))
  {
    assert ("\"\"" + t)[2..] == t;
    assert "\"" + s[1..] == s;
  }

  /** The same for the whole quoted field. */
  lemma QuoteRoundTrip(s: string, rest: string)
    requires rest == [] || rest[0] != '"'
    ensures |Quote(s) + rest| > 0 && (Quote(s) + rest)[0] == '"'
    ensures ReadQuotedBody((Quote(s) + rest)[1..]) == Some((s, rest))
  {
    assert (Quote(s) + rest)[1..] == EscapeQuotes(s) + ("\"" + rest);
    EscapedRoundTrip(s, rest);
  }

  // ------------------------------------------------------------ rows

  /** `x?.toString() || "0"` for an optional integer. */
  function CountField(n: Option<int>): string {
    match n
    case None => "0"
    case Some(v) => IntToString(v)
  }

  /** A count field reads back as the count: "0" for a missing count, the
      decimal digits of the count otherwise. */
  lemma CountFieldReadsBack(n: Option<int>)
    requires n.None? || n.value >= 0
    ensures forall i :: 0 <= i < |CountField(n)| ==> IsDigit(CountField(n)[i])
    ensures DigitsValue(CountField(n)) == n.GetOr(0)
  {
    if n.Some? {
      NatToStringRoundTrip(n.value);
    } else {
      assert DigitsValue("0") == DigitsValue("") * 10 + 0;
    }
  }

  /** `toISOString().split("T")[0]`: of a timestamp written as a date, "T"
      and a time, the field is the date. */
  lemma SavedAtIsDate(date: string, time: string)
    requires 'T' !in date
    ensures BeforeFirst(date + "T" + time, 'T') == date
  {
    var s := date + "T" + time;
    var r := BeforeFirst(s, 'T');
    assert s[|date|] == 'T';
    assert |r| == |date|;
    assert r == s[..|date|] == date;
  }

  /** The eleven fields of one lead, one per header. Name, address and notes
      are quoted and escaped (`NameReadsBack`, `AddressReadsBack`,
      `NotesReadsBack`), the counts are decimal (`CountsReadBack`) and the
      last field is the date without its time. */
  function RowFields(l: LeadRow): (fields: seq<string>)
    ensures |fields| == |HEADERS| == 11
    ensures fields[10] == BeforeFirst(l.createdAtIso, 'T') && 'T' !in fields[10]
    ensures l.primaryType.None? ==> fields[2] == ""
    ensures l.phone.None? ==> fields[4] == ""
    ensures l.websiteUrl.None? ==> fields[5] == ""
    ensures l.rating.None? ==> fields[6] == ""
  {
    [ Quote(OrEmpty(l.name)),
      "\"" + Join(l.emails.GetOr([]), "; ") + "\"",
      OrEmpty(l.primaryType),
      Quote(OrEmpty(l.formattedAddress)),
      OrEmpty(l.phone),
      OrEmpty(l.websiteUrl),
      OrEmpty(l.rating),
      CountField(l.reviewCount),
      CountField(l.leadScore),
      Quote(OrEmpty(l.notes)),
      BeforeFirst(l.createdAtIso, 'T') ]
  }

  function RowLine(l: LeadRow): string {
    Join(RowFields(l), ",")
  }

  function HeaderLine(): string {
    Join(HEADERS, ",")
  }

  /** `[headers.join(","), ...rows.map(r => r.join(","))].join("\n")`. */
  function Csv(leads: seq<LeadRow>): string {
    Join([HeaderLine()] + RowLines(leads), "\n")
  }

  function RowLines(leads: seq<LeadRow>): (lines: seq<string>)
    ensures |lines| == |leads|
    ensures forall i :: 0 <= i < |leads| ==> lines[i] == RowLine(leads[i])
  {
    seq(|leads|, i requires 0 <= i < |leads| => RowLine(leads[i]))
  }

  /** With no leads the export is the header line alone. */
  lemma CsvEmpty()
    ensures Csv([]) == HeaderLine()
  {
    assert [HeaderLine()] + RowLines([]) == [HeaderLine()];
  }

  /** Each further lead adds one line at the end: the lines are the header
      and then the leads, in input order. */
  lemma CsvSnoc(leads: seq<LeadRow>, l: LeadRow)
    ensures Csv(leads + [l]) == Csv(leads) + "\n" + RowLine(l)
  {
    var lines := [HeaderLine()] + RowLines(leads);
    assert [HeaderLine()] + RowLines(leads + [l]) == lines + [RowLine(l)];
    JoinSnoc(lines, RowLine(l), "\n");
  }

  /** The export starts with the header line. */
  lemma {:induction false} CsvStartsWithHeader(leads: seq<LeadRow>)
    ensures StartsWith(Csv(leads), HeaderLine())
    decreases |leads|
  {
    if |leads| == 0 {
      assert [HeaderLine()] + RowLines([]) == [HeaderLine()];
    } else {
      var p := leads[..|leads| - 1];
      assert leads == p + [leads[|leads| - 1]];
      CsvStartsWithHeader(p);
      CsvSnoc(p, leads[|leads| - 1]);
      assert Csv(leads)[..|HeaderLine()|] == Csv(p)[..|HeaderLine()|];
    }
  }

  /** `parts.join(sep)` begins with the first part and the separator. */
  lemma {:induction false} JoinHead(parts: seq<string>, sep: string)
    requires |parts| >= 2
    ensures Join(parts, sep) == parts[0] + sep + Join(parts[1..], sep)
    decreases |parts|
  {
    var p := parts[..|parts| - 1];
    if |parts| == 2 {
      assert p == [parts[0]];
      assert parts[1..] == [parts[1]];
    } else {
      JoinHead(p, sep);
      assert p[1..] == parts[1..][..|parts| - 2];
      assert Join(parts[1..], sep) == Join(p[1..], sep) + sep + parts[|parts| - 1];
    }
  }

  /** A reader of a row line gets the lead's name back as the first field,
      followed by the field separator. */
  lemma NameReadsBack(l: LeadRow)
    ensures var line := RowLine(l);
      line[0] == '"' &&
      exists rest :: ReadQuotedBody(line[1..]) == Some((OrEmpty(l.name), "," + rest))
  {
    var fields := RowFields(l);
    JoinHead(fields, ",");
    var rest := Join(fields[1..], ",");
    assert RowLine(l) == Quote(OrEmpty(l.name)) + ("," + rest);
    QuoteRoundTrip(OrEmpty(l.name), "," + rest);
  }

  /** A quoted field strictly inside a line reads back as its value: after
      the fields before it and a separator comes an opening quote, and the
      reader then yields the value followed by the separator and the later
      fields. */
  lemma QuotedFieldReadsBack(parts: seq<string>, k: nat, v: string)
    requires 0 < k < |parts| - 1 && parts[k] == Quote(v)
    ensures var line, pre := Join(parts, ","), Join(parts[..k], ",");
      |pre| + 2 <= |line| && line[..|pre| + 1] == pre + "," && line[|pre| + 1] == '"' &&
      ReadQuotedBody(line[|pre| + 2..]) == Some((v, "," + Join(parts[k + 1..], ",")))
  {
    var pre, tail := Join(parts[..k], ","), parts[k..];
    JoinAppend(parts[..k], tail, ",");
    assert parts[..k] + tail == parts;
    JoinHead(tail, ",");
    assert tail[1..] == parts[k + 1..];
    var rest := "," + Join(parts[k + 1..], ",");
    QuoteRoundTrip(v, rest);
    var line := Join(parts, ",");
    assert line == (pre + ",") + (Quote(v) + rest);
    assert line[..|pre| + 1] == pre + ",";
    assert line[|pre| + 1..] == Quote(v) + rest;
    assert line[|pre| + 2..] == (Quote(v) + rest)[1..];
  }

  /** After the name, email and type fields, the address field reads back as
      the lead's address, followed by ",". */
  lemma AddressReadsBack(l: LeadRow)
    ensures var line, pre := RowLine(l), Join(RowFields(l)[..3], ",");
      |pre| + 2 <= |line| && line[..|pre| + 1] == pre + "," && line[|pre| + 1] == '"' &&
      exists rest :: ReadQuotedBody(line[|pre| + 2..]) == Some((OrEmpty(l.formattedAddress), "," + rest))
  {
    QuotedFieldReadsBack(RowFields(l), 3, OrEmpty(l.formattedAddress));
  }

  /** The notes field reads back as the lead's notes, and what follows it is
      "," and the date field, which ends the line. */
  lemma NotesReadsBack(l: LeadRow)
    ensures var line, pre := RowLine(l), Join(RowFields(l)[..9], ",");
      |pre| + 2 <= |line| && line[..|pre| + 1] == pre + "," && line[|pre| + 1] == '"' &&
      ReadQuotedBody(line[|pre| + 2..]) == Some((OrEmpty(l.notes), "," + BeforeFirst(l.createdAtIso, 'T')))
  {
    var fields := RowFields(l);
    QuotedFieldReadsBack(fields, 9, OrEmpty(l.notes));
    assert fields[10..] == [fields[10]];
  }

  /** The review and score fields of a lead with non-negative counts are all
      digits and read back as the counts, 0 where a count is missing. */
  lemma CountsReadBack(l: LeadRow)
    requires l.reviewCount.None? || l.reviewCount.value >= 0
    requires l.leadScore.None? || l.leadScore.value >= 0
    ensures var f := RowFields(l);
      (forall i :: 0 <= i < |f[7]| ==> IsDigit(f[7][i])) && DigitsValue(f[7]) == l.reviewCount.GetOr(0) &&
      (forall i :: 0 <= i < |f[8]| ==> IsDigit(f[8][i])) && DigitsValue(f[8]) == l.leadScore.GetOr(0)
  {
    CountFieldReadsBack(l.reviewCount);
    CountFieldReadsBack(l.leadScore);
  }
}
