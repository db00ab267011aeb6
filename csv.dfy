/**
 * `parseCSV` of src/services/analysisService.ts: the content is trimmed and
 * cut into lines, a first line naming a text, inquiry or customer column is a
 * header, blank lines are skipped, every other line is split into fields at
 * the commas outside double quotes, and each field loses one pair of
 * surrounding quotes. Inquiry ids are `csv-<line index>`.
 */
module Csv {
  import opened Types
  import opened JsStrings

  /** The number of double quotes in a string. */
  function QuoteCount(s: string): nat
  {
    if s == [] then 0 else QuoteCount(s[..|s| - 1]) + (if s[|s| - 1] == '"' then 1 else 0)
  }

  /** Counting quotes adds up over a concatenation. */
  lemma {:induction false} QuoteCountAppend(a: string, b: string)
    ensures QuoteCount(a + b) == QuoteCount(a) + QuoteCount(b)
  {
    if b != [] {
      assert (a + b)[..|a + b| - 1] == a + b[..|b| - 1];
      QuoteCountAppend(a, b[..|b| - 1]);
    } else {
      assert a + b == a;
    }
  }

  /**
   * The field separator of `/,(?=(?:(?:[^"]*"){2})*[^"]*$)/`: a comma with an
   * even number of double quotes after it on the line.
   */
  predicate IsBreak(line: string, j: nat)
    requires j < |line|
  {
    line[j] == ',' && QuoteCount(line[j + 1..]) % 2 == 0
  }

  /** The fields of the first `n` characters of a line, split at its breaks. */
  function FieldsOf(line: string, n: nat): (parts: seq<string>)
    requires n <= |line|
    ensures |parts| >= 1
  {
    if n == 0 then [""]
    else
      var front := FieldsOf(line, n - 1);
      if IsBreak(line, n - 1) then front + [""]
      else front[..|front| - 1] + [front[|front| - 1] + [line[n - 1]]]
  }

  /** `line.split(/,(?=(?:(?:[^"]*"){2})*[^"]*$)/)`. */
  function CsvFields(line: string): (parts: seq<string>)
    ensures |parts| >= 1
  {
    FieldsOf(line, |line|)
  }

  /** Joining after appending a piece adds the separator and the piece. */
  lemma {:induction false} JoinSnoc(parts: seq<string>, x: string, sep: char)
    requires |parts| >= 1
    ensures Join(parts + [x], sep) == Join(parts, sep) + [sep] + x
  {
    if |parts| > 1 {
      assert (parts + [x])[1..] == parts[1..] + [x];
      JoinSnoc(parts[1..], x, sep);
    }
  }

  /** Joining after extending the last piece extends the joined string. */
  lemma {:induction false} JoinExtendLast(parts: seq<string>, c: char, sep: char)
    requires |parts| >= 1
    ensures Join(parts[..|parts| - 1] + [parts[|parts| - 1] + [c]], sep) == Join(parts, sep) + [c]
  {
    var extended := parts[..|parts| - 1] + [parts[|parts| - 1] + [c]];
    if |parts| == 1 {
      assert extended == [parts[0] + [c]];
    } else {
      var rest := parts[1..];
      assert extended[1..] == rest[..|rest| - 1] + [rest[|rest| - 1] + [c]];
      JoinExtendLast(rest, c, sep);
      assert extended[0] == parts[0];
      assert Join(extended, sep) == parts[0] + [sep] + Join(extended[1..], sep);
      assert Join(parts, sep) == parts[0] + [sep] + Join(rest, sep);
      assert Join(extended[1..], sep) == Join(rest, sep) + [c];
    }
  }

  /** Joining the fields with commas gives back the line: splitting loses nothing. */
  lemma {:induction false} FieldsJoin(line: string, n: nat)
    requires n <= |line|
    ensures Join(FieldsOf(line, n), ',') == line[..n]
  {
    if n > 0 {
      var front := FieldsOf(line, n - 1);
      FieldsJoin(line, n - 1);
      assert line[..n] == line[..n - 1] + [line[n - 1]];
      if IsBreak(line, n - 1) {
        JoinSnoc(front, "", ',');
      } else {
        JoinExtendLast(front, line[n - 1], ',');
      }
    }
  }

  /** A line without double quotes is split at every comma. */
  lemma {:induction false} FieldsWithoutQuotes(line: string, n: nat)
    requires n <= |line| && '"' !in line
    ensures forall k :: 0 <= k < |FieldsOf(line, n)| ==> ',' !in FieldsOf(line, n)[k]
  {
    if n > 0 {
      FieldsWithoutQuotes(line, n - 1);
      NoQuotesCounted(line[n..]);
      var front := FieldsOf(line, n - 1);
      var parts := FieldsOf(line, n);
      if !IsBreak(line, n - 1) {
        assert line[n - 1] != ',';
        forall k | 0 <= k < |parts| ensures ',' !in parts[k] {
          if k < |parts| - 1 {
            assert parts[k] == front[k];
          }
        }
      }
    }
  }

  /** A string without double quotes counts none. */
  lemma {:induction false} NoQuotesCounted(s: string)
    requires '"' !in s
    ensures QuoteCount(s) == 0
  {
    if s != [] {
      NoQuotesCounted(s[..|s| - 1]);
    }
  }

  /** Without double quotes the field split is the plain split at commas. */
  lemma CsvFieldsPlain(line: string)
    requires '"' !in line
    ensures CsvFields(line) == Split(line, ',')
  {
    FieldsJoin(line, |line|);
    FieldsWithoutQuotes(line, |line|);
    assert line[..|line|] == line;
    JoinSplit(CsvFields(line), ',');
  }

  /**
   * On a line with balanced quotes a comma separates fields exactly when an
   * even number of quotes precedes it, that is, when it is outside quotes.
   */
  lemma BreakOutsideQuotes(line: string, j: nat)
    requires j < |line| && line[j] == ',' && QuoteCount(line) % 2 == 0
    ensures IsBreak(line, j) <==> QuoteCount(line[..j]) % 2 == 0
  {
    QuoteCountAround(line, j);
    EvenSum(QuoteCount(line[..j]), QuoteCount(line[j + 1..]));
  }

  /** The quotes of a line are those before a comma plus those after it. */
  lemma QuoteCountAround(line: string, j: nat)
    requires j < |line| && line[j] == ','
    ensures QuoteCount(line) == QuoteCount(line[..j]) + QuoteCount(line[j + 1..])
  {
    var before := line[..j];
    var after := line[j + 1..];
    assert line == before + [','] + after;
    QuoteCountAppend(before + [','], after);
    QuoteCountAppend(before, [',']);
    assert [','][..0] == [];
  }

  /** When a sum is even, its two terms are both even or both odd. */
  lemma EvenSum(a: nat, b: nat)
    requires (a + b) % 2 == 0
    ensures a % 2 == 0 <==> b % 2 == 0
  {
  }

  /**
   * `s.substring(start, end)`: both bounds clamped to the string, and
   * swapped when the start lies after the end.
   */
  function Substring(s: string, start: int, end: int): (r: string)
    ensures |r| <= |s|
    ensures 0 <= start <= end <= |s| ==> r == s[start..end]
    ensures 0 <= end < start <= |s| ==> r == s[end..start]
    ensures start <= 0 && end <= 0 ==> r == []
    ensures start >= |s| && end >= |s| ==> r == []
  {
    var a := if start < 0 then 0 else if start > |s| then |s| else start;
    var b := if end < 0 then 0 else if end > |s| then |s| else end;
    if a <= b then s[a..b] else s[b..a]
  }

  /** One pair of surrounding double quotes removed, when the field starts and ends with one. */
  function StripQuotes(t: string): string
  {
    if StartsWith(t, "\"") && EndsWith(t, "\"") then Substring(t, 1, |t| - 1) else t
  }

  /**
   * A field changes exactly when it has at least two characters and starts
   * and ends with a double quote, and then exactly that pair goes; a lone
   * quote stays as it is.
   */
  lemma StripQuotesChanges(t: string)
    ensures StripQuotes(t) != t <==> |t| >= 2 && t[0] == '"' && t[|t| - 1] == '"'
    ensures StripQuotes(t) != t ==> t == "\"" + StripQuotes(t) + "\""
    ensures StripQuotes("\"") == "\""
  {
    if |t| >= 2 && t[0] == '"' && t[|t| - 1] == '"' {
      assert StripQuotes(t) == t[1..|t| - 1];
      assert |StripQuotes(t)| < |t|;
      assert t == "\"" + t[1..|t| - 1] + "\"";
    }
  }

  /** Quoting a text and stripping the quotes gives the text back. */
  lemma StripQuotesInverse(x: string)
    ensures StripQuotes("\"" + x + "\"") == x
  {
    var t := "\"" + x + "\"";
    assert t[1..|t| - 1] == x;
  }

  /** An optional field: present when the line has that many fields, trimmed and unquoted. */
  function OptionalField(parts: seq<string>, k: nat): Option<string>
  {
    if |parts| > k then Some(StripQuotes(Trim(parts[k]))) else None
  }

  /** The id of the inquiry of line `i`. */
  function CsvId(i: nat): string
  {
    "csv-" + NatToString(i)
  }

  /** The inquiry of a trimmed, non-blank line with index `i`. */
  function RowInquiry(line: string, i: nat): Inquiry
  {
    var parts := CsvFields(line);
    Inquiry(CsvId(i), StripQuotes(Trim(parts[0])), OptionalField(parts, 1), OptionalField(parts, 2), None)
  }

  /** The first line names a column of inquiry texts or customers. */
  predicate HasHeader(first: string)
  {
    Contains(ToLower(first), "text") || Contains(ToLower(first), "anfrage") || Contains(ToLower(first), "kunde")
  }

  /** The lines of the content; never empty, so the source's check for no lines cannot fire. */
  function CsvLines(content: string): (lines: seq<string>)
    ensures |lines| >= 1
  {
    Split(Trim(content), '\n')
  }

  /** The index of the first data line. */
  function StartIndex(lines: seq<string>): (s: nat)
    requires |lines| >= 1
    ensures s <= |lines|
  {
    if HasHeader(lines[0]) then 1 else 0
  }

  /** A line of white space only: it trims to nothing. */
  predicate Blank(line: string)
  {
    forall i :: 0 <= i < |line| ==> IsSpace(line[i])
  }

  /** The indices in [s, e) of the lines that are not blank, in increasing order. */
  function Kept(lines: seq<string>, s: nat, e: nat): (ks: seq<nat>)
    requires s <= e <= |lines|
    ensures forall k :: 0 <= k < |ks| ==> s <= ks[k] < e && !Blank(lines[ks[k]])
    ensures forall k, m :: 0 <= k < m < |ks| ==> ks[k] < ks[m]
  {
    if e == s then []
    else Kept(lines, s, e - 1) + (if !Blank(lines[e - 1]) then [e - 1] else [])
  }

  /** Every non-blank line in [s, e) is kept. */
  lemma {:induction false} KeptComplete(lines: seq<string>, s: nat, e: nat, j: nat)
    requires s <= j < e <= |lines| && !Blank(lines[j])
    ensures j in Kept(lines, s, e)
  {
    if j < e - 1 {
      KeptComplete(lines, s, e - 1, j);
    }
  }

  /** The inquiries of the listed lines. */
  function RowsAt(lines: seq<string>, ks: seq<nat>): (rs: seq<Inquiry>)
    requires forall k :: 0 <= k < |ks| ==> ks[k] < |lines|
    ensures |rs| == |ks|
  {
    if ks == [] then []
    else RowsAt(lines, ks[..|ks| - 1]) + [RowInquiry(Trim(lines[ks[|ks| - 1]]), ks[|ks| - 1])]
  }

  /** Entry k of the inquiries is the inquiry of the k-th listed line. */
  lemma {:induction false} RowsAtIndex(lines: seq<string>, ks: seq<nat>, k: nat)
    requires forall m :: 0 <= m < |ks| ==> ks[m] < |lines|
    requires k < |ks|
    ensures RowsAt(lines, ks)[k] == RowInquiry(Trim(lines[ks[k]]), ks[k])
  {
    if k < |ks| - 1 {
      RowsAtIndex(lines, ks[..|ks| - 1], k);
    }
  }

  /** What `parseCSV` returns for a file's content. */
  function CsvInquiries(content: string): seq<Inquiry>
  {
    var lines := CsvLines(content);
    RowsAt(lines, Kept(lines, StartIndex(lines), |lines|))
  }

  /** `parseCSV`: the loop over the lines, pushing one inquiry per non-blank data line. */
  method ParseCsv(content: string) returns (inquiries: seq<Inquiry>)
    ensures inquiries == CsvInquiries(content)
  {
    var lines, startIndex := SplitLines(content);
    inquiries := [];
    assert Kept(lines, startIndex, startIndex) == [];
    for i := startIndex to |lines|
      invariant inquiries == RowsAt(lines, Kept(lines, startIndex, i))
    {
      inquiries := PushLine(lines, startIndex, i, inquiries);
    }
  }

  /** The lines of the content and the index of the first data line, skipping a header row. */
  method SplitLines(content: string) returns (lines: seq<string>, startIndex: nat)
    ensures lines == CsvLines(content)
    ensures startIndex == StartIndex(lines) && startIndex <= |lines|
  {
    lines := Split(Trim(content), '\n');
    var lower := ToLower(lines[0]);
    var hasHeader := Contains(lower, "text") || Contains(lower, "anfrage") || Contains(lower, "kunde");
    startIndex := if hasHeader then 1 else 0;
  }

  /**
   * One turn of the loop: a blank line adds nothing, any other line adds its
   * inquiry.
   */
  method PushLine(lines: seq<string>, startIndex: nat, i: nat, inquiries: seq<Inquiry>) returns (next: seq<Inquiry>)
    requires startIndex <= i < |lines|
    requires inquiries == RowsAt(lines, Kept(lines, startIndex, i))
    ensures next == RowsAt(lines, Kept(lines, startIndex, i + 1))
  {
    ghost var kept := Kept(lines, startIndex, i);
    var line := Trim(lines[i]);
    BlankTrimsToNothing(lines[i]);
    KeptStep(lines, startIndex, i);
    if line == "" {
      assert Kept(lines, startIndex, i + 1) == kept;
      return inquiries;
    }
    assert Kept(lines, startIndex, i + 1) == kept + [i];
    var inquiry := ParseLine(line, i);
    RowsAtSnoc(lines, kept, i);
    next := inquiries + [inquiry];
    assert next == RowsAt(lines, kept + [i]);
  }

  /** A line is blank exactly when trimming leaves nothing. */
  lemma BlankTrimsToNothing(line: string)
    ensures Blank(line) <==> Trim(line) == ""
  {
    TrimIsTrimmed(line);
  }

  /** One more line index keeps one more index exactly when that line is not blank. */
  lemma KeptStep(lines: seq<string>, s: nat, i: nat)
    requires s <= i < |lines|
    ensures Kept(lines, s, i + 1) == Kept(lines, s, i) + (if Blank(lines[i]) then [] else [i])
  {
  }

  /** Listing one more line appends its inquiry. */
  lemma RowsAtSnoc(lines: seq<string>, ks: seq<nat>, i: nat)
    requires forall k :: 0 <= k < |ks| ==> ks[k] < |lines|
    requires i < |lines|
    ensures RowsAt(lines, ks + [i]) == RowsAt(lines, ks) + [RowInquiry(Trim(lines[i]), i)]
  {
    assert (ks + [i])[..|ks|] == ks;
  }

  /** The body of the loop for one trimmed, non-blank line: its fields, unquoted, as an inquiry. */
  method ParseLine(line: string, i: nat) returns (inquiry: Inquiry)
    ensures inquiry == RowInquiry(line, i)
  {
    var parts := CsvFields(line);
    if |parts| >= 1 {
      var text := Trim(parts[0]);
      if StartsWith(text, "\"") && EndsWith(text, "\"") {
        text := Substring(text, 1, |text| - 1);
      }
      assert text == StripQuotes(Trim(parts[0]));
      var customer := UnquoteOptional(parts, 1);
      var date := UnquoteOptional(parts, 2);
      inquiry := Inquiry(CsvId(i), text, customer, date, None);
    }
  }

  /**
   * The optional fields: `parts[k].trim()` when the line has that many
   * fields, unquoted when it is a non-empty string that starts and ends with
   * a quote.
   */
  method UnquoteOptional(parts: seq<string>, k: nat) returns (field: Option<string>)
    ensures field == OptionalField(parts, k)
  {
    field := if |parts| > k then Some(Trim(parts[k])) else None;
    if field.Some? && field.value != "" && StartsWith(field.value, "\"") && EndsWith(field.value, "\"") {
      field := Some(Substring(field.value, 1, |field.value| - 1));
    }
  }

  /** Different line indices give different ids. */
  lemma CsvIdInjective(i: nat, j: nat)
    ensures CsvId(i) == CsvId(j) <==> i == j
  {
    if i != j {
      NatToStringInjective(i, j);
      if CsvId(i) == CsvId(j) {
        PrefixCancel("csv-", NatToString(i), NatToString(j));
      }
    }
  }

  /** The ids of the parsed inquiries are pairwise distinct. */
  lemma CsvIdsDistinct(content: string)
    ensures forall k, m :: 0 <= k < m < |CsvInquiries(content)| ==>
      CsvInquiries(content)[k].id != CsvInquiries(content)[m].id
  {
    var lines := CsvLines(content);
    var ks := Kept(lines, StartIndex(lines), |lines|);
    forall k, m | 0 <= k < m < |ks| ensures CsvInquiries(content)[k].id != CsvInquiries(content)[m].id {
      RowsAtIndex(lines, ks, k);
      RowsAtIndex(lines, ks, m);
      CsvIdInjective(ks[k], ks[m]);
    }
  }

  /**
   * Line j yields an inquiry, with id `csv-j`, exactly when it is a data line
   * (after the header, if there is one) and not blank; so at most one
   * inquiry comes from each line.
   */
  lemma CsvLineYieldsInquiry(content: string, j: nat)
    ensures var lines := CsvLines(content);
      (exists k :: 0 <= k < |CsvInquiries(content)| && CsvInquiries(content)[k].id == CsvId(j))
      <==> StartIndex(lines) <= j < |lines| && !Blank(lines[j])
  {
    var lines := CsvLines(content);
    var ks := Kept(lines, StartIndex(lines), |lines|);
    var rs := CsvInquiries(content);
    if StartIndex(lines) <= j < |lines| && !Blank(lines[j]) {
      KeptComplete(lines, StartIndex(lines), |lines|, j);
      var k :| 0 <= k < |ks| && ks[k] == j;
      RowsAtIndex(lines, ks, k);
    }
    if exists k :: 0 <= k < |rs| && rs[k].id == CsvId(j) {
      var k :| 0 <= k < |rs| && rs[k].id == CsvId(j);
      RowsAtIndex(lines, ks, k);
      CsvIdInjective(ks[k], j);
    }
  }

  /**
   * The first line becomes an inquiry (`csv-0`) exactly when it is neither a
   * header nor blank.
   */
  lemma CsvHeaderSkipped(content: string)
    ensures var lines := CsvLines(content);
      (exists k :: 0 <= k < |CsvInquiries(content)| && CsvInquiries(content)[k].id == CsvId(0))
      <==> !HasHeader(lines[0]) && !Blank(lines[0])
  {
    CsvLineYieldsInquiry(content, 0);
  }
}
