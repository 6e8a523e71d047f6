/**
 * Page text acquisition with its OCR fallback, and the line-scanning parser that
 * recovers UPI transaction blocks from the text of a page range.
 */
module PdfParser {
  import opened Wrappers
  import opened Text

  /** Pages whose stripped native text is shorter than this are sent to OCR. */
  const OCR_MIN_CHARS: nat := 50
  /** `description` and `merchant` are cut to this many characters. */
  const MAX_FIELD_LEN: nat := 255
  /** What replaces a merchant that comes out empty. */
  const UNKNOWN_MERCHANT: string := "Unknown"
  /** Direction phrases for which the merchant is the tail as it stands. */
  const CANONICAL_PHRASES: seq<string> := ["Paid to", "Received from", "Sent to", "Added to"]

  /** The phrases the fallback merchant derivation removes, in the order it removes them. */
  const REMOVED_PHRASES: seq<string> := ["Paid to", "Received from", "Sent to"]

  // ---------------------------------------------------------------------------
  // Page text
  // ---------------------------------------------------------------------------

  /**
   * A page as the pipeline sees it: its embedded text layer, and the outcome of
   * rendering it at 150 dpi and running OCR over the image (`None` when either raises).
   */
  datatype Page = Page(nativeText: string, ocrText: Option<string>)

  /** The text of one page: the native layer if it is long enough, otherwise OCR or "". */
  function ExtractTextFromPage(page: Page): (text: string)
    ensures |Strip(page.nativeText)| >= OCR_MIN_CHARS ==> text == page.nativeText
    ensures |Strip(page.nativeText)| < OCR_MIN_CHARS && page.ocrText.Some? ==> text == page.ocrText.value
    ensures |Strip(page.nativeText)| < OCR_MIN_CHARS && page.ocrText.None? ==> text == ""
  {
    if |Strip(page.nativeText)| < OCR_MIN_CHARS then
      match page.ocrText
      case Some(recognised) => recognised
      case None => ""
    else
      page.nativeText
  }

  // ---------------------------------------------------------------------------
  // Records
  // ---------------------------------------------------------------------------

  /** The closed set of transaction types. */
  datatype TxnType = DEBIT | CREDIT

  /** The `txn_type` string stored for a type. */
  function TxnTypeName(t: TxnType): string {
    match t
    case DEBIT => "DEBIT"
    case CREDIT => "CREDIT"
  }

  /** One parsed transaction (`txn_date` is the raw date line). */
  datatype ParsedTxn = ParsedTxn(
    txnDate: string,
    description: string,
    merchant: string,
    amount: real,
    txnType: TxnType,
    category: Option<string>,
    upiId: Option<string>,
    isRecurring: bool)

  /** What every record the parser emits satisfies. */
  predicate WellFormed(t: ParsedTxn) {
    && IsDateLine(t.txnDate)
    && t.merchant != ""
    && |t.merchant| <= MAX_FIELD_LEN
    && |t.description| <= MAX_FIELD_LEN
    && t.amount >= 0.0
    && t.category.None?
    && t.upiId.None?
    && !t.isRecurring
  }

  // ---------------------------------------------------------------------------
  // Line classification
  // ---------------------------------------------------------------------------

  predicate AllDigits(s: string) {
    forall k {:trigger IsDigit(s[k])} :: 0 <= k < |s| ==> IsDigit(s[k])
  }

  /** `re.match(r'^[A-Z][a-z]{2}\s\d{1,2},\s\d{4}$', s)`, e.g. "Feb 21, 2026" or "Mar 3, 2025". */
  predicate IsDateLine(s: string) {
    && (|s| == 11 || |s| == 12)
    && IsUpper(s[0]) && IsLower(s[1]) && IsLower(s[2]) && IsSpace(s[3])
    && IsDigit(s[4])
    && (if |s| == 11 then
          s[5] == ',' && IsSpace(s[6]) && AllDigits(s[7..])
        else
          IsDigit(s[5]) && s[6] == ',' && IsSpace(s[7]) && AllDigits(s[8..]))
  }

  /** A line that ends a merchant tail: metadata or the next date anchor. */
  predicate IsStopLine(s: string) {
    StartsWith(s, "Transaction ID") || StartsWith(s, "Bank Reference") || StartsWith(s, "UTR No")
    || IsDateLine(s)
  }

  /** `[l.strip() for l in raw if l.strip()]`. */
  function NonBlankLines(raw: seq<string>): (lines: seq<string>)
    ensures |lines| <= |raw|
    ensures forall k :: 0 <= k < |lines| ==> lines[k] != "" && Strip(lines[k]) == lines[k]
    decreases |raw|
  {
    if raw == [] then []
    else
      var line := Strip(raw[0]);
      var rest := NonBlankLines(raw[1..]);
      if line == "" then rest
      else
        StripIdempotent(raw[0]);
        [line] + rest
  }

  /** Lines that are already stripped and non-empty all survive `NonBlankLines`. */
  lemma {:induction false} NonBlankLinesKeepsStripped(raw: seq<string>)
    requires forall k :: 0 <= k < |raw| ==> raw[k] != "" && Strip(raw[k]) == raw[k]
    ensures NonBlankLines(raw) == raw
    decreases |raw|
  {
    if raw != [] {
      NonBlankLinesKeepsStripped(raw[1..]);
      assert raw == [raw[0]] + raw[1..];
    }
  }

  /** Blank lines are dropped line by line: the lines of `a + b` are those of `a`, then of `b`. */
  lemma {:induction false} NonBlankLinesAppend(a: seq<string>, b: seq<string>)
    ensures NonBlankLines(a + b) == NonBlankLines(a) + NonBlankLines(b)
    decreases |a|
  {
    if a == [] {
      assert a + b == b;
    } else {
      var ab := a + b;
      assert ab[0] == a[0] && ab[1..] == a[1..] + b;
      NonBlankLinesAppend(a[1..], b);
      if Strip(a[0]) != "" {
        assert [Strip(a[0])] + (NonBlankLines(a[1..]) + NonBlankLines(b))
            == ([Strip(a[0])] + NonBlankLines(a[1..])) + NonBlankLines(b);
      }
    }
  }

  /** One raw line contributes its strip, or nothing when it is blank. */
  lemma NonBlankLinesSingle(x: string)
    ensures NonBlankLines([x]) == if Strip(x) == "" then [] else [Strip(x)]
  {
    assert [x][1..] == [];
  }

  /** The stripped, non-empty lines of the text, in order: at most one per newline, plus one. */
  function Lines(text: string): (lines: seq<string>)
    ensures |lines| <= multiset(text)['\n'] + 1
    ensures forall k :: 0 <= k < |lines| ==> lines[k] != "" && Strip(lines[k]) == lines[k]
  {
    SplitCount(text, '\n');
    NonBlankLines(Split(text, '\n'))
  }

  /** `lines[i+2].upper()` checked against the two accepted types. */
  function TypeOf(line: string): (r: Option<TxnType>)
    ensures r.Some? ==> Upper(line) == TxnTypeName(r.value)
    ensures r.None? ==> Upper(line) != "DEBIT" && Upper(line) != "CREDIT"
  {
    var token := Upper(line);
    if token == "DEBIT" then Some(DEBIT)
    else if token == "CREDIT" then Some(CREDIT)
    else None
  }

  // ---------------------------------------------------------------------------
  // Amounts
  // ---------------------------------------------------------------------------

  predicate IsAmountChar(c: char) {
    IsDigit(c) || c == '.' || c == ','
  }

  /** The longest prefix of `s` made of digits, '.' and ','. */
  function LeadingRun(s: string): (run: string)
    ensures |run| <= |s| && run == s[..|run|]
    ensures forall k {:trigger IsAmountChar(run[k])} :: 0 <= k < |run| ==> IsAmountChar(run[k])
    ensures |run| < |s| ==> !IsAmountChar(s[|run|])
    decreases |s|
  {
    if s != [] && IsAmountChar(s[0]) then [s[0]] + LeadingRun(s[1..]) else []
  }

  /**
   * `run` sits at index p of `s`: no amount character comes before p, and the run
   * cannot be extended to the right.
   */
  ghost predicate RunAt(s: string, run: string, p: int) {
    && 0 <= p && p + |run| <= |s| && s[p..p + |run|] == run
    && (forall q {:trigger IsAmountChar(s[q])} :: 0 <= q < p ==> !IsAmountChar(s[q]))
    && (p + |run| == |s| || !IsAmountChar(s[p + |run|]))
  }

  /** A character in front that is no amount character moves the run one place on. */
  lemma RunAtShift(s: string, run: string)
    requires s != [] && !IsAmountChar(s[0]) && exists p :: RunAt(s[1..], run, p)
    ensures exists p :: RunAt(s, run, p)
  {
    var p :| RunAt(s[1..], run, p);
    assert s[p + 1..p + 1 + |run|] == s[1..][p..p + |run|];
    forall q | 0 < q < |s| ensures s[q] == s[1..][q - 1] {
    }
    assert RunAt(s, run, p + 1);
  }

  /**
   * `re.search(r'[\d.,]+', s)`: the first maximal run of digits, '.' and ','. It
   * starts at the first amount character of `s` and ends where that run stops.
   */
  function FirstAmountRun(s: string): (r: Option<string>)
    ensures r.None? <==> forall k {:trigger IsAmountChar(s[k])} :: 0 <= k < |s| ==> !IsAmountChar(s[k])
    ensures r.Some? ==> r.value != [] && forall k {:trigger IsAmountChar(r.value[k])} :: 0 <= k < |r.value| ==> IsAmountChar(r.value[k])
    ensures r.Some? ==> exists p :: RunAt(s, r.value, p)
    ensures r.Some? ==> forall k :: 0 <= k < |RemoveAll(r.value, ",")| ==>
              IsDigit(RemoveAll(r.value, ",")[k]) || RemoveAll(r.value, ",")[k] == '.'
    decreases |s|
  {
    if s == [] then None
    else if IsAmountChar(s[0]) then
      var run := LeadingRun(s);
      assert RunAt(s, run, 0);
      RemoveCommasLeavesDigitsAndDots(run);
      Some(run)
    else
      var r := FirstAmountRun(s[1..]);
      if r.Some? then
        RunAtShift(s, r.value);
        r
      else
        r
  }

  /** Removing the commas from a run leaves digits and dots only. */
  lemma {:induction false} RemoveCommasLeavesDigitsAndDots(s: string)
    requires forall k :: 0 <= k < |s| ==> IsAmountChar(s[k])
    ensures forall k :: 0 <= k < |RemoveAll(s, ",")| ==> IsDigit(RemoveAll(s, ",")[k]) || RemoveAll(s, ",")[k] == '.'
    decreases |s|
  {
    if |s| >= 1 {
      RemoveCommasLeavesDigitsAndDots(s[1..]);
    }
  }

  function DigitValue(c: char): (d: nat)
    requires IsDigit(c)
    ensures d <= 9
  {
    c as int - '0' as int
  }

  /** The number a string of decimal digits denotes ("" denotes 0). */
  function DigitsValue(s: string): nat
    requires AllDigits(s)
    decreases |s|
  {
    if s == [] then 0 else DigitsValue(s[..|s| - 1]) * 10 + DigitValue(s[|s| - 1])
  }

  function Pow10(n: nat): (p: nat)
    ensures p >= 1
  {
    if n == 0 then 1 else 10 * Pow10(n - 1)
  }

  /** Two dots somewhere in `s`. */
  predicate HasTwoDots(s: string) {
    exists a, b :: 0 <= a < b < |s| && s[a] == '.' && s[b] == '.'
  }

  /**
   * Python's `float(s)` on a string of digits and dots, as an exact decimal: it
   * succeeds when there is at least one digit and at most one dot.
   */
  function ParseFloat(s: string): (r: Option<real>)
    requires forall k :: 0 <= k < |s| ==> IsDigit(s[k]) || s[k] == '.'
    ensures r.Some? ==> r.value >= 0.0
    ensures r.None? <==> HasTwoDots(s) || forall k :: 0 <= k < |s| ==> s[k] == '.'
  {
    if '.' !in s then
      if s == [] then None else Some(DigitsValue(s) as real)
    else
      var k := IndexOf(s, '.');
      var whole, frac := s[..k], s[k + 1..];
      if '.' in frac then
        var b :| b in frac && b == '.';
        assert HasTwoDots(s) by {
          var m :| 0 <= m < |frac| && frac[m] == '.';
          assert s[k + 1 + m] == '.';
        }
        None
      else
        assert !HasTwoDots(s) by {
          forall a | 0 <= a < |s| && s[a] == '.' ensures a == k {
          }
        }
        assert AllDigits(whole) by {
          forall m | 0 <= m < |whole| ensures IsDigit(whole[m]) {
            assert s[..k][m] == s[m];
          }
        }
        assert AllDigits(frac) by {
          forall m | 0 <= m < |frac| ensures IsDigit(frac[m]) {
            assert frac[m] == s[k + 1 + m];
            assert frac[m] in frac;
          }
        }
        if whole == [] && frac == [] then None
        else
          assert !forall m :: 0 <= m < |s| ==> s[m] == '.' by {
            if whole != [] { assert s[0] == whole[0]; } else { assert s[k + 1] == frac[0]; }
          }
          Some(DigitsValue(whole) as real + DigitsValue(frac) as real / Pow10(|frac|) as real)
  }

  /**
   * The amount of line i+3: `None` when `float` raises (the candidate is dropped),
   * 0.0 when the line has no numeric run.
   */
  function ParseAmount(line: string): (r: Option<real>)
    ensures r.Some? ==> r.value >= 0.0
    ensures (forall k :: 0 <= k < |line| ==> !IsAmountChar(line[k])) ==> r == Some(0.0)
    ensures FirstAmountRun(line).Some? ==> r == ParseFloat(RemoveAll(FirstAmountRun(line).value, ","))
  {
    match FirstAmountRun(line)
    case None => Some(0.0)
    case Some(run) => ParseFloat(RemoveAll(run, ","))
  }

  // ---------------------------------------------------------------------------
  // Merchant and description
  // ---------------------------------------------------------------------------

  /** First index at or after `j` holding a stop line, or the end. */
  function TailEnd(lines: seq<string>, j: nat): (e: nat)
    requires j <= |lines|
    ensures j <= e <= |lines|
    ensures forall k {:trigger IsStopLine(lines[k])} :: j <= k < e ==> !IsStopLine(lines[k])
    ensures e < |lines| ==> IsStopLine(lines[e])
    decreases |lines| - j
  {
    if j == |lines| || IsStopLine(lines[j]) then j else TailEnd(lines, j + 1)
  }

  /** The description holds one of the phrases the fallback removes ("Added to" is not one). */
  predicate MentionsRemovedPhrase(d: string) {
    Contains(d, "Paid to") || Contains(d, "Received from") || Contains(d, "Sent to")
  }

  /** `d.replace("Paid to", "").replace("Received from", "").replace("Sent to", "")`. */
  function Removals(d: string): string {
    RemoveAll(RemoveAll(RemoveAll(d, "Paid to"), "Received from"), "Sent to")
  }

  /** `d` opens with the removed phrase `p`, and what follows holds no removed phrase. */
  predicate LeadsWithRemoved(d: string, p: string) {
    p in REMOVED_PHRASES && StartsWith(d, p) && !MentionsRemovedPhrase(d[|p|..])
  }

  /** The three removals leave a description that holds none of their phrases unchanged. */
  lemma RemovalsAbsent(d: string)
    requires !MentionsRemovedPhrase(d)
    ensures Removals(d) == d
  {
    RemoveAllAbsent(d, "Paid to");
    RemoveAllAbsent(d, "Received from");
    RemoveAllAbsent(d, "Sent to");
  }

  /** The three removals take a leading removed phrase off and leave the rest. */
  lemma RemovalsAfterLeading(p: string, rest: string)
    requires p in REMOVED_PHRASES && !MentionsRemovedPhrase(rest)
    ensures Removals(p + rest) == rest
  {
    RemoveAllAbsent(rest, "Paid to");
    RemoveAllAbsent(rest, "Received from");
    RemoveAllAbsent(rest, "Sent to");
    if p == "Paid to" {
      RemoveAllFront(p, rest);
    } else if p == "Received from" {
      FirstCharAbsentAppend(p, rest, "Paid to");
      RemoveAllAbsent(p + rest, "Paid to");
      RemoveAllFront(p, rest);
    } else {
      FirstCharAbsentAppend(p, rest, "Paid to");
      RemoveAllAbsent(p + rest, "Paid to");
      FirstCharAbsentAppend(p, rest, "Received from");
      RemoveAllAbsent(p + rest, "Received from");
      RemoveAllFront(p, rest);
    }
  }

  /** What the removals give on a description without removed phrases, or with one leading. */
  lemma RemovalsOf(d: string)
    ensures !MentionsRemovedPhrase(d) ==> Removals(d) == d
    ensures forall p {:trigger LeadsWithRemoved(d, p)} :: LeadsWithRemoved(d, p) ==> Removals(d) == d[|p|..]
  {
    if !MentionsRemovedPhrase(d) {
      RemovalsAbsent(d);
    }
    forall p | LeadsWithRemoved(d, p) ensures Removals(d) == d[|p|..] {
      assert d == p + d[|p|..];
      RemovalsAfterLeading(p, d[|p|..]);
    }
  }

  /**
   * `(merchant, description)` before the "Unknown" substitution and truncation. For
   * a phrase outside the canonical four, the merchant is the description with "Paid to",
   * "Received from" and "Sent to" removed, then stripped.
   */
  function Describe(phrase: string, tail: string): (r: (string, string))
    ensures phrase in CANONICAL_PHRASES ==> r == (tail, phrase + " " + tail)
    ensures phrase !in CANONICAL_PHRASES ==> r.1 == phrase + (if tail != "" then " " + tail else "")
    ensures phrase !in CANONICAL_PHRASES && !MentionsRemovedPhrase(r.1) ==> r.0 == Strip(r.1)
    ensures phrase !in CANONICAL_PHRASES ==>
              forall p {:trigger LeadsWithRemoved(r.1, p)} :: LeadsWithRemoved(r.1, p) ==> r.0 == Strip(r.1[|p|..])
  {
    if phrase in CANONICAL_PHRASES then
      (tail, phrase + " " + tail)
    else
      var description := phrase + (if tail != "" then " " + tail else "");
      RemovalsOf(description);
      (Strip(Removals(description)), description)
  }

  /** "Unknown" in place of an empty merchant (pdf_parser.py:69-70). */
  function OrUnknown(m: string): string {
    if m == "" then UNKNOWN_MERCHANT else m
  }

  /**
   * The stored merchant of a non-canonical description `d`, in the two cases the
   * removals are stated for: `d` holds no removed phrase, and its merchant is its strip;
   * or `d` opens with one and holds no other, and its merchant is the strip of the rest.
   * Either is "Unknown" when empty, and is cut to 255 characters.
   */
  ghost predicate FallbackMerchant(d: string, merchant: string) {
    && (!MentionsRemovedPhrase(d) ==> merchant == Take(OrUnknown(Strip(d)), MAX_FIELD_LEN))
    && (forall p {:trigger LeadsWithRemoved(d, p)} :: LeadsWithRemoved(d, p) ==>
          merchant == Take(OrUnknown(Strip(d[|p|..])), MAX_FIELD_LEN))
  }

  /** The record built from the fields of a block. */
  function MakeRecord(date: string, txnType: TxnType, amount: real, phrase: string, tail: string): (t: ParsedTxn)
    ensures t.txnDate == date && t.txnType == txnType && t.amount == amount
    ensures t.merchant != "" && |t.merchant| <= MAX_FIELD_LEN && |t.description| <= MAX_FIELD_LEN
    ensures t.category.None? && t.upiId.None? && !t.isRecurring
    ensures phrase in CANONICAL_PHRASES && tail != "" ==>
              t.merchant == Take(tail, MAX_FIELD_LEN) && t.description == Take(phrase + " " + tail, MAX_FIELD_LEN)
    ensures phrase in CANONICAL_PHRASES && tail == "" ==>
              t.merchant == UNKNOWN_MERCHANT && t.description == phrase + " "
    ensures phrase !in CANONICAL_PHRASES ==>
              t.description == Take(phrase + (if tail != "" then " " + tail else ""), MAX_FIELD_LEN)
    ensures phrase !in CANONICAL_PHRASES ==>
              FallbackMerchant(phrase + (if tail != "" then " " + tail else ""), t.merchant)
  {
    var derived := Describe(phrase, tail);
    var merchant := OrUnknown(derived.0);
    ParsedTxn(date, Take(derived.1, MAX_FIELD_LEN), Take(merchant, MAX_FIELD_LEN), amount, txnType,
              None, None, false)
  }

  // ---------------------------------------------------------------------------
  // The scanner
  // ---------------------------------------------------------------------------

  /**
   * A candidate block at line i is accepted when line i is a date anchor, lines i+2
   * to i+4 exist, line i+2 is DEBIT or CREDIT and `float` accepts the amount of line
   * i+3. Otherwise the candidate is abandoned (an IndexError, a bad type or a
   * ValueError) and the cursor moves on by one line.
   */
  predicate Accepted(lines: seq<string>, i: nat)
    requires i < |lines|
  {
    && IsDateLine(lines[i])
    && i + 4 < |lines|
    && TypeOf(lines[i + 2]).Some?
    && ParseAmount(lines[i + 3]).Some?
  }

  /** Where the merchant scan of an accepted block stops: the cursor's next value. */
  function BlockEnd(lines: seq<string>, i: nat): (j: nat)
    requires i + 5 <= |lines|
    ensures i + 5 <= j <= |lines|
  {
    TailEnd(lines, i + 5)
  }

  /** The record of an accepted block. */
  function BlockRecord(lines: seq<string>, i: nat): (t: ParsedTxn)
    requires i < |lines| && Accepted(lines, i)
    ensures WellFormed(t)
    ensures t.txnDate == lines[i]
    ensures Some(t.txnType) == TypeOf(lines[i + 2])
    ensures Some(t.amount) == ParseAmount(lines[i + 3])
  {
    var tail := Strip(Join(lines[i + 5..BlockEnd(lines, i)], " "));
    MakeRecord(lines[i], TypeOf(lines[i + 2]).value, ParseAmount(lines[i + 3]).value, lines[i + 4], tail)
  }

  /** The records found scanning from line i to the end. */
  function ScanFrom(lines: seq<string>, i: nat): (records: seq<ParsedTxn>)
    requires i <= |lines|
    ensures 5 * |records| <= |lines| - i
    decreases |lines| - i
  {
    if i == |lines| then []
    else if Accepted(lines, i) then [BlockRecord(lines, i)] + ScanFrom(lines, BlockEnd(lines, i))
    else ScanFrom(lines, i + 1)
  }

  /** `parse_upi_transactions(text)`. */
  function Parse(text: string): (records: seq<ParsedTxn>)
    ensures 5 * |records| <= |Lines(text)|
  {
    ScanFrom(Lines(text), 0)
  }

  /** The lines where the emitted blocks start, in step with `ScanFrom`. */
  ghost function BlockStarts(lines: seq<string>, i: nat): seq<nat>
    requires i <= |lines|
    decreases |lines| - i
  {
    if i == |lines| then []
    else if Accepted(lines, i) then [i] + BlockStarts(lines, BlockEnd(lines, i))
    else BlockStarts(lines, i + 1)
  }

  // ---------------------------------------------------------------------------
  // Properties of the scanner
  // ---------------------------------------------------------------------------

  /** Every emitted record is well formed. */
  lemma {:induction false} ScanFromWellFormed(lines: seq<string>, i: nat)
    requires i <= |lines|
    ensures forall t | t in ScanFrom(lines, i) :: WellFormed(t)
    decreases |lines| - i
  {
    if i < |lines| {
      if Accepted(lines, i) {
        var j := BlockEnd(lines, i);
        ScanFromWellFormed(lines, j);
        assert ScanFrom(lines, i) == [BlockRecord(lines, i)] + ScanFrom(lines, j);
      } else {
        ScanFromWellFormed(lines, i + 1);
        assert ScanFrom(lines, i) == ScanFrom(lines, i + 1);
      }
    }
  }

  /** Every record of `Parse(text)` is well formed. */
  lemma ParseWellFormed(text: string)
    ensures forall k :: 0 <= k < |Parse(text)| ==> WellFormed(Parse(text)[k])
  {
    var records := Parse(text);
    ScanFromWellFormed(Lines(text), 0);
    assert forall k :: 0 <= k < |records| ==> records[k] in records;
  }

  /** Line `start` begins an accepted block whose record is `t`. */
  ghost predicate EmittedAt(lines: seq<string>, start: nat, t: ParsedTxn) {
    && start < |lines|
    && Accepted(lines, start)
    && BlockRecord(lines, start) == t
  }

  /** The block at `start` ends (its merchant scan stops) at or before line `next`. */
  ghost predicate EndsBefore(lines: seq<string>, start: nat, next: nat) {
    && start < |lines|
    && start + 5 <= |lines|
    && BlockEnd(lines, start) <= next
  }

  /** One more accepted block in front keeps starts and records in step. */
  lemma EmittedCons(lines: seq<string>, i: nat, rest: seq<nat>, later: seq<ParsedTxn>)
    requires i < |lines| && Accepted(lines, i) && |rest| == |later|
    requires forall k :: 0 <= k < |rest| ==> EmittedAt(lines, rest[k], later[k])
    ensures forall k :: 0 <= k < |rest| + 1 ==>
              EmittedAt(lines, ([i] + rest)[k], ([BlockRecord(lines, i)] + later)[k])
  {
    var starts, records := [i] + rest, [BlockRecord(lines, i)] + later;
    forall k | 0 < k < |starts|
      ensures EmittedAt(lines, starts[k], records[k])
    {
      assert starts[k] == rest[k - 1] && records[k] == later[k - 1];
    }
  }

  /**
   * Records come out in text order: record k is the block that starts at the k-th
   * start line.
   */
  lemma {:induction false} ScanFromMatchesStarts(lines: seq<string>, i: nat)
    requires i <= |lines|
    ensures |BlockStarts(lines, i)| == |ScanFrom(lines, i)|
    ensures forall k :: 0 <= k < |BlockStarts(lines, i)| ==>
              EmittedAt(lines, BlockStarts(lines, i)[k], ScanFrom(lines, i)[k])
    decreases |lines| - i
  {
    if i < |lines| {
      if Accepted(lines, i) {
        var j := BlockEnd(lines, i);
        ScanFromMatchesStarts(lines, j);
        assert BlockStarts(lines, i) == [i] + BlockStarts(lines, j);
        assert ScanFrom(lines, i) == [BlockRecord(lines, i)] + ScanFrom(lines, j);
        EmittedCons(lines, i, BlockStarts(lines, j), ScanFrom(lines, j));
      } else {
        ScanFromMatchesStarts(lines, i + 1);
        assert BlockStarts(lines, i) == BlockStarts(lines, i + 1);
        assert ScanFrom(lines, i) == ScanFrom(lines, i + 1);
      }
    }
  }

  /**
   * Blocks do not overlap: every start lies at or after the cursor, and every later
   * start lies at or after the line where an earlier block's merchant scan stopped
   * (so at least five lines further on).
   */
  lemma {:induction false} StartsAreSeparated(lines: seq<string>, i: nat)
    requires i <= |lines|
    ensures forall k :: 0 <= k < |BlockStarts(lines, i)| ==> i <= BlockStarts(lines, i)[k]
    ensures forall k, m :: 0 <= k < m < |BlockStarts(lines, i)| ==>
              EndsBefore(lines, BlockStarts(lines, i)[k], BlockStarts(lines, i)[m])
    decreases |lines| - i
  {
    if i < |lines| {
      if Accepted(lines, i) {
        var j := BlockEnd(lines, i);
        StartsAreSeparated(lines, j);
        var starts, rest := BlockStarts(lines, i), BlockStarts(lines, j);
        assert starts == [i] + rest;
        forall k, m | 0 <= k < m < |starts|
          ensures EndsBefore(lines, starts[k], starts[m])
        {
          assert starts[m] == rest[m - 1];
          if k > 0 {
            assert starts[k] == rest[k - 1];
          }
        }
      } else {
        StartsAreSeparated(lines, i + 1);
        assert BlockStarts(lines, i) == BlockStarts(lines, i + 1);
      }
    }
  }

  /**
   * The converse: an accepted line that no earlier block covers starts a block, so
   * every such anchor becomes a record.
   */
  lemma {:induction false} UncoveredAcceptedIsStart(lines: seq<string>, i: nat, k: nat)
    requires i <= k < |lines| && Accepted(lines, k)
    requires forall s :: s in BlockStarts(lines, i) && s < k ==> EndsBefore(lines, s, k)
    ensures k in BlockStarts(lines, i)
    decreases |lines| - i
  {
    if i < k {
      if Accepted(lines, i) {
        var j := BlockEnd(lines, i);
        assert BlockStarts(lines, i) == [i] + BlockStarts(lines, j);
        assert EndsBefore(lines, i, k);
        forall s | s in BlockStarts(lines, j) && s < k ensures EndsBefore(lines, s, k) {
          assert s in BlockStarts(lines, i);
        }
        UncoveredAcceptedIsStart(lines, j, k);
      } else {
        assert BlockStarts(lines, i) == BlockStarts(lines, i + 1);
        UncoveredAcceptedIsStart(lines, i + 1, k);
      }
    } else {
      assert BlockStarts(lines, i) == [i] + BlockStarts(lines, BlockEnd(lines, i));
    }
  }

  /** An accepted anchor outside every earlier block yields its record. */
  lemma AcceptedAnchorEmitted(lines: seq<string>, i: nat, k: nat)
    requires i <= k < |lines| && Accepted(lines, k)
    requires forall s :: s in BlockStarts(lines, i) && s < k ==> EndsBefore(lines, s, k)
    ensures BlockRecord(lines, k) in ScanFrom(lines, i)
  {
    UncoveredAcceptedIsStart(lines, i, k);
    ScanFromMatchesStarts(lines, i);
    var starts := BlockStarts(lines, i);
    var n :| 0 <= n < |starts| && starts[n] == k;
    assert EmittedAt(lines, starts[n], ScanFrom(lines, i)[n]);
  }

  /** Lines without a date anchor yield no record. */
  lemma {:induction false} NoAnchorNoRecords(lines: seq<string>, i: nat)
    requires i <= |lines|
    requires forall k :: i <= k < |lines| ==> !IsDateLine(lines[k])
    ensures ScanFrom(lines, i) == []
    decreases |lines| - i
  {
    if i < |lines| {
      NoAnchorNoRecords(lines, i + 1);
    }
  }

  /** Text with no date-anchor line, the empty text among it, parses to nothing. */
  lemma ParseWithoutAnchors(text: string)
    requires forall k :: 0 <= k < |Lines(text)| ==> !IsDateLine(Lines(text)[k])
    ensures Parse(text) == []
  {
    NoAnchorNoRecords(Lines(text), 0);
  }

  /**
   * A date anchor whose type line is neither DEBIT nor CREDIT (or is missing) costs
   * exactly that line: scanning resumes at the next one.
   */
  lemma BadTypeSkipsOneLine(lines: seq<string>, i: nat)
    requires i < |lines| && IsDateLine(lines[i])
    requires i + 2 >= |lines| || TypeOf(lines[i + 2]).None?
    ensures ScanFrom(lines, i) == ScanFrom(lines, i + 1)
  {
  }

  /** Likewise an amount that `float` rejects, such as the "." of "Rs. 250". */
  lemma BadAmountSkipsOneLine(lines: seq<string>, i: nat)
    requires i + 3 < |lines| && IsDateLine(lines[i])
    requires ParseAmount(lines[i + 3]).None?
    ensures ScanFrom(lines, i) == ScanFrom(lines, i + 1)
  {
  }

  /** An anchor with fewer than five lines from it onward produces nothing. */
  lemma {:induction false} ShortTailYieldsNothing(lines: seq<string>, i: nat)
    requires i < |lines| && |lines| < i + 5
    ensures ScanFrom(lines, i) == []
    decreases |lines| - i
  {
    if i + 1 < |lines| {
      ShortTailYieldsNothing(lines, i + 1);
    }
  }

  /** The first character of a join is that of the first part. */
  lemma {:induction false} JoinFirst(parts: seq<string>, sep: string)
    requires |parts| >= 1 && parts[0] != ""
    ensures Join(parts, sep) != "" && Join(parts, sep)[0] == parts[0][0]
  {
  }

  /** The last character of a join is that of the last part. */
  lemma {:induction false} JoinLast(parts: seq<string>, sep: string)
    requires |parts| >= 1 && parts[|parts| - 1] != ""
    ensures var s := Join(parts, sep); s != "" && s[|s| - 1] == parts[|parts| - 1][|parts[|parts| - 1]| - 1]
    decreases |parts|
  {
    if |parts| > 1 {
      JoinLast(parts[1..], sep);
      assert parts[1..][|parts| - 2] == parts[|parts| - 1];
    }
  }

  /**
   * Joining stripped, non-empty lines with single spaces gives a string that is
   * already stripped: the `.strip()` of the merchant tail never removes anything.
   */
  lemma JoinOfStrippedLines(parts: seq<string>)
    requires parts != [] ==> parts[0] != "" && Strip(parts[0]) == parts[0]
    requires parts != [] ==> parts[|parts| - 1] != "" && Strip(parts[|parts| - 1]) == parts[|parts| - 1]
    ensures Strip(Join(parts, " ")) == Join(parts, " ")
  {
    if parts != [] {
      JoinFirst(parts, " ");
      JoinLast(parts, " ");
      var first, last := parts[0], parts[|parts| - 1];
      assert !IsSpace(first[0]) && !IsSpace(last[|last| - 1]);
      StripUnchanged(Join(parts, " "));
    }
  }

  /**
   * The merchant tail of an accepted block is exactly the lines from i+5 up to the
   * stop line, joined with single spaces, and the record is built from it.
   */
  lemma BlockTailIsJoinedLines(lines: seq<string>, i: nat)
    requires forall k :: 0 <= k < |lines| ==> lines[k] != "" && Strip(lines[k]) == lines[k]
    requires i < |lines| && Accepted(lines, i)
    ensures BlockRecord(lines, i)
         == MakeRecord(lines[i], TypeOf(lines[i + 2]).value, ParseAmount(lines[i + 3]).value, lines[i + 4],
                       Join(lines[i + 5..BlockEnd(lines, i)], " "))
  {
    var tailLines := lines[i + 5..BlockEnd(lines, i)];
    if tailLines != [] {
      assert tailLines[0] == lines[i + 5];
      assert tailLines[|tailLines| - 1] == lines[BlockEnd(lines, i) - 1];
    }
    JoinOfStrippedLines(tailLines);
  }

  // ---------------------------------------------------------------------------
  // The imperative parser
  // ---------------------------------------------------------------------------

  /**
   * The body of the `try` in `parse_upi_transactions` for a date anchor at line i:
   * `None` when the candidate is abandoned (a missing line, a bad type, `float`
   * raising), otherwise the record and the line where the merchant scan stopped.
   */
  method ReadBlock(lines: seq<string>, i: nat) returns (r: Option<(ParsedTxn, nat)>)
    requires i < |lines| && IsDateLine(lines[i])
    ensures r.None? <==> !Accepted(lines, i)
    ensures r.Some? ==> r.value.0 == BlockRecord(lines, i) && r.value.1 == BlockEnd(lines, i)
  {
    if i + 2 >= |lines| {
      return None;
    }
    var txnType := Upper(lines[i + 2]);
    if txnType != "DEBIT" && txnType != "CREDIT" {
      return None;
    }
    if i + 3 >= |lines| {
      return None;
    }
    var amount := ParseAmount(lines[i + 3]);
    if amount.None? {
      return None;
    }
    if i + 4 >= |lines| {
      return None;
    }
    var direction := lines[i + 4];
    var j := i + 5;
    var merchantLines: seq<string> := [];
    while j < |lines| && !IsStopLine(lines[j])
      invariant i + 5 <= j <= |lines|
      invariant merchantLines == lines[i + 5..j]
      invariant TailEnd(lines, j) == TailEnd(lines, i + 5)
      decreases |lines| - j
    {
      merchantLines := merchantLines + [lines[j]];
      j := j + 1;
    }
    var tail := Strip(Join(merchantLines, " "));
    var record := MakeRecord(lines[i], if txnType == "DEBIT" then DEBIT else CREDIT, amount.value, direction, tail);
    return Some((record, j));
  }

  /** One step of the scan over an accepted block, after `done` records. */
  lemma ScanTakesBlock(lines: seq<string>, i: nat, done: seq<ParsedTxn>)
    requires i < |lines| && Accepted(lines, i)
    ensures (done + [BlockRecord(lines, i)]) + ScanFrom(lines, BlockEnd(lines, i)) == done + ScanFrom(lines, i)
  {
    assert ScanFrom(lines, i) == [BlockRecord(lines, i)] + ScanFrom(lines, BlockEnd(lines, i));
  }

  /** One step of the scan over a line that starts no accepted block. */
  lemma ScanSkipsLine(lines: seq<string>, i: nat, done: seq<ParsedTxn>)
    requires i < |lines| && !Accepted(lines, i)
    ensures done + ScanFrom(lines, i + 1) == done + ScanFrom(lines, i)
  {
  }

  /**
   * The line scanner of `parse_upi_transactions`: a cursor over the lines, one record
   * appended per accepted block, the cursor moved past the merchant lines.
   */
  method ParseUpiTransactions(text: string) returns (transactions: seq<ParsedTxn>)
    ensures transactions == Parse(text)
    ensures forall k :: 0 <= k < |transactions| ==> WellFormed(transactions[k])
  {
    var lines := Lines(text);
    transactions := [];
    var i := 0;
    while i < |lines|
      invariant 0 <= i <= |lines|
      invariant transactions + ScanFrom(lines, i) == ScanFrom(lines, 0)
      decreases |lines| - i
    {
      if IsDateLine(lines[i]) {
        var block := ReadBlock(lines, i);
        if block.Some? {
          ScanTakesBlock(lines, i, transactions);
          transactions := transactions + [block.value.0];
          i := block.value.1;
        } else {
          ScanSkipsLine(lines, i, transactions);
          i := i + 1;
        }
      } else {
        ScanSkipsLine(lines, i, transactions);
        i := i + 1;
      }
    }
    ParseWellFormed(text);
  }
}
