/** The spend ledger as a Markdown table: reading it, writing the one row an authorization demands, and
    when that row is read back. */
module LedgerText {
  import opened Prelude
  import opened Ledger
  import opened Text

  const MAX_LEDGER_BYTES: nat := 200_000
  const MARKER: string := "## Cloud authorization and spend ledger"
  const HEADER: string := "| Run | Provider | Purpose |"
  const PLACEHOLDER: string := "No new paid run recorded"
  const DASH: string := "\U{2014}"

  datatype LedgerError =
    | TooLarge | SectionMissing | Columns | BadPlaceholder | BadAmount | BadRunId | BadVendor | BadPurpose
    | BadMaximum | BadState | ProofMissing | CostMissing | TableMissing | RunRepeated

  predicate IsBar(c: char) {
    c == '|'
  }

  predicate StartsWith(s: string, prefix: string) {
    prefix <= s
  }

  // ----- Amounts, in cents -----

  /** "USD 5", "USD 5.2" or "USD 5.25". */
  function ParseUsd(value: string): Option<nat> {
    if !StartsWith(value, "USD ") then None
    else
      var amount := value[4..];
      var dot := Find(amount, c => c == '.');
      if dot == |amount| then if AllDigits(amount) then Some(Number(amount) * 100) else None
      else DollarsAndCents(amount[..dot], amount[dot + 1..])
  }

  function DollarsAndCents(whole: string, cents: string): Option<nat> {
    if !AllDigits(whole) || !AllDigits(cents) then None
    else if |cents| == 1 then Some(Number(whole) * 100 + Number(cents) * 10)
    else if |cents| == 2 then Some(Number(whole) * 100 + Number(cents))
    else None
  }

  function TwoDigits(n: nat): string
    requires n < 100
  {
    [Digit(n / 10), Digit(n % 10)]
  }

  function PrintUsd(cents: nat): string {
    Print(cents / 100) + ['.'] + TwoDigits(cents % 100)
  }

  lemma TwoDigitsAreRead(n: nat)
    requires n < 100
    ensures AllDigits(TwoDigits(n)) && Number(TwoDigits(n)) == n
  {
    var s := TwoDigits(n);
    assert s[..1] == [Digit(n / 10)] && s[..1][..0] == [];
    assert Number(s[..1]) == n / 10;
  }

  lemma ParseOfParts(whole: string, cents: string)
    requires AllDigits(whole)
    ensures ParseUsd("USD " + (whole + ['.'] + cents)) == DollarsAndCents(whole, cents)
  {
    PartsOfAmount(whole, cents);
  }

  lemma PartsOfAmount(whole: string, part: string)
    requires AllDigits(whole)
    ensures var amount := whole + ['.'] + part;
            && ("USD " + amount)[4..] == amount && StartsWith("USD " + amount, "USD ")
            && Find(amount, c => c == '.') == |whole|
            && amount[..|whole|] == whole && amount[|whole| + 1..] == part
  {
    var amount := whole + ['.'] + part;
    assert ("USD " + amount)[4..] == amount;
    assert amount[..|whole|] == whole && amount[|whole| + 1..] == part;
    FindIs(amount, c => c == '.', |whole|);
  }

  function Decimal(whole: string, part: string): string {
    if part == "" then whole else whole + ['.'] + part
  }

  /** The text is this many whole dollars, and cents in no digits, one or two. */
  predicate SpelledBy(text: string, whole: string, part: string, cents: nat) {
    && AllDigits(whole) && |part| <= 2 && (part == "" || AllDigits(part))
    && text == "USD " + Decimal(whole, part)
    && cents == Number(whole) * 100 + if |part| == 1 then Number(part) * 10 else if part == "" then 0 else Number(part)
  }

  ghost predicate Spells(text: string, cents: nat) {
    exists whole, part :: SpelledBy(text, whole, part, cents)
  }

  /** A text is read as an amount exactly when it spells it. */
  lemma UsdExactly(text: string, cents: nat)
    ensures ParseUsd(text) == Some(cents) <==> Spells(text, cents)
  {
    if Spells(text, cents) {
      var whole, part :| SpelledBy(text, whole, part, cents);
      SpelledIsRead(text, whole, part, cents);
    }
    if ParseUsd(text) == Some(cents) {
      ReadIsSpelled(text, cents);
    }
  }

  lemma SpelledIsRead(text: string, whole: string, part: string, cents: nat)
    requires SpelledBy(text, whole, part, cents)
    ensures ParseUsd(text) == Some(cents)
  {
    if part == "" {
      assert text == "USD " + whole;
      ParseOfWhole(whole);
    } else {
      assert text == "USD " + (whole + ['.'] + part);
      assert DollarsAndCents(whole, part) == Some(cents);
      ParseOfParts(whole, part);
    }
  }

  lemma ParseOfWhole(whole: string)
    requires AllDigits(whole)
    ensures ParseUsd("USD " + whole) == Some(Number(whole) * 100)
  {
    assert ("USD " + whole)[4..] == whole && whole[..|whole|] == whole;
    FindIs(whole, c => c == '.', |whole|);
  }

  lemma ReadIsSpelled(text: string, cents: nat)
    requires ParseUsd(text) == Some(cents)
    ensures Spells(text, cents)
  {
    var amount := text[4..];
    var dot := Find(amount, c => c == '.');
    assert text == "USD " + amount;
    if dot == |amount| {
      assert SpelledBy(text, amount, "", cents);
    } else {
      PartsMakeDecimal(amount, dot);
      assert SpelledBy(text, amount[..dot], amount[dot + 1..], cents);
    }
  }

  lemma PartsMakeDecimal(amount: string, dot: nat)
    requires dot < |amount| && amount[dot] == '.' && amount[dot + 1..] != []
    ensures Decimal(amount[..dot], amount[dot + 1..]) == amount
  {
  }

  /** An amount with as few decimals as it needs. */
  function PrintShort(cents: nat): string {
    if cents % 100 == 0 then Print(cents / 100)
    else if cents % 10 == 0 then Print(cents / 100) + ['.'] + [Digit(cents % 100 / 10)]
    else PrintUsd(cents)
  }

  lemma PrintedSpells(cents: nat)
    ensures Spells("USD " + PrintUsd(cents), cents) && Spells("USD " + PrintShort(cents), cents)
  {
    NumberOfPrint(cents / 100);
    TwoDigitsAreRead(cents % 100);
    var whole, two, one := Print(cents / 100), TwoDigits(cents % 100), [Digit(cents % 100 / 10)];
    assert SpelledBy("USD " + PrintUsd(cents), whole, two, cents);
    if cents % 100 == 0 {
      assert SpelledBy("USD " + PrintShort(cents), whole, "", cents);
    } else if cents % 10 == 0 {
      assert one[..0] == [] && Number(one) == cents % 100 / 10;
      assert SpelledBy("USD " + PrintShort(cents), whole, one, cents);
    }
  }

  lemma UsdRoundTrip(cents: nat)
    ensures ParseUsd("USD " + PrintUsd(cents)) == Some(cents)
  {
    TwoDigitsAreRead(cents % 100);
    NumberOfPrint(cents / 100);
    ParseOfParts(Print(cents / 100), TwoDigits(cents % 100));
  }

  // ----- One row -----

  predicate IsRunId(s: string) {
    && 3 <= |s| <= 20 && 'a' <= s[0] <= 'z'
    && forall i :: 0 <= i < |s| ==> 'a' <= s[i] <= 'z' || IsDigit(s[i]) || s[i] == '-'
  }

  /** str.upper, on ASCII letters. */
  function Upper(s: string): string {
    seq(|s|, i requires 0 <= i < |s| => if 'a' <= s[i] <= 'z' then (s[i] as int - 32) as char else s[i])
  }

  function ParseVendor(s: string): Option<Vendor> {
    if Upper(s) == "GCP" then Some(GCP) else if Upper(s) == "FLY" then Some(FLY) else None
  }

  predicate NoProof(proof: string) {
    proof == "" || proof == DASH || proof == "-" || proof == "Not provisioned"
  }

  function ParseRow(columns: seq<string>): Result<Entry, LedgerError>
    requires |columns| == 7
  {
    var state := Upper(columns[6]);
    var maximum := ParseUsd(columns[3]);
    var unobserved := columns[4] == DASH || columns[4] == "-" || columns[4] == "";
    var observed := if unobserved then None else ParseUsd(columns[4]);
    var vendor := ParseVendor(columns[1]);
    if maximum.None? || (!unobserved && observed.None?) then Raise(BadAmount)
    else if !IsRunId(columns[0]) then Raise(BadRunId)
    else if vendor.None? then Raise(BadVendor)
    else if columns[2] == "" || |columns[2]| > 384 then Raise(BadPurpose)
    else if maximum.value == 0 then Raise(BadMaximum)
    else if state == "" || |state| > 32 then Raise(BadState)
    else if state in CLOSED && NoProof(columns[5]) then Raise(ProofMissing)
    else if state == "CANCELED" && observed.None? then Raise(CostMissing)
    else Ok(Entry(columns[0], vendor.value, columns[2], maximum.value, observed, columns[5], state))
  }

  /** What an entry of a ledger must be. */
  predicate EntryValid(e: Entry) {
    && IsRunId(e.runId) && 0 < |e.purpose| <= 384 && e.maximum > 0 && 0 < |e.state| <= 32
    && (e.state in {"CLEANED", "CANCELED", "CLEANED-RELEASED"} ==>
          e.cleanupProof !in {"", DASH, "-", "Not provisioned"})
    && (e.state == "CANCELED" ==> e.observed.Some?)
  }

  /** The seven columns say the entry: the provider and the state in capitals or not, the amounts in any spelling, and
      a dash or nothing for a cost that is not known. */
  ghost predicate RowSpells(columns: seq<string>, e: Entry) {
    && |columns| == 7
    && columns[0] == e.runId && Upper(columns[1]) == (if e.vendor == GCP then "GCP" else "FLY")
    && columns[2] == e.purpose && Spells(columns[3], e.maximum)
    && (if e.observed.None? then columns[4] in {DASH, "-", ""} else Spells(columns[4], e.observed.value))
    && columns[5] == e.cleanupProof && Upper(columns[6]) == e.state
  }

  /** The same, with the amounts as they are read. */
  predicate RowReads(columns: seq<string>, e: Entry) {
    && |columns| == 7
    && columns[0] == e.runId && Upper(columns[1]) == (if e.vendor == GCP then "GCP" else "FLY")
    && columns[2] == e.purpose && ParseUsd(columns[3]) == Some(e.maximum)
    && (if e.observed.None? then columns[4] in {DASH, "-", ""} else ParseUsd(columns[4]) == e.observed)
    && columns[5] == e.cleanupProof && Upper(columns[6]) == e.state
  }

  lemma RowReadsExactly(columns: seq<string>, e: Entry)
    requires |columns| == 7
    ensures ParseRow(columns) == Ok(e) <==> RowReads(columns, e) && EntryValid(e)
  {
    if columns[4] in {DASH, "-", ""} {
      DashIsNoAmount(columns[4]);
    }
  }

  /** A row is read as an entry exactly when it says that entry and the entry is a valid one. */
  lemma RowExactly(columns: seq<string>, e: Entry)
    requires |columns| == 7
    ensures ParseRow(columns) == Ok(e) <==> RowSpells(columns, e) && EntryValid(e)
  {
    RowReadsExactly(columns, e);
    UsdExactly(columns[3], e.maximum);
    if e.observed.Some? {
      UsdExactly(columns[4], e.observed.value);
    }
  }

  lemma DashIsNoAmount(text: string)
    requires text in {DASH, "-", ""}
    ensures ParseUsd(text).None?
  {
  }

  predicate IsRule(column: string) {
    forall i :: 0 <= i < |column| ==> column[i] == '-' || column[i] == ':' || column[i] == ' '
  }

  function StripAll(parts: seq<string>): (r: seq<string>)
    ensures |r| == |parts|
  {
    if parts == [] then [] else [Strip(parts[0])] + StripAll(parts[1..])
  }

  // ----- The line loop -----

  datatype Reader = Reader(entries: seq<Entry>, inTable: bool, found: bool, rowSeen: bool, done: bool)

  const START: Reader := Reader([], false, false, false, false)

  function ReadLine(r: Reader, raw: string): Result<Reader, LedgerError> {
    var line := Strip(raw);
    if r.done then Ok(r)
    else if StartsWith(line, HEADER) then Ok(r.(inTable := true, found := true))
    else if !r.inTable then Ok(r)
    else if !StartsWith(line, "|") then Ok(r.(done := r.entries != [] || line != ""))
    else ReadColumns(r, StripAll(Split(StripBy(line, IsBar), IsBar)))
  }

  function ReadColumns(r: Reader, columns: seq<string>): Result<Reader, LedgerError> {
    if |columns| != 7 then Raise(Columns)
    else if IsRule(columns[0]) then Ok(r)
    else if columns[0] == PLACEHOLDER then
      if columns == [PLACEHOLDER, DASH, DASH, "USD 0", "USD 0", DASH, "READY"] then Ok(r.(rowSeen := true))
      else Raise(BadPlaceholder)
    else
      var row := ParseRow(columns);
      if row.Raise? then Raise(row.error) else Ok(r.(entries := r.entries + [row.value], rowSeen := true))
  }

  function ReadLines(r: Reader, lines: seq<string>): Result<Reader, LedgerError>
    decreases |lines|
  {
    if lines == [] then Ok(r)
    else
      var next := ReadLine(r, lines[0]);
      if next.Raise? then next else ReadLines(next.value, lines[1..])
  }

  function Finish(r: Reader): Result<seq<Entry>, LedgerError> {
    if !r.found || !r.rowSeen then Raise(TableMissing)
    else if !UniqueRuns(r.entries) then Raise(RunRepeated)
    else Ok(r.entries)
  }

  /** Where a text first occurs, or the length. */
  function FindText(s: string, text: string): (i: nat)
    ensures i <= |s| && (i < |s| ==> StartsWith(s[i..], text))
  {
    if s == [] || StartsWith(s, text) then 0 else 1 + FindText(s[1..], text)
  }

  /** What follows a text does not change where its first occurrence is. */
  lemma {:induction false} FindTextConcat(a: string, b: string, text: string)
    requires FindText(a, text) < |a|
    ensures FindText(a + b, text) == FindText(a, text)
  {
    var i := FindText(a, text);
    assert |a[i..]| >= |text|;
    if StartsWith(a, text) {
      assert (a + b)[..|text|] == a[..|text|];
    } else {
      assert (a + b)[..|text|] == a[..|text|];
      assert (a + b)[1..] == a[1..] + b;
      FindTextConcat(a[1..], b, text);
    }
  }

  function Parse(content: string): Result<seq<Entry>, LedgerError> {
    var section := FindText(content, MARKER);
    if Utf8Length(content) > MAX_LEDGER_BYTES then Raise(TooLarge)
    else if section == |content| then Raise(SectionMissing)
    else
      var read := ReadLines(START, SplitLines(content[section..]));
      if read.Raise? then Raise(read.error) else Finish(read.value)
  }

  /** parse_spend_ledger. */
  method ParseSpendLedger(content: string) returns (r: Result<seq<Entry>, LedgerError>)
    ensures r == Parse(content)
  {
    if Utf8Length(content) > MAX_LEDGER_BYTES {
      return Raise(TooLarge);
    }
    var section := FindText(content, MARKER);
    if section == |content| {
      return Raise(SectionMissing);
    }
    var lines := SplitLines(content[section..]);
    var entries: seq<Entry>, inTable, found, rowSeen := [], false, false, false;
    var i := 0;
    while i < |lines|
      invariant 0 <= i <= |lines|
      invariant ReadLines(START, lines) == ReadLines(Reader(entries, inTable, found, rowSeen, false), lines[i..])
    {
      var line := Strip(lines[i]);
      assert lines[i..][1..] == lines[i + 1..];
      i := i + 1;
      if StartsWith(line, HEADER) {
        inTable, found := true, true;
        continue;
      }
      if !inTable {
        continue;
      }
      if !StartsWith(line, "|") {
        if entries != [] || line != "" {
          DoneReads(Reader(entries, inTable, found, rowSeen, true), lines[i..]);
          break;
        }
        continue;
      }
      var columns := StripAll(Split(StripBy(line, IsBar), IsBar));
      if |columns| != 7 {
        return Raise(Columns);
      }
      if IsRule(columns[0]) {
        continue;
      }
      if columns[0] == PLACEHOLDER {
        rowSeen := true;
        if columns != [PLACEHOLDER, DASH, DASH, "USD 0", "USD 0", DASH, "READY"] {
          return Raise(BadPlaceholder);
        }
        continue;
      }
      rowSeen := true;
      var row := ParseRow(columns);
      if row.Raise? {
        return Raise(row.error);
      }
      entries := entries + [row.value];
    }
    if !found || !rowSeen {
      return Raise(TableMissing);
    }
    if !UniqueRuns(entries) {
      return Raise(RunRepeated);
    }
    r := Ok(entries);
  }

  lemma {:induction false} DoneReads(r: Reader, lines: seq<string>)
    requires r.done
    ensures ReadLines(r, lines) == Ok(r)
    decreases |lines|
  {
    if lines != [] {
      DoneReads(r, lines[1..]);
    }
  }

  lemma {:induction false} ReadLinesConcat(r: Reader, a: seq<string>, b: seq<string>)
    ensures ReadLines(r, a + b) ==
            (if ReadLines(r, a).Raise? then ReadLines(r, a) else ReadLines(ReadLines(r, a).value, b))
    decreases |a|
  {
    if a == [] {
      assert a + b == b;
    } else {
      assert (a + b)[1..] == a[1..] + b;
      var next := ReadLine(r, a[0]);
      if next.Ok? {
        ReadLinesConcat(next.value, a[1..], b);
      }
    }
  }

  // ----- The row an authorization demands -----

  predicate PurposeAccepted(purpose: string) {
    && Strip(purpose) != "" && |purpose| <= 120
    && forall c | c in purpose :: c != '\0' && c != '\r' && c != '\n' && c != '|'
  }

  /** Workload names, commits and digests. */
  predicate Plain(s: string) {
    forall i :: 0 <= i < |s| ==> 'a' <= s[i] <= 'z' || IsDigit(s[i]) || s[i] == '-' || s[i] == ':'
  }

  datatype Binding = Binding(workload: string, commit: string, planDigest: string)

  predicate BindingValid(b: Binding) {
    && Plain(b.workload) && Plain(b.commit) && Plain(b.planDigest)
    && |b.workload| <= 23 && |b.commit| == 40 && |b.planDigest| == 71
  }

  function BindingText(b: Binding): string {
    " [workload " + b.workload + "] [source " + b.commit + "] [plan " + b.planDigest + "]"
  }

  function LedgerPurpose(purpose: string, b: Binding): string {
    Strip(purpose) + BindingText(b)
  }

  function VendorText(v: Vendor): string {
    if v == GCP then "GCP" else "FLY"
  }

  function Pad(column: string): string {
    [' '] + column + [' ']
  }

  /** Padded cells, a bar between each two. */
  function Cells(columns: seq<string>): string
    requires columns != []
  {
    if |columns| == 1 then Pad(columns[0]) else Pad(columns[0]) + ['|'] + Cells(columns[1..])
  }

  function RequiredColumns(r: Request): seq<string> {
    [r.runId, VendorText(r.vendor), r.purpose, "USD " + PrintUsd(r.maximum), DASH, "Not provisioned", "PLANNED"]
  }

  function RequiredRow(r: Request): string {
    ['|'] + Cells(RequiredColumns(r)) + ['|']
  }

  // ----- Reading it back -----

  predicate Clean(s: string) {
    Free(s, IsSeparator) && Free(s, IsBar)
  }

  predicate Printable(s: string) {
    forall i :: 0 <= i < |s| ==> ' ' <= s[i] <= '{'
  }

  lemma PrintableIsClean(s: string)
    requires Printable(s)
    ensures Clean(s)
  {
  }

  lemma BindingTextIsClean(b: Binding)
    requires BindingValid(b)
    ensures var t := BindingText(b);
            2 <= |t| <= 164 && t[|t| - 1] == ']' && Clean(t)
  {
    PrintableIsClean(BindingText(b));
  }

  /** A cell that strips to itself. */
  predicate Cell(s: string) {
    s != [] && Trim(s, IsSpace) && Free(s, IsBar)
  }

  /** A cell, or nothing. */
  predicate Content(s: string) {
    Trim(s, IsSpace) && Free(s, IsBar)
  }

  lemma CellIsRead(s: string)
    requires Content(s)
    ensures Strip(Pad(s)) == s && Free(Pad(s), IsBar)
  {
    if s != [] {
      StripOf([' '], s, [' '], IsSpace);
    }
  }

  function PadAll(columns: seq<string>): seq<string> {
    if columns == [] then [] else [Pad(columns[0])] + PadAll(columns[1..])
  }

  lemma {:induction false} PaddingIsStripped(columns: seq<string>)
    requires forall i :: 0 <= i < |columns| ==> Content(columns[i])
    ensures StripAll(PadAll(columns)) == columns
  {
    if columns != [] {
      CellIsRead(columns[0]);
      PaddingIsStripped(columns[1..]);
      assert PadAll(columns)[1..] == PadAll(columns[1..]);
    }
  }

  lemma {:induction false} CellsAreSplit(columns: seq<string>)
    requires columns != [] && forall i :: 0 <= i < |columns| ==> Free(Pad(columns[i]), IsBar)
    ensures Split(Cells(columns), IsBar) == PadAll(columns)
  {
    if |columns| == 1 {
      SplitNone(Pad(columns[0]), IsBar);
    } else {
      CellsAreSplit(columns[1..]);
      SplitFirst(Pad(columns[0]), '|', Cells(columns[1..]), IsBar);
    }
  }

  lemma CellsAreRead(columns: seq<string>)
    requires columns != [] && forall i :: 0 <= i < |columns| ==> Content(columns[i])
    ensures StripAll(Split(Cells(columns), IsBar)) == columns
  {
    forall i | 0 <= i < |columns| ensures Free(Pad(columns[i]), IsBar) {
      CellIsRead(columns[i]);
    }
    CellsAreSplit(columns);
    PaddingIsStripped(columns);
  }

  lemma {:induction false} CellsArePadded(columns: seq<string>)
    requires columns != []
    ensures |Cells(columns)| >= 2 + |columns[0]|
    ensures Cells(columns)[0] == ' ' && Cells(columns)[|Cells(columns)| - 1] == ' '
    ensures Cells(columns)[1..|columns[0]| + 1] == columns[0]
  {
    if |columns| > 1 {
      CellsArePadded(columns[1..]);
    }
  }

  /** Peeling a table line: the bars go, the cells stay. */
  lemma LineIsPeeled(cells: string)
    requires |cells| >= 2 && cells[0] == ' ' && cells[|cells| - 1] == ' ' && cells[1] != HEADER[2]
    ensures var line := ['|'] + cells + ['|'];
            Strip(line) == line && StripBy(line, IsBar) == cells
            && StartsWith(line, "|") && !StartsWith(line, HEADER)
  {
    var line := ['|'] + cells + ['|'];
    StripOfTrimmed(line, IsSpace);
    StripOf(['|'], cells, ['|'], IsBar);
    NotTheHeader(line);
  }

  /** A line of cells in a table is read as its columns. */
  lemma TableLineIsRead(columns: seq<string>, reader: Reader)
    requires columns != [] && columns[0] != [] && columns[0][0] != HEADER[2] && reader.inTable && !reader.done
    requires forall i :: 0 <= i < |columns| ==> Content(columns[i])
    ensures ReadLine(reader, ['|'] + Cells(columns) + ['|']) == ReadColumns(reader, columns)
  {
    CellsArePadded(columns);
    assert Cells(columns)[1] == Cells(columns)[1..|columns[0]| + 1][0];
    LineIsPeeled(Cells(columns));
    CellsAreRead(columns);
  }

  lemma NotTheHeader(line: string)
    requires |line| > 2 && line[2] != HEADER[2]
    ensures !StartsWith(line, HEADER)
  {
  }

  predicate RequestValid(r: Request) {
    IsRunId(r.runId) && Cell(r.purpose) && |r.purpose| <= 384 && r.maximum > 0
  }

  lemma RequiredColumnsAreCells(r: Request)
    requires RequestValid(r)
    ensures forall i :: 0 <= i < 7 ==> Cell(RequiredColumns(r)[i])
  {
    var usd := "USD " + PrintUsd(r.maximum);
    assert usd[|usd| - 1] == Digit(r.maximum % 10);
    assert forall i :: 0 <= i < |usd| ==> usd[i] != '|';
  }

  lemma UpperOfCapitals(s: string)
    requires forall i :: 0 <= i < |s| ==> s[i] <= 'Z'
    ensures Upper(s) == s
  {
  }

  lemma RequiredColumnsAreRead(r: Request)
    requires RequestValid(r)
    ensures ParseRow(RequiredColumns(r)) == Ok(PlannedRow(r))
    ensures !IsRule(RequiredColumns(r)[0]) && RequiredColumns(r)[0] != PLACEHOLDER
    ensures RequiredColumns(r)[0][0] != HEADER[2]
  {
    UsdRoundTrip(r.maximum);
    UpperOfCapitals(VendorText(r.vendor));
    PlannedColumnsAreRead(r, VendorText(r.vendor), "USD " + PrintUsd(r.maximum));
    RunIdIsNoMarker(r.runId);
  }

  lemma RunIdIsNoMarker(runId: string)
    requires IsRunId(runId)
    ensures !IsRule(runId) && runId != PLACEHOLDER && runId[0] != HEADER[2]
  {
    assert runId[0] != PLACEHOLDER[0];
  }

  lemma PlannedColumnsAreRead(r: Request, vendor: string, usd: string)
    requires IsRunId(r.runId) && ParseVendor(vendor) == Some(r.vendor) && ParseUsd(usd) == Some(r.maximum)
    requires r.purpose != "" && |r.purpose| <= 384 && r.maximum > 0
    ensures ParseRow([r.runId, vendor, r.purpose, usd, DASH, "Not provisioned", "PLANNED"]) == Ok(PlannedRow(r))
  {
    UpperOfCapitals("PLANNED");
  }

  /** The row, as one line, adds the planned entry. */
  lemma RequiredRowIsRead(r: Request, reader: Reader)
    requires RequestValid(r) && reader.inTable && !reader.done
    ensures ReadLine(reader, RequiredRow(r)) ==
              Ok(reader.(entries := reader.entries + [PlannedRow(r)], rowSeen := true))
  {
    RequiredColumnsAreCells(r);
    RequiredColumnsAreRead(r);
    TableLineIsRead(RequiredColumns(r), reader);
  }

  // ----- Any table -----

  /** An entry whose cells can be told apart in one line. */
  predicate EntryPrintable(e: Entry) {
    && EntryValid(e) && Upper(e.state) == e.state
    && Content(e.purpose) && Content(e.cleanupProof) && Content(e.state)
    && Free(e.purpose, IsSeparator) && Free(e.cleanupProof, IsSeparator) && Free(e.state, IsSeparator)
  }

  function AmountText(cents: nat, short: bool): string {
    "USD " + if short then PrintShort(cents) else PrintUsd(cents)
  }

  /** An entry as a row, its amounts with two decimals or with as few as they need. */
  function EntryColumns(e: Entry, short: bool): seq<string> {
    [e.runId, VendorText(e.vendor), e.purpose, AmountText(e.maximum, short),
     if e.observed.None? then DASH else AmountText(e.observed.value, short), e.cleanupProof, e.state]
  }

  function EntryRow(e: Entry, short: bool): string {
    ['|'] + Cells(EntryColumns(e, short)) + ['|']
  }

  lemma AmountIsContent(cents: nat, short: bool)
    ensures Content(AmountText(cents, short)) && Free(AmountText(cents, short), IsSeparator)
  {
    var text := AmountText(cents, short);
    assert forall i :: 0 <= i < |text| ==> ' ' <= text[i] <= '{';
    assert IsDigit(text[|text| - 1]);
  }

  lemma EntryColumnsAreContent(e: Entry, short: bool)
    requires EntryPrintable(e)
    ensures forall i :: 0 <= i < 7 ==>
              Content(EntryColumns(e, short)[i]) && Free(EntryColumns(e, short)[i], IsSeparator)
  {
    AmountIsContent(e.maximum, short);
    if e.observed.Some? {
      AmountIsContent(e.observed.value, short);
    }
    RunIdIsContent(e.runId);
  }

  lemma RunIdIsContent(runId: string)
    requires IsRunId(runId)
    ensures Content(runId) && Free(runId, IsSeparator)
  {
  }

  lemma EntryColumnsSpell(e: Entry, short: bool)
    requires Upper(e.state) == e.state
    ensures RowSpells(EntryColumns(e, short), e)
  {
    PrintedSpells(e.maximum);
    if e.observed.Some? {
      PrintedSpells(e.observed.value);
    }
    UpperOfCapitals(VendorText(e.vendor));
  }

  /** Columns that say a valid entry are read as it, and are no rule, placeholder or header. */
  lemma SpelledColumnsAreRead(columns: seq<string>, e: Entry, reader: Reader)
    requires RowSpells(columns, e) && EntryValid(e)
    ensures ReadColumns(reader, columns) == Ok(reader.(entries := reader.entries + [e], rowSeen := true))
    ensures columns[0] != [] && columns[0][0] != HEADER[2]
  {
    RowExactly(columns, e);
    RunIdIsNoMarker(e.runId);
  }

  /** A printed entry, as a line of a table, adds exactly that entry. */
  lemma EntryRowIsRead(e: Entry, short: bool, reader: Reader)
    requires EntryPrintable(e) && reader.inTable && !reader.done
    ensures ReadLine(reader, EntryRow(e, short)) == Ok(reader.(entries := reader.entries + [e], rowSeen := true))
  {
    EntryColumnsAreContent(e, short);
    EntryColumnsSpell(e, short);
    SpelledColumnsAreRead(EntryColumns(e, short), e, reader);
    TableLineIsRead(EntryColumns(e, short), reader);
  }

  lemma EntryRowIsClean(e: Entry, short: bool)
    requires EntryPrintable(e)
    ensures Free(EntryRow(e, short), IsSeparator)
  {
    EntryColumnsAreContent(e, short);
    CellsAreClean(EntryColumns(e, short));
  }

  /** Lines, each ended. */
  function Lines(lines: seq<string>): string {
    if lines == [] then "" else (lines[0] + "\n") + Lines(lines[1..])
  }

  function EntryRows(entries: seq<Entry>, short: bool): string {
    Lines(RowsOf(entries, short))
  }

  function RowsOf(entries: seq<Entry>, short: bool): (rows: seq<string>)
    ensures |rows| == |entries|
  {
    seq(|entries|, i requires 0 <= i < |entries| => EntryRow(entries[i], short))
  }

  predicate AddsTo(reader: Reader, line: string, e: Entry) {
    ReadLine(reader, line) == Ok(reader.(entries := reader.entries + [e], rowSeen := true))
  }

  /** In a table the line adds this entry. */
  ghost predicate Adds(line: string, e: Entry) {
    && Free(line, IsSeparator)
    && forall reader: Reader {:trigger AddsTo(reader, line, e)} :: reader.inTable && !reader.done ==>
         AddsTo(reader, line, e)
  }

  /** Lines without separators are split where they end. */
  lemma {:induction false} LinesAreSplit(lines: seq<string>)
    requires forall i :: 0 <= i < |lines| ==> Free(lines[i], IsSeparator)
    ensures SplitLines(Lines(lines)) == lines && Ended(Lines(lines))
  {
    if lines != [] {
      SplitLinesOne(lines[0]);
      SplitLinesConcat(lines[0] + "\n", Lines(lines[1..]));
      LinesAreSplit(lines[1..]);
    }
  }

  lemma {:induction false} LinesAreRead(lines: seq<string>, entries: seq<Entry>, reader: Reader)
    requires AllAdd(lines, entries) && reader.inTable && !reader.done
    ensures ReadLines(reader, lines) == Ok(Longer(reader, entries))
  {
    if lines == [] {
      assert reader.entries + entries == reader.entries;
    } else {
      FirstAdds(lines, entries[0], reader);
      LinesAreRead(lines[1..], entries[1..], Longer(reader, [entries[0]]));
      LongerTwice(reader, entries);
    }
  }

  lemma LongerTwice(reader: Reader, entries: seq<Entry>)
    requires entries != []
    ensures Longer(Longer(reader, [entries[0]]), entries[1..]) == Longer(reader, entries)
  {
    assert (reader.entries + [entries[0]]) + entries[1..] == reader.entries + entries;
  }

  /** Each line adds its entry. */
  ghost predicate AllAdd(lines: seq<string>, entries: seq<Entry>) {
    |lines| == |entries| && (lines == [] || (Adds(lines[0], entries[0]) && AllAdd(lines[1..], entries[1..])))
  }

  function Longer(reader: Reader, entries: seq<Entry>): Reader {
    reader.(entries := reader.entries + entries, rowSeen := reader.rowSeen || entries != [])
  }

  lemma FirstAdds(lines: seq<string>, e: Entry, reader: Reader)
    requires lines != [] && Adds(lines[0], e) && reader.inTable && !reader.done
    ensures ReadLines(reader, lines) == ReadLines(Longer(reader, [e]), lines[1..])
  {
    assert AddsTo(reader, lines[0], e);
  }

  lemma EntryRowAdds(e: Entry, short: bool)
    requires EntryPrintable(e)
    ensures Adds(EntryRow(e, short), e)
  {
    EntryRowIsClean(e, short);
    forall reader: Reader | reader.inTable && !reader.done ensures AddsTo(reader, EntryRow(e, short), e) {
      EntryRowIsRead(e, short, reader);
    }
  }

  lemma {:induction false} EntryRowsAdd(entries: seq<Entry>, short: bool)
    requires forall e | e in entries :: EntryPrintable(e)
    ensures AllAdd(RowsOf(entries, short), entries)
    ensures forall i :: 0 <= i < |entries| ==> Free(RowsOf(entries, short)[i], IsSeparator)
  {
    if entries != [] {
      EntryRowAdds(entries[0], short);
      EntryRowsAdd(entries[1..], short);
      assert RowsOf(entries, short)[1..] == RowsOf(entries[1..], short);
    }
  }

  // ----- The row cut short -----

  function RowHead(r: Request): string {
    ['|'] + Pad(r.runId) + ['|'] + Pad(VendorText(r.vendor)) + ['|', ' ']
  }

  function RowTail(r: Request): string {
    [' ', '|'] + Cells(["USD " + PrintUsd(r.maximum), DASH, "Not provisioned", "PLANNED"]) + ['|']
  }

  lemma RowParts(r: Request)
    ensures RequiredRow(r) == RowHead(r) + r.purpose + RowTail(r)
  {
    var c := RequiredColumns(r);
    assert c[1..] == [c[1], c[2], c[3], c[4], c[5], c[6]];
    assert c[1..][1..] == [c[2], c[3], c[4], c[5], c[6]];
    assert c[1..][1..][1..] == [c[3], c[4], c[5], c[6]];
    var rest := Cells([c[3], c[4], c[5], c[6]]);
    assert Cells(c[1..][1..]) == Pad(c[2]) + ['|'] + rest;
    assert Cells(c[1..]) == Pad(c[1]) + ['|'] + Cells(c[1..][1..]);
    assert Cells(c) == Pad(c[0]) + ['|'] + Cells(c[1..]);
    assert RequiredRow(r) ==
      ['|'] + (Pad(c[0]) + ['|'] + (Pad(c[1]) + ['|'] + ([' '] + c[2] + [' '] + ['|'] + rest))) + ['|'];
  }

  lemma {:induction false} CellsAreClean(columns: seq<string>)
    requires columns != [] && forall i :: 0 <= i < |columns| ==> Free(columns[i], IsSeparator)
    ensures Free(Cells(columns), IsSeparator)
  {
    assert Free(Pad(columns[0]), IsSeparator);
    if |columns| > 1 {
      CellsAreClean(columns[1..]);
    }
  }

  /** Around its purpose the row has no separator. */
  lemma RowEndsAreClean(r: Request)
    requires IsRunId(r.runId)
    ensures Free(RowHead(r), IsSeparator) && Free(RowTail(r), IsSeparator)
  {
    var usd := "USD " + PrintUsd(r.maximum);
    assert forall i :: 0 <= i < |usd| ==> ' ' <= usd[i] <= '{';
    CellsAreClean([usd, DASH, "Not provisioned", "PLANNED"]);
  }

  function CutCells(r: Request, kept: string): string {
    Pad(r.runId) + ['|'] + (Pad(VendorText(r.vendor)) + ['|'] + ([' '] + kept))
  }

  lemma ThreeParts(x: string, y: string, z: string)
    requires Free(x, IsBar) && Free(y, IsBar) && Free(z, IsBar)
    ensures Split(x + ['|'] + (y + ['|'] + z), IsBar) == [x, y, z]
  {
    SplitFirst(x, '|', y + ['|'] + z, IsBar);
    SplitFirst(y, '|', z, IsBar);
    SplitNone(z, IsBar);
  }

  lemma PadIsFree(s: string)
    requires Free(s, IsBar)
    ensures Free(Pad(s), IsBar)
  {
  }

  lemma CutCellsAreThree(r: Request, kept: string)
    requires IsRunId(r.runId) && Free(kept, IsBar) && kept != []
    ensures var inner := CutCells(r, kept);
            && |Split(inner, IsBar)| == 3
            && |inner| >= 2 && inner[0] == ' ' && inner[1] != HEADER[2] && inner[|inner| - 1] == kept[|kept| - 1]
  {
    assert CutCells(r, kept)[1] == r.runId[0];
    PadIsFree(r.runId);
    PadIsFree(VendorText(r.vendor));
    ThreeParts(Pad(r.runId), Pad(VendorText(r.vendor)), [' '] + kept);
  }

  lemma CutRowIsCells(r: Request, k: nat) returns (kept: string, padding: string)
    requires RequestValid(r) && 0 < k < |r.purpose|
    ensures RowHead(r) + r.purpose[..k] == ['|'] + CutCells(r, kept) + padding
    ensures kept != [] && !IsSpace(kept[|kept| - 1]) && Free(kept, IsBar)
    ensures forall i :: 0 <= i < |padding| ==> IsSpace(padding[i])
  {
    var fragment := r.purpose[..k];
    var end := Keep(fragment, IsSpace);
    assert fragment[0] == r.purpose[0];
    kept, padding := fragment[..end], fragment[end..];
    assert fragment == kept + padding;
  }

  /** What is left of a row cut inside its purpose has three columns, which no row may have. */
  lemma CutRowIsRefused(r: Request, k: nat, reader: Reader)
    requires RequestValid(r) && reader.inTable && !reader.done && 0 < k < |r.purpose|
    ensures ReadLine(reader, RowHead(r) + r.purpose[..k]) == Raise(Columns)
  {
    var kept, padding := CutRowIsCells(r, k);
    CutCellsAreThree(r, kept);
    CutLineIsRefused(CutCells(r, kept), padding, reader);
  }

  lemma CutLineIsRefused(inner: string, padding: string, reader: Reader)
    requires |inner| >= 2 && inner[0] == ' ' && inner[1] != HEADER[2] && |Split(inner, IsBar)| == 3
    requires !IsSpace(inner[|inner| - 1]) && !IsBar(inner[|inner| - 1])
    requires forall i :: 0 <= i < |padding| ==> IsSpace(padding[i])
    requires reader.inTable && !reader.done
    ensures ReadLine(reader, ['|'] + inner + padding) == Raise(Columns)
  {
    CutLineIsPeeled(inner, padding);
    PeeledLineIsRead(reader, ['|'] + inner + padding, inner);
  }

  lemma PeeledLineIsRead(reader: Reader, raw: string, cells: string)
    requires reader.inTable && !reader.done
    requires StripBy(Strip(raw), IsBar) == cells && StartsWith(Strip(raw), "|") && !StartsWith(Strip(raw), HEADER)
    ensures ReadLine(reader, raw) == ReadColumns(reader, StripAll(Split(cells, IsBar)))
  {
  }

  lemma CutLineIsPeeled(inner: string, padding: string)
    requires |inner| >= 2 && inner[0] == ' ' && inner[1] != HEADER[2]
    requires !IsSpace(inner[|inner| - 1]) && !IsBar(inner[|inner| - 1])
    requires forall i :: 0 <= i < |padding| ==> IsSpace(padding[i])
    ensures var line := Strip(['|'] + inner + padding);
            StripBy(line, IsBar) == inner && StartsWith(line, "|") && !StartsWith(line, HEADER)
  {
    var line := ['|'] + inner;
    assert [] + line + padding == ['|'] + inner + padding;
    StripOf([], line, padding, IsSpace);
    assert ['|'] + inner + [] == line;
    StripOf(['|'], inner, [], IsBar);
    NotTheHeader(line);
  }

  // ----- The whole document -----

  /** The table is over: what follows is nothing, or a line that does not continue it. */
  predicate EndsTable(after: string) {
    SplitLines(after) == [] || !StartsWith(Strip(SplitLines(after)[0]), "|")
  }

  /** A document up to a point inside its table, and what the reader knows there. */
  ghost predicate InsideTable(before: string, reader: Reader) {
    var section := FindText(before, MARKER);
    && section < |before| && Ended(before)
    && ReadLines(START, SplitLines(before[section..])) == Ok(reader)
    && reader.found && reader.inTable && !reader.done
  }

  lemma LinesFrom(before: string, rest: string, text: string)
    requires FindText(before, text) < |before| && Ended(before)
    ensures var section := FindText(before, text);
            && FindText(before + rest, text) == section
            && SplitLines((before + rest)[section..]) == SplitLines(before[section..]) + SplitLines(rest)
  {
    var section := FindText(before, text);
    FindTextConcat(before, rest, text);
    assert (before + rest)[section..] == before[section..] + rest;
    SplitLinesConcat(before[section..], rest);
  }

  /** The document is read up to the table, then the rest is read from there. */
  lemma ParseInside(before: string, reader: Reader, rest: string)
    requires InsideTable(before, reader) && Utf8Length(before + rest) <= MAX_LEDGER_BYTES
    ensures var read := ReadLines(reader, SplitLines(rest));
            Parse(before + rest) == (if read.Raise? then Raise(read.error) else Finish(read.value))
  {
    LinesFrom(before, rest, MARKER);
    ReadLinesConcat(START, SplitLines(before[FindText(before, MARKER)..]), SplitLines(rest));
  }

  /** The table ends after the new row. */
  lemma TableEnds(reader: Reader, after: string)
    requires reader.inTable && !reader.done && reader.entries != [] && EndsTable(after)
    ensures ReadLines(reader, SplitLines(after)).Ok?
    ensures ReadLines(reader, SplitLines(after)).value.entries == reader.entries
    ensures ReadLines(reader, SplitLines(after)).value.found == reader.found
    ensures ReadLines(reader, SplitLines(after)).value.rowSeen == reader.rowSeen
  {
    var lines := SplitLines(after);
    if lines != [] {
      assert HEADER[0] == '|';
      DoneReads(reader.(done := true), lines[1..]);
    }
  }

  /** Any list of valid entries, printed into a table, parses to what was there and that list, unless a run is entered
      twice. */
  lemma TableRoundTrip(before: string, reader: Reader, entries: seq<Entry>, short: bool, after: string)
    requires InsideTable(before, reader) && EndsTable(after) && entries != []
    requires forall e | e in entries :: EntryPrintable(e)
    requires Utf8Length(before + (EntryRows(entries, short) + after)) <= MAX_LEDGER_BYTES
    ensures Parse(before + (EntryRows(entries, short) + after)) ==
              if UniqueRuns(reader.entries + entries) then Ok(reader.entries + entries) else Raise(RunRepeated)
  {
    ParseInside(before, reader, EntryRows(entries, short) + after);
    EntryRowsAdd(entries, short);
    LinesAreSplit(RowsOf(entries, short));
    SplitLinesConcat(EntryRows(entries, short), after);
    LinesAreRead(RowsOf(entries, short), entries, reader);
    ReadLinesConcat(reader, RowsOf(entries, short), SplitLines(after));
    TableEnds(reader.(entries := reader.entries + entries, rowSeen := true), after);
  }

  /** Reading the new row and what follows it, when the row is one line. */
  lemma WholeRowIsRead(r: Request, reader: Reader, after: string)
    requires RequestValid(r) && reader.inTable && !reader.done && EndsTable(after)
    requires Free(r.purpose, IsSeparator)
    ensures var read := ReadLines(reader, SplitLines(RequiredRow(r) + "\n" + after));
            && read.Ok? && read.value.entries == reader.entries + [PlannedRow(r)]
            && read.value.found == reader.found && read.value.rowSeen
  {
    var row := RequiredRow(r);
    RowParts(r);
    RowEndsAreClean(r);
    assert Free(row, IsSeparator);
    SplitLinesOne(row);
    SplitLinesConcat(row + "\n", after);
    RequiredRowIsRead(r, reader);
    var next := reader.(entries := reader.entries + [PlannedRow(r)], rowSeen := true);
    assert ([row] + SplitLines(after))[1..] == SplitLines(after);
    TableEnds(next, after);
  }

  /** Reading it when a separator cuts the row. */
  lemma BrokenRowIsRefused(r: Request, reader: Reader, after: string)
    requires RequestValid(r) && reader.inTable && !reader.done
    requires !Free(r.purpose, IsSeparator)
    ensures ReadLines(reader, SplitLines(RequiredRow(r) + "\n" + after)) == Raise(Columns)
  {
    var text, head := RequiredRow(r) + "\n" + after, RowHead(r);
    var k := Find(r.purpose, IsSeparator);
    assert 0 < k < |r.purpose|;
    RowParts(r);
    RowEndsAreClean(r);
    var i := |head| + k;
    assert text[..i] == head + r.purpose[..k] && text[i] == r.purpose[k];
    SplitLinesFirst(text, i);
    CutRowIsRefused(r, k, reader);
  }

  /** The demanded row reads back, exactly when its purpose has no line separator.  The check on a
      purpose refuses only two of the eleven: with any of the others inside, the ledger that follows the
      demand to the letter can no longer be read at all. */
  lemma RequiredRowRoundTrip(before: string, reader: Reader, r: Request, after: string)
    requires InsideTable(before, reader) && EndsTable(after) && RequestValid(r)
    requires UniqueRuns(reader.entries) && forall i :: 0 <= i < |reader.entries| ==> reader.entries[i].runId != r.runId
    requires Utf8Length(before + (RequiredRow(r) + "\n" + after)) <= MAX_LEDGER_BYTES
    ensures Parse(before + (RequiredRow(r) + "\n" + after)) ==
            if Free(r.purpose, IsSeparator) then Ok(reader.entries + [PlannedRow(r)]) else Raise(Columns)
  {
    ParseInside(before, reader, RequiredRow(r) + "\n" + after);
    if Free(r.purpose, IsSeparator) {
      WholeRowIsRead(r, reader, after);
    } else {
      BrokenRowIsRefused(r, reader, after);
    }
  }

  /** What build_authorization checks of its arguments makes a valid request; the line separators left
      are those inside the purpose as typed. */
  lemma AcceptedPurposeMakesCell(purpose: string, b: Binding)
    requires PurposeAccepted(purpose) && BindingValid(b)
    ensures Cell(LedgerPurpose(purpose, b)) && |LedgerPurpose(purpose, b)| <= 384
    ensures Free(LedgerPurpose(purpose, b), IsSeparator) <==> Free(Strip(purpose), IsSeparator)
  {
    BindingTextIsClean(b);
    assert forall i :: 0 <= i < |Strip(purpose)| ==> Strip(purpose)[i] in purpose;
    JoinedIsCell(Strip(purpose), BindingText(b));
  }

  lemma JoinedIsCell(core: string, text: string)
    requires core != [] && Trim(core, IsSpace) && Free(core, IsBar)
    requires text != [] && !IsSpace(text[|text| - 1]) && Clean(text)
    ensures Cell(core + text) && (Free(core + text, IsSeparator) <==> Free(core, IsSeparator))
  {
    var whole := core + text;
    assert forall i :: 0 <= i < |core| ==> whole[i] == core[i];
    assert forall i :: 0 <= i < |text| ==> whole[|core| + i] == text[i];
  }

  /** A purpose with a vertical tab in it is accepted, and its row, demanded of any run and appended to any table,
      makes the ledger unreadable. */
  lemma VerticalTabBreaksTheLedger(
    before: string, reader: Reader, after: string, b: Binding, runId: string, vendor: Vendor, maximum: nat)
    requires InsideTable(before, reader) && EndsTable(after) && BindingValid(b) && IsRunId(runId) && maximum > 0
    requires UniqueRuns(reader.entries) && forall i :: 0 <= i < |reader.entries| ==> reader.entries[i].runId != runId
    requires var r := Request(runId, vendor, LedgerPurpose("a\U{0B}b", b), maximum);
             Utf8Length(before + (RequiredRow(r) + "\n" + after)) <= MAX_LEDGER_BYTES
    ensures PurposeAccepted("a\U{0B}b")
    ensures var r := Request(runId, vendor, LedgerPurpose("a\U{0B}b", b), maximum);
            Parse(before + (RequiredRow(r) + "\n" + after)) == Raise(Columns)
  {
    var purpose := "a\U{0B}b";
    StripOfTrimmed(purpose, IsSpace);
    assert IsSeparator(purpose[1]);
    AcceptedPurposeMakesCell(purpose, b);
    RequiredRowRoundTrip(before, reader, Request(runId, vendor, LedgerPurpose(purpose, b), maximum), after);
  }

  /** Following a demand and asking again: the ledger is read with the row in it, and the same request
      gets the same report with both flags set. */
  lemma DemandThenAuthorization(before: string, reader: Reader, r: Request, after: string)
    requires InsideTable(before, reader) && EndsTable(after) && RequestValid(r)
    requires UniqueRuns(reader.entries) && Free(r.purpose, IsSeparator)
    requires Authorize(reader.entries, r).Ok? && !Authorize(reader.entries, r).value.reservationRecorded
    requires Utf8Length(before + (RequiredRow(r) + "\n" + after)) <= MAX_LEDGER_BYTES
    ensures var entries := Parse(before + (RequiredRow(r) + "\n" + after));
            && entries.Ok?
            && Authorize(entries.value, r)
            == Ok(Authorize(reader.entries, r).value.(reservationRecorded := true, provisioningAuthorized := true))
  {
    NamedOf(reader.entries, r.runId);
    forall i | 0 <= i < |reader.entries| ensures reader.entries[i].runId != r.runId {
      assert reader.entries[i] in reader.entries;
    }
    RequiredRowRoundTrip(before, reader, r, after);
    AskingAgain(reader.entries, r);
  }
}
