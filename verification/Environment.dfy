/** The runner's environment file: parsing it, merging the managed entries in, printing it, and writing it
    only when it changes. */
module Environment {
  import opened Prelude
  import opened Text

  const MAX_BYTES: nat := 65_536

  const MANAGED_ORDER: seq<string> := [
    "COMMUNITYAI_QUALIFICATION_MACHINE_ID",
    "COMMUNITYAI_QWEN35_2B_ARTIFACT_ROOT",
    "COMMUNITYAI_QWEN35_2B_CACHE_DIR",
    "COMMUNITYAI_GEMMA4_E2B_ARTIFACT_ROOT",
    "COMMUNITYAI_GEMMA4_E2B_CACHE_DIR"]

  datatype Entry = Entry(name: string, value: string)

  datatype EnvironmentError = TooLarge | HasNul | NotAnEntry | RepeatedName

  predicate IsEquals(c: char) {
    c == '='
  }

  predicate IsNameStart(c: char) {
    'A' <= c <= 'Z' || 'a' <= c <= 'z' || c == '_'
  }

  predicate IsName(s: string) {
    s != "" && IsNameStart(s[0]) && forall i :: 0 <= i < |s| ==> IsNameStart(s[i]) || IsDigit(s[i])
  }

  /** Names at the edges of what is one. */
  lemma Edges()
    ensures IsName("A") && IsName("Z") && IsName("a") && IsName("z") && IsName("_") && IsName("A0")
    ensures !IsName("") && !IsName("0A") && !IsName("A-B") && !IsName("@") && !IsName("[") && !IsName("`")
  {
    assert "A-B"[1] == '-';
  }

  // ----- Parsing -----

  /** line.partition("=") with a valid name. */
  function ParseLine(line: string): Option<Entry> {
    var i := Find(line, IsEquals);
    if i == |line| || !IsName(line[..i]) then None else Some(Entry(line[..i], line[i + 1..]))
  }

  predicate Mentions(entries: seq<Entry>, name: string) {
    exists e :: e in entries && e.name == name
  }

  /** The line loop, after some entries. */
  function ParseLines(entries: seq<Entry>, lines: seq<string>): Result<seq<Entry>, EnvironmentError>
    decreases |lines|
  {
    if lines == [] then Ok(entries)
    else if lines[0] == "" then ParseLines(entries, lines[1..])
    else
      var entry := ParseLine(lines[0]);
      if entry.None? then Raise(NotAnEntry)
      else if Mentions(entries, entry.value.name) then Raise(RepeatedName)
      else ParseLines(entries + [entry.value], lines[1..])
  }

  function Parse(content: string): Result<seq<Entry>, EnvironmentError> {
    if Utf8Length(content) > MAX_BYTES then Raise(TooLarge)
    else if '\0' in content then Raise(HasNul)
    else ParseLines([], SplitLines(content))
  }

  /** _parse_existing_environment. */
  method ParseExistingEnvironment(content: string) returns (r: Result<seq<Entry>, EnvironmentError>)
    ensures r == Parse(content)
  {
    if Utf8Length(content) > MAX_BYTES {
      return Raise(TooLarge);
    }
    if '\0' in content {
      return Raise(HasNul);
    }
    var lines := SplitLines(content);
    var entries: seq<Entry>, seen: set<string> := [], {};
    for i := 0 to |lines|
      invariant ParseLines([], lines) == ParseLines(entries, lines[i..])
      invariant forall name :: name in seen <==> Mentions(entries, name)
    {
      assert lines[i..][0] == lines[i] && lines[i..][1..] == lines[i + 1..];
      if lines[i] == "" {
        continue;
      }
      var entry := ParseLine(lines[i]);
      if entry.None? {
        return Raise(NotAnEntry);
      }
      if entry.value.name in seen {
        return Raise(RepeatedName);
      }
      MentionsOneMore(entries, entry.value);
      seen := seen + {entry.value.name};
      entries := entries + [entry.value];
    }
    r := Ok(entries);
  }

  lemma MentionsOneMore(entries: seq<Entry>, e: Entry)
    ensures forall name :: Mentions(entries + [e], name) <==> Mentions(entries, name) || e.name == name
  {
    forall name ensures Mentions(entries + [e], name) <==> Mentions(entries, name) || e.name == name {
      if Mentions(entries, name) {
        var f :| f in entries && f.name == name;
        assert f in entries + [e];
      }
      assert e in entries + [e];
    }
  }

  // ----- Printing -----

  function PrintEntry(e: Entry): string {
    e.name + ['='] + e.value
  }

  function PrintAll(entries: seq<Entry>): string {
    if entries == [] then "" else PrintEntry(entries[0]) + "\n" + PrintAll(entries[1..])
  }

  /** A name as the parser demands, and a value that stays on its line. */
  predicate Printable(e: Entry) {
    IsName(e.name) && Free(e.value, IsSeparator) && '\0' !in e.value
  }

  predicate DistinctEntries(entries: seq<Entry>) {
    forall i, j :: 0 <= i < j < |entries| ==> entries[i].name != entries[j].name
  }

  lemma NameIsFree(name: string)
    requires IsName(name)
    ensures Free(name, IsSeparator) && Free(name, IsEquals) && '\0' !in name
  {
  }

  lemma EntryRoundTrip(e: Entry)
    requires Printable(e)
    ensures ParseLine(PrintEntry(e)) == Some(e) && Free(PrintEntry(e), IsSeparator) && PrintEntry(e) != ""
  {
    NameIsFree(e.name);
    var line := PrintEntry(e);
    assert line[..|e.name|] == e.name && line[|e.name| + 1..] == e.value;
    FindIs(line, IsEquals, |e.name|);
  }

  lemma {:induction false} LinesOfPrint(entries: seq<Entry>)
    requires forall i :: 0 <= i < |entries| ==> Printable(entries[i])
    ensures SplitLines(PrintAll(entries)) == PrintedLines(entries)
  {
    if entries != [] {
      var line := PrintEntry(entries[0]);
      assert Printable(entries[0]);
      EntryRoundTrip(entries[0]);
      SplitLinesOne(line);
      SplitLinesConcat(line + "\n", PrintAll(entries[1..]));
      LinesOfPrint(entries[1..]);
    }
  }

  function PrintedLines(entries: seq<Entry>): seq<string> {
    if entries == [] then [] else [PrintEntry(entries[0])] + PrintedLines(entries[1..])
  }

  lemma {:induction false} LinesAreRead(before: seq<Entry>, entries: seq<Entry>)
    requires forall i :: 0 <= i < |entries| ==> Printable(entries[i])
    requires DistinctEntries(before + entries)
    ensures ParseLines(before, PrintedLines(entries)) == Ok(before + entries)
    decreases |entries|
  {
    if entries == [] {
      assert before + entries == before;
    } else {
      var e := entries[0];
      assert Printable(e);
      EntryRoundTrip(e);
      assert (before + entries)[|before|] == e;
      assert !Mentions(before, e.name) by {
        forall f | f in before ensures f.name != e.name {
          var i :| 0 <= i < |before| && before[i] == f;
          assert (before + entries)[i] == f;
        }
      }
      assert before + [e] + entries[1..] == before + entries;
      LinesAreRead(before + [e], entries[1..]);
    }
  }

  lemma {:induction false} PrintHasNoNul(entries: seq<Entry>)
    requires forall i :: 0 <= i < |entries| ==> Printable(entries[i])
    ensures '\0' !in PrintAll(entries)
  {
    if entries != [] {
      assert Printable(entries[0]);
      NameIsFree(entries[0].name);
      PrintHasNoNul(entries[1..]);
    }
  }

  /** Parsing what was printed gives it back. */
  lemma PrintThenParse(entries: seq<Entry>)
    requires forall i :: 0 <= i < |entries| ==> Printable(entries[i])
    requires DistinctEntries(entries) && Utf8Length(PrintAll(entries)) <= MAX_BYTES
    ensures Parse(PrintAll(entries)) == Ok(entries)
  {
    PrintHasNoNul(entries);
    LinesOfPrint(entries);
    PrintedLinesAreRead(entries);
    LinesAreParsed(PrintAll(entries), PrintedLines(entries));
  }

  lemma PrintedLinesAreRead(entries: seq<Entry>)
    requires forall i :: 0 <= i < |entries| ==> Printable(entries[i])
    requires DistinctEntries(entries)
    ensures ParseLines([], PrintedLines(entries)) == Ok(entries)
  {
    assert [] + entries == entries;
    LinesAreRead([], entries);
  }

  lemma LinesAreParsed(text: string, lines: seq<string>)
    requires '\0' !in text && Utf8Length(text) <= MAX_BYTES && SplitLines(text) == lines
    ensures Parse(text) == ParseLines([], lines)
  {
  }

  /** Whatever parses is printable and without repetitions. */
  lemma {:induction false} ParsedIsPrintable(before: seq<Entry>, lines: seq<string>)
    requires forall i :: 0 <= i < |lines| ==> Free(lines[i], IsSeparator) && '\0' !in lines[i]
    requires forall i :: 0 <= i < |before| ==> Printable(before[i])
    requires DistinctEntries(before)
    ensures var r := ParseLines(before, lines);
            r.Ok? ==> DistinctEntries(r.value) && forall i :: 0 <= i < |r.value| ==> Printable(r.value[i])
    decreases |lines|
  {
    if lines != [] {
      var line := lines[0];
      assert Free(line, IsSeparator) && '\0' !in line;
      var entry := ParseLine(line);
      if line == "" {
        ParsedIsPrintable(before, lines[1..]);
      } else if entry.Some? && !Mentions(before, entry.value.name) {
        assert forall i :: 0 <= i < |before| ==> before[i] in before;
        var i := Find(line, IsEquals);
        assert Free(line[i + 1..], IsSeparator);
        ParsedIsPrintable(before + [entry.value], lines[1..]);
      }
    }
  }

  lemma {:induction false} LinesAreFree(s: string)
    requires '\0' !in s
    ensures forall i :: 0 <= i < |SplitLines(s)| ==> Free(SplitLines(s)[i], IsSeparator) && '\0' !in SplitLines(s)[i]
    decreases |s|
  {
    if s != [] {
      var i := Find(s, IsSeparator);
      if i < |s| {
        LinesAreFree(s[After(s, i)..]);
        var rest := SplitLines(s[After(s, i)..]);
        assert SplitLines(s) == [s[..i]] + rest;
      }
    }
  }

  lemma ParseGivesPrintable(content: string)
    ensures Parse(content).Ok? ==>
              && DistinctEntries(Parse(content).value)
              && forall i :: 0 <= i < |Parse(content).value| ==> Printable(Parse(content).value[i])
  {
    if '\0' !in content {
      LinesAreFree(content);
      ParsedIsPrintable([], SplitLines(content));
    }
  }

  // ----- Merging -----

  function Unmanaged(entries: seq<Entry>, order: seq<string>): seq<Entry> {
    if entries == [] then []
    else (if entries[0].name in order then [] else [entries[0]]) + Unmanaged(entries[1..], order)
  }

  /** The supplied ones of some managed names, in that order. */
  function Supplied(order: seq<string>, managed: map<string, string>): seq<Entry> {
    if order == [] then []
    else (if order[0] in managed then [Entry(order[0], managed[order[0]])] else []) + Supplied(order[1..], managed)
  }

  function MergeEntries(entries: seq<Entry>, order: seq<string>, managed: map<string, string>): seq<Entry> {
    Unmanaged(entries, order) + Supplied(order, managed)
  }

  /** _merge_environment. */
  function Merge(content: string, managed: map<string, string>): Result<string, EnvironmentError> {
    var entries := Parse(content);
    if entries.Raise? then Raise(entries.error) else Ok(PrintAll(MergeEntries(entries.value, MANAGED_ORDER, managed)))
  }

  /** What the managed values must satisfy to stay on their lines; the check made of them excludes only a
      NUL, a carriage return and a line feed. */
  predicate ValuesClean(managed: map<string, string>) {
    forall name | name in managed :: Free(managed[name], IsSeparator) && '\0' !in managed[name]
  }

  lemma {:induction false} UnmanagedParts(entries: seq<Entry>, order: seq<string>)
    ensures forall e :: e in Unmanaged(entries, order) <==> e in entries && e.name !in order
    ensures DistinctEntries(entries) ==> DistinctEntries(Unmanaged(entries, order))
  {
    if entries != [] {
      UnmanagedParts(entries[1..], order);
      assert entries == [entries[0]] + entries[1..];
      var rest := Unmanaged(entries[1..], order);
      if DistinctEntries(entries) {
        forall i | 0 <= i < |rest| ensures rest[i].name != entries[0].name {
          assert rest[i] in rest;
          var j :| 0 <= j < |entries[1..]| && entries[1..][j] == rest[i];
          assert entries[j + 1] == rest[i];
        }
      }
    }
  }

  lemma {:induction false} SuppliedParts(order: seq<string>, managed: map<string, string>)
    requires Distinct(order)
    ensures forall e :: e in Supplied(order, managed) <==>
              e.name in order && e.name in managed && e.value == managed[e.name]
    ensures DistinctEntries(Supplied(order, managed))
  {
    if order != [] {
      SuppliedParts(order[1..], managed);
      assert order == [order[0]] + order[1..];
      var rest := Supplied(order[1..], managed);
      forall i | 0 <= i < |rest| ensures rest[i].name != order[0] {
        assert rest[i] in rest;
      }
    }
  }

  lemma {:induction false} UnmanagedOfConcat(a: seq<Entry>, b: seq<Entry>, order: seq<string>)
    ensures Unmanaged(a + b, order) == Unmanaged(a, order) + Unmanaged(b, order)
  {
    if a == [] {
      assert a + b == b;
    } else {
      assert (a + b)[1..] == a[1..] + b;
      UnmanagedOfConcat(a[1..], b, order);
    }
  }

  lemma {:induction false} UnmanagedOfPlain(entries: seq<Entry>, order: seq<string>)
    requires forall e | e in entries :: e.name !in order
    ensures Unmanaged(entries, order) == entries
  {
    if entries != [] {
      assert entries[0] in entries;
      UnmanagedOfPlain(entries[1..], order);
    }
  }

  lemma {:induction false} UnmanagedOfManaged(entries: seq<Entry>, order: seq<string>)
    requires forall e | e in entries :: e.name in order
    ensures Unmanaged(entries, order) == []
  {
    if entries != [] {
      assert entries[0] in entries;
      UnmanagedOfManaged(entries[1..], order);
    }
  }

  lemma ManagedNamesAreDistinct()
    ensures Distinct(MANAGED_ORDER)
  {
    assert |MANAGED_ORDER[0]| == 36 && |MANAGED_ORDER[1]| == 35 && |MANAGED_ORDER[2]| == 31;
    assert |MANAGED_ORDER[3]| == 36 && |MANAGED_ORDER[4]| == 32;
    assert MANAGED_ORDER[0][12] == 'Q' && MANAGED_ORDER[3][12] == 'G';
  }

  lemma ManagedNamesAreNames()
    ensures forall name | name in MANAGED_ORDER :: IsName(name)
  {
    forall i | 0 <= i < |MANAGED_ORDER| ensures IsName(MANAGED_ORDER[i]) {
    }
  }

  /** Merging again changes nothing. */
  lemma MergingTwice(entries: seq<Entry>, order: seq<string>, managed: map<string, string>)
    requires Distinct(order)
    ensures MergeEntries(MergeEntries(entries, order, managed), order, managed) == MergeEntries(entries, order, managed)
  {
    MergeSplits(entries, order, managed);
  }

  /** The unmanaged part of a merge is the unmanaged part of what was merged. */
  lemma MergeSplits(entries: seq<Entry>, order: seq<string>, managed: map<string, string>)
    requires Distinct(order)
    ensures Unmanaged(MergeEntries(entries, order, managed), order) == Unmanaged(entries, order)
  {
    var supplied := Supplied(order, managed);
    SuppliedParts(order, managed);
    UnmanagedParts(entries, order);
    UnmanagedOfConcat(Unmanaged(entries, order), supplied, order);
    UnmanagedOfPlain(Unmanaged(entries, order), order);
    UnmanagedOfManaged(supplied, order);
  }

  /** What a merge of parsed entries with clean values prints can be parsed back, to the same entries. */
  lemma MergedIsPrintable(entries: seq<Entry>, order: seq<string>, managed: map<string, string>)
    requires DistinctEntries(entries) && forall i :: 0 <= i < |entries| ==> Printable(entries[i])
    requires ValuesClean(managed) && Distinct(order) && forall name | name in order :: IsName(name)
    ensures var merged := MergeEntries(entries, order, managed);
            DistinctEntries(merged) && forall i :: 0 <= i < |merged| ==> Printable(merged[i])
  {
    var kept, supplied := Unmanaged(entries, order), Supplied(order, managed);
    var merged := MergeEntries(entries, order, managed);
    UnmanagedParts(entries, order);
    SuppliedParts(order, managed);
    forall i | 0 <= i < |merged| ensures Printable(merged[i]) {
      if i < |kept| {
        assert kept[i] in kept && kept[i] in entries;
      } else {
        assert supplied[i - |kept|] in supplied;
      }
    }
    forall i, j | 0 <= i < j < |merged| ensures merged[i].name != merged[j].name {
      if i < |kept| <= j {
        assert kept[i] in kept && supplied[j - |kept|] in supplied;
      }
    }
  }

  lemma MergePrints(content: string, managed: map<string, string>)
    requires Parse(content).Ok? && ValuesClean(managed)
    ensures var merged := MergeEntries(Parse(content).value, MANAGED_ORDER, managed);
            DistinctEntries(merged) && forall i :: 0 <= i < |merged| ==> Printable(merged[i])
  {
    ParseGivesPrintable(content);
    ManagedNamesAreDistinct();
    ManagedNamesAreNames();
    MergedIsPrintable(Parse(content).value, MANAGED_ORDER, managed);
  }

  /** A merge is stable: with clean values, merging its own output again gives the same text, exactly when
      that text is within the size the parser accepts. */
  lemma MergeIsStable(content: string, managed: map<string, string>)
    requires Merge(content, managed).Ok? && ValuesClean(managed)
    ensures var once := Merge(content, managed).value;
            Merge(once, managed) == if Utf8Length(once) <= MAX_BYTES then Ok(once) else Raise(TooLarge)
  {
    var entries := Parse(content).value;
    var merged := MergeEntries(entries, MANAGED_ORDER, managed);
    MergePrints(content, managed);
    if Utf8Length(PrintAll(merged)) <= MAX_BYTES {
      PrintThenParse(merged);
      ManagedNamesAreDistinct();
      MergingTwice(entries, MANAGED_ORDER, managed);
    }
  }

  // ----- Writing -----

  datatype Outcome = Created | Updated | Unchanged | Failed(error: EnvironmentError)

  class EnvironmentFile {
    var content: Option<string>     // nothing when there is no file

    constructor (content: Option<string>)
      ensures this.content == content
    {
      this.content := content;
    }

    /** _write_environment, on a regular file or none: what is there afterwards is the merge of what was
        there before, replaced in one step, and nothing changes when that is what was there or when it
        cannot be read. */
    method Write(managed: map<string, string>) returns (outcome: Outcome)
      modifies this
      ensures var before := if old(content).Some? then old(content).value else "";
              var merged := Merge(before, managed);
              if merged.Raise? then outcome == Failed(merged.error) && content == old(content)
              else
                && content == Some(merged.value)
                && outcome == (if old(content).None? then Created
                               else if old(content).value == merged.value then Unchanged else Updated)
    {
      var existing := if content.Some? then content.value else "";
      var merged := Merge(existing, managed);
      if merged.Raise? {
        return Failed(merged.error);
      }
      if content == Some(merged.value) {
        return Unchanged;
      }
      outcome := if content.Some? then Updated else Created;
      content := Some(merged.value);
    }

    /** Writing a value that breaks in two: after a write that worked, the next one cannot read the file. */
    method WriteBroken(
        managed: map<string, string>, name: string, ghost first: string, ghost separator: char, ghost second: string)
      returns (once: Outcome, again: Outcome)
      requires name in MANAGED_ORDER && name in managed && Breaks(managed[name], first, separator, second)
      modifies this
      ensures !once.Failed? ==> again.Failed? && content.Some?
      ensures old(content).None? ==> once == Created
    {
      ghost var before := if content.Some? then content.value else "";
      once := Write(managed);
      if !once.Failed? {
        BrokenValueIsRefused(before, managed, name, first, separator, second);
      }
      again := Write(managed);
    }

    /** Writing the same values twice: the second write finds nothing to do, exactly when the first left
        no more than the parser accepts. */
    method WriteTwice(managed: map<string, string>) returns (first: Outcome, second: Outcome)
      requires ValuesClean(managed)
      modifies this
      ensures !first.Failed? ==>
                && content.Some?
                && second == (if Utf8Length(content.value) <= MAX_BYTES then Unchanged else Failed(TooLarge))
    {
      ghost var before := if content.Some? then content.value else "";
      first := Write(managed);
      if !first.Failed? {
        MergeIsStable(before, managed);
      }
      second := Write(managed);
    }
  }

  /** What a merge does to the entries: those not managed keep their order and values, and after them come
      exactly the supplied ones, in the fixed order. */
  lemma MergeContents(content: string, managed: map<string, string>)
    requires Merge(content, managed).Ok? && ValuesClean(managed)
    requires Utf8Length(Merge(content, managed).value) <= MAX_BYTES
    ensures var kept, after := Unmanaged(Parse(content).value, MANAGED_ORDER), Parse(Merge(content, managed).value);
            && after == Ok(kept + Supplied(MANAGED_ORDER, managed))
            && Unmanaged(after.value, MANAGED_ORDER) == kept
            && (forall e | e in after.value && e.name in MANAGED_ORDER ::
               e.name in managed && e.value == managed[e.name])
            && (forall name | name in MANAGED_ORDER && name in managed :: Entry(name, managed[name]) in after.value)
  {
    var entries := Parse(content).value;
    MergePrints(content, managed);
    PrintThenParse(MergeEntries(entries, MANAGED_ORDER, managed));
    ManagedNamesAreDistinct();
    MergeSplits(entries, MANAGED_ORDER, managed);
    MergeHolds(entries, MANAGED_ORDER, managed);
  }

  lemma MergeHolds(entries: seq<Entry>, order: seq<string>, managed: map<string, string>)
    requires Distinct(order)
    ensures var merged := MergeEntries(entries, order, managed);
            && (forall e | e in merged && e.name in order :: e.name in managed && e.value == managed[e.name])
            && (forall name | name in order && name in managed :: Entry(name, managed[name]) in merged)
  {
    UnmanagedParts(entries, order);
    SuppliedParts(order, managed);
    forall name | name in order && name in managed
      ensures Entry(name, managed[name]) in MergeEntries(entries, order, managed) {
      assert Entry(name, managed[name]) in Supplied(order, managed);
    }
  }

  // ----- Values that do not stay on their lines -----

  lemma {:induction false} BadLineIsRefused(entries: seq<Entry>, lines: seq<string>, k: nat)
    requires k < |lines| && lines[k] != "" && ParseLine(lines[k]).None?
    ensures ParseLines(entries, lines).Raise?
    decreases |lines|
  {
    if k > 0 {
      assert lines[1..][k - 1] == lines[k];
      if lines[0] == "" {
        BadLineIsRefused(entries, lines[1..], k - 1);
      } else if ParseLine(lines[0]).Some? && !Mentions(entries, ParseLine(lines[0]).value.name) {
        BadLineIsRefused(entries + [ParseLine(lines[0]).value], lines[1..], k - 1);
      }
    }
  }

  /** A value that breaks in two: a separator the value check lets through, and behind it something that is not
      an entry. */
  predicate Breaks(value: string, first: string, separator: char, second: string) {
    && value == first + [separator] + second && Free(first, IsSeparator) && Free(second, IsSeparator)
    && IsSeparator(separator) && separator != '\r' && separator != '\n'
    && second != "" && ParseLine(second).None?
  }

  lemma BrokenLines(e: Entry, first: string, separator: char, second: string)
    requires IsName(e.name) && Breaks(e.value, first, separator, second)
    ensures SplitLines(PrintEntry(e) + "\n") == [e.name + ['='] + first, second]
  {
    var head, text := e.name + ['='] + first, PrintEntry(e) + "\n";
    NameIsFree(e.name);
    assert text == head + [separator] + (second + "\n");
    assert text[..|head|] == head && Free(head, IsSeparator);
    FindIs(text, IsSeparator, |head|);
    assert text[After(text, |head|)..] == second + "\n";
    SplitLinesOne(second);
  }

  /** Wherever such a value is printed, its second part stands on a line of its own. */
  lemma {:induction false} BrokenLineStands(
    entries: seq<Entry>, i: nat, first: string, separator: char, second: string)
    requires i < |entries| && IsName(entries[i].name) && Breaks(entries[i].value, first, separator, second)
    ensures second in SplitLines(PrintAll(entries))
  {
    LinesOfPrinted(entries);
    if i == 0 {
      BrokenLines(entries[0], first, separator, second);
      assert [entries[0].name + ['='] + first, second][1] == second;
    } else {
      BrokenLineStands(entries[1..], i - 1, first, separator, second);
    }
  }

  /** The lines of what is printed are those of the first entry, and those of the others. */
  lemma LinesOfPrinted(entries: seq<Entry>)
    requires entries != []
    ensures SplitLines(PrintAll(entries)) ==
              SplitLines(PrintEntry(entries[0]) + "\n") + SplitLines(PrintAll(entries[1..]))
  {
    SplitLinesConcat(PrintEntry(entries[0]) + "\n", PrintAll(entries[1..]));
  }

  /** Whatever the file held and whatever else is supplied, a managed value that breaks in two makes a merge the
      parser refuses. */
  lemma BrokenValueIsRefused(content: string, managed: map<string, string>, name: string,
                             first: string, separator: char, second: string)
    requires Merge(content, managed).Ok? && name in MANAGED_ORDER && name in managed
    requires Breaks(managed[name], first, separator, second)
    ensures Parse(Merge(content, managed).value).Raise?
  {
    var entries := Parse(content).value;
    var merged := MergeEntries(entries, MANAGED_ORDER, managed);
    ManagedNamesAreDistinct();
    ManagedNamesAreNames();
    MergeHolds(entries, MANAGED_ORDER, managed);
    var i :| 0 <= i < |merged| && merged[i] == Entry(name, managed[name]);
    BrokenLineStands(merged, i, first, separator, second);
    var k :| 0 <= k < |SplitLines(PrintAll(merged))| && SplitLines(PrintAll(merged))[k] == second;
    BadLineIsRefused([], SplitLines(PrintAll(merged)), k);
  }

  /** Two writes of a path with a vertical tab in it, from no file at all: the first creates the file, the second
      cannot read it. */
  method VerticalTabBreaksTheFile() returns (file: EnvironmentFile, once: Outcome, again: Outcome)
    ensures fresh(file) && once == Created && again.Failed?
  {
    var name, value := MANAGED_ORDER[1], "/a\U{0B}b";
    assert value == "/a" + ['\U{0B}'] + "b";
    assert Find("b", IsEquals) == 1;
    file := new EnvironmentFile(None);
    once, again := file.WriteBroken(map[name := value], name, "/a", '\U{0B}', "b");
  }

  /** What a merge wrote reads back as what was merged exactly when no supplied value has a line separator. */
  lemma MergeReadsBack(content: string, managed: map<string, string>)
    requires Merge(content, managed).Ok? && Utf8Length(Merge(content, managed).value) <= MAX_BYTES
    requires forall name | name in managed :: '\0' !in managed[name]
    ensures Parse(Merge(content, managed).value) == Ok(MergeEntries(Parse(content).value, MANAGED_ORDER, managed)) <==>
            forall name | name in MANAGED_ORDER && name in managed :: Free(managed[name], IsSeparator)
  {
    var entries, text := Parse(content).value, Merge(content, managed).value;
    var merged := MergeEntries(entries, MANAGED_ORDER, managed);
    ManagedNamesAreDistinct();
    MergeHolds(entries, MANAGED_ORDER, managed);
    if Parse(text) == Ok(merged) {
      ParseGivesPrintable(text);
      PrintableValuesAreFree(merged, managed);
    }
    if forall name | name in MANAGED_ORDER && name in managed :: Free(managed[name], IsSeparator) {
      FreeValuesReadBack(content, managed);
    }
  }

  lemma PrintableValuesAreFree(merged: seq<Entry>, managed: map<string, string>)
    requires forall i :: 0 <= i < |merged| ==> Printable(merged[i])
    requires forall name | name in MANAGED_ORDER && name in managed :: Entry(name, managed[name]) in merged
    ensures forall name | name in MANAGED_ORDER && name in managed :: Free(managed[name], IsSeparator)
  {
    forall name | name in MANAGED_ORDER && name in managed ensures Free(managed[name], IsSeparator) {
      var i :| 0 <= i < |merged| && merged[i] == Entry(name, managed[name]);
      assert Printable(merged[i]);
    }
  }

  lemma FreeValuesReadBack(content: string, managed: map<string, string>)
    requires Merge(content, managed).Ok? && Utf8Length(Merge(content, managed).value) <= MAX_BYTES
    requires forall name | name in managed :: '\0' !in managed[name]
    requires forall name | name in MANAGED_ORDER && name in managed :: Free(managed[name], IsSeparator)
    ensures Parse(Merge(content, managed).value) == Ok(MergeEntries(Parse(content).value, MANAGED_ORDER, managed))
  {
    var used := map name | name in managed && name in MANAGED_ORDER :: managed[name];
    SuppliedOnly(MANAGED_ORDER, managed, used);
    MergePrints(content, used);
    PrintThenParse(MergeEntries(Parse(content).value, MANAGED_ORDER, managed));
  }

  /** Only values of listed names are printed. */
  lemma {:induction false} SuppliedOnly(order: seq<string>, managed: map<string, string>, used: map<string, string>)
    requires forall name | name in order ::
             (name in used <==> name in managed) && (name in used ==> used[name] == managed[name])
    ensures Supplied(order, used) == Supplied(order, managed)
  {
    if order != [] {
      assert order[0] in order;
      SuppliedOnly(order[1..], managed, used);
    }
  }
}
