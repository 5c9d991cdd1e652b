/**
 Moving a rule set between boxes: `ExportText` renders the live rules as a message,
 `ParseBatch` extracts the `/addrule` lines of a pasted message, and the gate upserts
 them into the rules table one by one.
 */
module RegisterRules {
  import opened Common
  import opened Text
  import opened RuleDialect

  const MAX_LINES := 50

  // ------------------------------------------------------------------ export

  function Header(live: nat, replayable: nat): string {
    "Rules export (" + Decimal(live) + " live, " + Decimal(replayable) + " replayable as /addrule):"
  }

  const NO_RULES := "No rules to export."
  const SHIPPED := "Shipped with the binary (not chat-addable):"

  function ReferenceLine(d: RuleDef): string {
    d.name + " \U{2192} " + d.pattern + " \U{2192} " + d.tool
  }

  function ReplayLines(defs: seq<RuleDef>): seq<string> {
    if defs == [] then []
    else (if ChatAddable(defs[0].tool) then ["/addrule " + ReplayLine(defs[0])] else []) + ReplayLines(defs[1..])
  }

  function ReferenceLines(defs: seq<RuleDef>): seq<string> {
    if defs == [] then []
    else (if ChatAddable(defs[0].tool) then [] else [ReferenceLine(defs[0])]) + ReferenceLines(defs[1..])
  }

  /** Every line followed by a newline. */
  function Lines(lines: seq<string>): string {
    if lines == [] then "" else lines[0] + "\n" + Lines(lines[1..])
  }

  function TrimNewlines(s: string): string {
    if s != "" && s[|s| - 1] == '\n' then TrimNewlines(s[..|s| - 1]) else s
  }

  function ExportText(defs: seq<RuleDef>): string {
    if defs == [] then NO_RULES
    else
      var replay, refs := ReplayLines(defs), ReferenceLines(defs);
      TrimNewlines(Header(|defs|, |replay|) + "\n" + Lines(replay)
                   + (if refs == [] then "" else "\n" + SHIPPED + "\n" + Lines(refs)))
  }

  lemma {:induction false} LinesConcat(a: seq<string>, b: seq<string>)
    ensures Lines(a + b) == Lines(a) + Lines(b)
  {
    if a == [] {
      assert a + b == b;
    } else {
      assert (a + b)[1..] == a[1..] + b;
      LinesConcat(a[1..], b);
    }
  }

  lemma LinesOne(l: string)
    ensures Lines([l]) == l + "\n" && Lines([]) == ""
  {
    assert [l][1..] == [];
  }

  lemma {:induction false} SortLine(defs: seq<RuleDef>, i: nat)
    requires i < |defs|
    ensures ReplayLines(defs[..i + 1]) ==
            ReplayLines(defs[..i]) + (if ChatAddable(defs[i].tool) then ["/addrule " + ReplayLine(defs[i])] else [])
    ensures ReferenceLines(defs[..i + 1]) ==
            ReferenceLines(defs[..i]) + (if ChatAddable(defs[i].tool) then [] else [ReferenceLine(defs[i])])
  {
    hide ReplayLine, ReferenceLine, ChatAddable;
    if i == 0 {
      assert defs[..1] == [defs[0]] && defs[..1][1..] == [] && defs[..0] == [];
    } else {
      assert defs[..i + 1][1..] == defs[1..][..i] && defs[..i][1..] == defs[1..][..i - 1];
      SortLine(defs[1..], i - 1);
    }
  }

  method AppendLines(head: string, lines: seq<string>) returns (text: string)
    ensures text == head + Lines(lines)
  {
    text := head;
    assert head + Lines(lines[..0]) == head;
    for i := 0 to |lines|
      invariant text == head + Lines(lines[..i])
    {
      text := text + (lines[i] + "\n");
      LinesConcat(lines[..i], [lines[i]]);
      assert lines[..i + 1] == lines[..i] + [lines[i]];
      assert Lines([lines[i]]) == lines[i] + "\n";
    }
    assert lines[..|lines|] == lines;
  }

  lemma TextShape(head: string, replay: seq<string>, refs: seq<string>)
    ensures head + "\n" + Lines(replay) + "" == head + "\n" + Lines(replay)
    ensures head + "\n" + Lines(replay) + ("\n" + SHIPPED + "\n") + Lines(refs)
            == head + "\n" + Lines(replay) + ("\n" + SHIPPED + "\n" + Lines(refs))
  {
  }

  /** The export as the dispatcher builds it. */
  method RenderExport(defs: seq<RuleDef>) returns (text: string)
    ensures text == ExportText(defs)
  {
    hide ReplayLine, ReferenceLine, Header, TrimNewlines;
    if |defs| == 0 {
      return NO_RULES;
    }
    var replay: seq<string>, refs: seq<string> := [], [];
    for i := 0 to |defs|
      invariant replay == ReplayLines(defs[..i]) && refs == ReferenceLines(defs[..i])
    {
      SortLine(defs, i);
      if ChatAddable(defs[i].tool) {
        replay := replay + ["/addrule " + ReplayLine(defs[i])];
      } else {
        refs := refs + [ReferenceLine(defs[i])];
      }
    }
    assert defs[..|defs|] == defs;
    text := Header(|defs|, |replay|) + "\n";
    text := AppendLines(text, replay);
    if |refs| > 0 {
      text := text + ("\n" + SHIPPED + "\n");
      text := AppendLines(text, refs);
    }
    TextShape(Header(|defs|, |replay|), replay, refs);
    text := TrimNewlines(text);
  }

  // ------------------------------------------------------------------ import

  datatype BatchError = NoLines | TooMany | BadLine(line: string, error: ParseError)

  datatype BatchResult = Batch(specs: seq<RuleSpec>) | Rejected(error: BatchError)

  function ReadLines(acc: seq<RuleSpec>, lines: seq<string>, checks: Checks): BatchResult
    decreases |lines|
  {
    if lines == [] then Batch(acc)
    else
      var line := Trim(lines[0]);
      if !HasPrefix(line, "/addrule ") then ReadLines(acc, lines[1..], checks)
      else if |acc| >= MAX_LINES then Rejected(TooMany)
      else
        var r := ParseAddRule(line, checks);
        if r.Err? then Rejected(BadLine(line, r.error)) else ReadLines(acc + [r.value], lines[1..], checks)
  }

  function ParseRegisterRules(text: string, checks: Checks): BatchResult {
    var r := ReadLines([], Split(text, '\n'), checks);
    if r == Batch([]) then Rejected(NoLines) else r
  }

  method ParseBatch(text: string, checks: Checks) returns (r: BatchResult)
    ensures r == ParseRegisterRules(text, checks)
  {
    var specs: seq<RuleSpec> := [];
    var lines := Split(text, '\n');
    for i := 0 to |lines|
      invariant ReadLines([], lines, checks) == ReadLines(specs, lines[i..], checks)
    {
      var line := Trim(lines[i]);
      if !HasPrefix(line, "/addrule ") {
        continue;
      }
      if |specs| >= MAX_LINES {
        return Rejected(TooMany);
      }
      var spec := ParseAddRule(line, checks);
      if spec.Err? {
        return Rejected(BadLine(line, spec.error));
      }
      specs := specs + [spec.value];
    }
    assert lines[|lines|..] == [];
    if |specs| == 0 {
      return Rejected(NoLines);
    }
    r := Batch(specs);
  }

  // ------------------------------------------------------------------ export then import

  /** A rule that prints on one line and, when replayable, reads back. */
  predicate Exportable(d: RuleDef, checks: Checks) {
    && NameOk(d.name)
    && '\n' !in d.name && '\n' !in d.pattern && '\n' !in d.tool && '\n' !in d.args
    && (ChatAddable(d.tool) ==> CanonicalDef(d, checks))
  }

  /** The rules an export hands over: the chat-addable ones, in order. */
  function Replayable(defs: seq<RuleDef>): seq<RuleSpec> {
    if defs == [] then []
    else
      var d := defs[0];
      (if ChatAddable(d.tool) then [RuleSpec(d.name, d.pattern, d.tool, NormalArgs(d.args))] else [])
      + Replayable(defs[1..])
  }

  lemma {:induction false} DecimalOneLine(n: nat)
    ensures '\n' !in Decimal(n)
  {
    assert '0' <= '0' + (n % 10) as char <= '9';
    if n >= 10 {
      DecimalOneLine(n / 10);
    }
  }

  lemma {:induction false} LinesJoin(first: string, rest: seq<string>)
    ensures Lines([first] + rest) == first + Suffixes(rest, "\n") + "\n"
    decreases |rest|
  {
    LinesOne(first);
    LinesConcat([first], rest);
    if rest == [] {
      assert first + "" == first;
    } else {
      assert [rest[0]] + rest[1..] == rest;
      LinesJoin(rest[0], rest[1..]);
      hide Lines;
      var tail := Suffixes(rest[1..], "\n");
      assert Suffixes(rest, "\n") == "\n" + rest[0] + tail;
      hide Suffixes;
      assert first + "\n" + (rest[0] + tail + "\n") == first + ("\n" + rest[0] + tail) + "\n";
    }
  }

  /** Lines written one per row and stripped at the end are the rows of the text. */
  lemma RowsOfLines(first: string, rest: seq<string>)
    requires '\n' !in first && first != "" && forall l :: l in rest ==> '\n' !in l
    requires rest != [] ==> rest[|rest| - 1] != ""
    ensures Split(TrimNewlines(Lines([first] + rest)), '\n') == [first] + rest
  {
    LinesJoin(first, rest);
    var s := first + Suffixes(rest, "\n");
    EndsOnText(first, rest);
    TrimOneNewline(s);
    hide Lines, Suffixes, TrimNewlines, Split;
    SplitOfSuffixes(first, rest, '\n');
  }

  lemma TrimOneNewline(s: string)
    requires s != "" && s[|s| - 1] != '\n'
    ensures TrimNewlines(s + "\n") == s
  {
    assert (s + "\n")[..|s + "\n"| - 1] == s;
  }

  lemma EndsOnText(first: string, rest: seq<string>)
    requires '\n' !in first && first != "" && forall l :: l in rest ==> '\n' !in l
    requires rest != [] ==> rest[|rest| - 1] != ""
    ensures var s := first + Suffixes(rest, "\n"); s != "" && s[|s| - 1] != '\n'
  {
    if rest != [] {
      var last := rest[|rest| - 1];
      SuffixesLast(rest, "\n");
      assert last in rest && last[|last| - 1] in last;
    } else {
      assert first + Suffixes(rest, "\n") == first && first[|first| - 1] in first;
    }
    hide Suffixes;
  }

  /** Rows of an export: header, replay lines, then the reference list. */
  function ExportRows(defs: seq<RuleDef>): seq<string> {
    var refs := ReferenceLines(defs);
    ReplayLines(defs) + (if refs == [] then [] else ["", SHIPPED] + refs)
  }

  predicate OneLine(l: string) {
    '\n' !in l && l != ""
  }

  lemma ReplayOneLine(d: RuleDef, checks: Checks)
    requires Exportable(d, checks)
    ensures OneLine("/addrule " + ReplayLine(d))
  {
    TrimIsTrimmed(d.args);
    assert '\n' !in NormalArgs(d.args);
    assert '\n' !in ReplayLine(d);
    assert '\n' !in "/addrule ";
  }

  lemma ReferenceOneLine(d: RuleDef, checks: Checks)
    requires Exportable(d, checks)
    ensures OneLine(ReferenceLine(d)) && 'a' <= ReferenceLine(d)[0] <= 'z'
  {
    assert ReferenceLine(d)[0] == d.name[0];
  }

  lemma {:induction false} RowsOneLine(defs: seq<RuleDef>, checks: Checks)
    requires forall d :: d in defs ==> Exportable(d, checks)
    ensures forall l :: l in ReplayLines(defs) ==> OneLine(l)
    ensures forall l :: l in ReferenceLines(defs) ==> OneLine(l) && 'a' <= l[0] <= 'z'
  {
    hide ReplayLine, ReferenceLine, Exportable;
    if defs != [] {
      RowsOneLine(defs[1..], checks);
      ReplayOneLine(defs[0], checks);
      ReferenceOneLine(defs[0], checks);
    }
  }

  lemma ExportSplits(defs: seq<RuleDef>, checks: Checks)
    requires defs != [] && forall d :: d in defs ==> Exportable(d, checks)
    ensures Split(ExportText(defs), '\n') == [Header(|defs|, |ReplayLines(defs)|)] + ExportRows(defs)
  {
    hide Exportable, OneLine, Header, Split, TrimNewlines;
    var replay, refs := ReplayLines(defs), ReferenceLines(defs);
    var head := Header(|defs|, |replay|);
    ExportRowsOneLine(defs, checks);
    HeaderOneLine(|defs|, |replay|);
    ExportShape(head, replay, refs, SHIPPED);
    OneLines(head, ExportRows(defs));
    RowsOfLines(head, ExportRows(defs));
  }

  lemma OneLines(head: string, rows: seq<string>)
    requires OneLine(head) && forall l :: l in rows ==> OneLine(l) || l == ""
    ensures head != "" && '\n' !in head && forall l :: l in rows ==> '\n' !in l
    ensures rows != [] && OneLine(rows[|rows| - 1]) ==> rows[|rows| - 1] != ""
  {
  }

  lemma ExportRowsOneLine(defs: seq<RuleDef>, checks: Checks)
    requires forall d :: d in defs ==> Exportable(d, checks)
    ensures forall l :: l in ExportRows(defs) ==> OneLine(l) || l == ""
    ensures var rows := ExportRows(defs); rows != [] ==> OneLine(rows[|rows| - 1])
  {
    hide Exportable, OneLine;
    RowsOneLine(defs, checks);
    FixedRows();
    RowsOf(ReplayLines(defs), ReferenceLines(defs), SHIPPED);
  }

  lemma FixedRows()
    ensures OneLine(SHIPPED) && SHIPPED[0] == 'S'
    ensures OneLine(NO_RULES) && NO_RULES[0] == 'N'
  {
  }

  lemma RowsOf(replay: seq<string>, refs: seq<string>, shipped: string)
    requires OneLine(shipped)
    requires (forall l :: l in replay ==> OneLine(l)) && forall l :: l in refs ==> OneLine(l)
    ensures var rows := replay + (if refs == [] then [] else ["", shipped] + refs);
            && (forall l :: l in rows ==> OneLine(l) || l == "")
            && (rows != [] ==> OneLine(rows[|rows| - 1]))
  {
  }

  lemma TailLines(refs: seq<string>, shipped: string)
    ensures Lines(["", shipped] + refs) == "\n" + shipped + "\n" + Lines(refs)
  {
    LinesConcat(["", shipped], refs);
    LinesConcat([""], [shipped]);
    LinesOne("");
    LinesOne(shipped);
    assert ["", shipped] == [""] + [shipped];
    hide Lines;
    Regroup("\n", shipped, "\n");
  }

  lemma ExportShape(head: string, replay: seq<string>, refs: seq<string>, shipped: string)
    ensures var rows := replay + (if refs == [] then [] else ["", shipped] + refs);
            Lines([head] + rows) == head + "\n" + Lines(replay)
                                    + (if refs == [] then "" else "\n" + shipped + "\n" + Lines(refs))
  {
    var extra := if refs == [] then [] else ["", shipped] + refs;
    LinesConcat([head], replay + extra);
    LinesConcat(replay, extra);
    LinesOne(head);
    TailLines(refs, shipped);
    hide Lines;
    Regroup(head + "\n", Lines(replay), Lines(extra));
  }

  lemma HeaderOneLine(live: nat, replayable: nat)
    ensures OneLine(Header(live, replayable)) && Header(live, replayable)[0] == 'R'
  {
    DecimalOneLine(live);
    DecimalOneLine(replayable);
  }

  lemma {:induction false} ReadSkips(acc: seq<RuleSpec>, rows: seq<string>, checks: Checks)
    requires forall l :: l in rows ==> !HasPrefix(Trim(l), "/addrule ")
    ensures ReadLines(acc, rows, checks) == Batch(acc)
    decreases |rows|
  {
    if rows != [] {
      ReadSkips(acc, rows[1..], checks);
    }
  }

  lemma ReadOneReplay(d: RuleDef, checks: Checks)
    requires CanonicalDef(d, checks)
    ensures var line := "/addrule " + ReplayLine(d);
            && Trim(line) == line && HasPrefix(line, "/addrule ")
            && ParseAddRule(line, checks) == Ok(RuleSpec(d.name, d.pattern, d.tool, NormalArgs(d.args)))
  {
    LineTrimmed(d);
    PrintThenParse(d, checks);
    CommandTrimmed(ReplayLine(d));
  }

  lemma CommandTrimmed(body: string)
    requires body != "" && Trimmed(body)
    ensures Trim("/addrule " + body) == "/addrule " + body && HasPrefix("/addrule " + body, "/addrule ")
  {
    var line := "/addrule " + body;
    assert line[|line| - 1] == body[|body| - 1] && line[0] == '/';
    TrimIsTrimmed(line);
    assert line[..9] == "/addrule ";
  }

  /** Replay rows read back one by one, up to the cap. */
  lemma {:induction false} ReadReplays(acc: seq<RuleSpec>, defs: seq<RuleDef>, rest: seq<string>, checks: Checks)
    requires forall d :: d in defs ==> Exportable(d, checks)
    requires |acc| <= MAX_LINES
    ensures ReadLines(acc, ReplayLines(defs) + rest, checks) ==
            if |acc| + |Replayable(defs)| > MAX_LINES then Rejected(TooMany)
            else ReadLines(acc + Replayable(defs), rest, checks)
    decreases |defs|
  {
    hide ReplayLine, HasPrefix, Trim, NormalArgs, ParseAddRule, CanonicalDef, ChatAddable;
    if defs == [] {
      assert acc + [] == acc && [] + rest == rest;
    } else {
      var d := defs[0];
      assert Exportable(d, checks);
      var more := ReplayLines(defs[1..]) + rest;
      if ChatAddable(d.tool) {
        var line := "/addrule " + ReplayLine(d);
        assert ReplayLines(defs) + rest == [line] + more;
        ReadOneReplay(d, checks);
        if |acc| < MAX_LINES {
          var spec := RuleSpec(d.name, d.pattern, d.tool, NormalArgs(d.args));
          ReadReplays(acc + [spec], defs[1..], rest, checks);
          assert acc + Replayable(defs) == acc + [spec] + Replayable(defs[1..]);
        }
      } else {
        assert ReplayLines(defs) == ReplayLines(defs[1..]) && Replayable(defs) == Replayable(defs[1..]);
        ReadReplays(acc, defs[1..], rest, checks);
      }
    }
  }

  /**
   Pasting a whole export: the header and the reference list are skipped and exactly the
   replayable rules come back, in order. With none, or more than fifty, the paste is refused.
   */
  lemma ExportThenImport(defs: seq<RuleDef>, checks: Checks)
    requires forall d :: d in defs ==> Exportable(d, checks)
    ensures ParseRegisterRules(ExportText(defs), checks) ==
            if |Replayable(defs)| == 0 then Rejected(NoLines)
            else if |Replayable(defs)| > MAX_LINES then Rejected(TooMany)
            else Batch(Replayable(defs))
  {
    hide Exportable, Header, Trim, HasPrefix, ReplayLines, ReferenceLines;
    if defs == [] {
      NothingToImport(checks);
    } else {
      var refs := ReferenceLines(defs);
      var tail := if refs == [] then [] else ["", SHIPPED] + refs;
      var head := Header(|defs|, |ReplayLines(defs)|);
      ExportSplits(defs, checks);
      HeaderOneLine(|defs|, |ReplayLines(defs)|);
      NotReplay(head, 'R');
      assert ([head] + ExportRows(defs))[1..] == ReplayLines(defs) + tail;
      ReadReplays([], defs, tail, checks);
      assert [] + Replayable(defs) == Replayable(defs);
      TailSkipped(defs, checks);
      ReadSkips(Replayable(defs), tail, checks);
    }
  }

  lemma NothingToImport(checks: Checks)
    ensures ParseRegisterRules(ExportText([]), checks) == Rejected(NoLines)
  {
    hide Split, Trim, HasPrefix;
    FixedRows();
    SplitHasNoSep(NO_RULES, '\n');
    NotReplay(NO_RULES, 'N');
    ReadSkips([], [NO_RULES], checks);
  }

  lemma NotReplay(line: string, c: char)
    requires line != "" && line[0] == c && c != '/' && !IsSpace(c)
    ensures !HasPrefix(Trim(line), "/addrule ")
  {
    TrimRightCut(line);
    assert TrimRight(line) != "" ==> TrimRight(line)[0] == c;
    SlashFirst(TrimRight(line));
  }

  lemma SlashFirst(t: string)
    ensures HasPrefix(t, "/addrule ") ==> t != "" && t[0] == '/'
  {
    assert |t| >= 9 ==> t[..9][0] == t[0];
  }

  lemma TailSkipped(defs: seq<RuleDef>, checks: Checks)
    requires forall d :: d in defs ==> Exportable(d, checks)
    ensures forall l :: l in ["", SHIPPED] + ReferenceLines(defs) ==> !HasPrefix(Trim(l), "/addrule ")
  {
    RowsOneLine(defs, checks);
    FixedRows();
    hide ReferenceLines, Trim, HasPrefix, Exportable;
    forall l | l in ["", SHIPPED] + ReferenceLines(defs) ensures !HasPrefix(Trim(l), "/addrule ") {
      if l != "" {
        FixedRows();
        NotReplay(l, l[0]);
      }
    }
  }

  // ------------------------------------------------------------------ the upsert

  datatype RuleRow = RuleRow(pattern: string, tool: string, args: string,
                             origin: string, state: string, enabled: bool, created: string)

  type RuleTable = map<string, RuleRow>

  function StoredArgs(s: RuleSpec): string {
    if s.args == "" then "{}" else s.args
  }

  /** INSERT .. ON CONFLICT(name) DO UPDATE: origin, state and creation time of an old row survive. */
  function Upsert(t: RuleTable, s: RuleSpec, now: string): RuleTable {
    t[s.name := if s.name in t
                then t[s.name].(pattern := s.pattern, tool := s.tool, args := StoredArgs(s), enabled := true)
                else RuleRow(s.pattern, s.tool, StoredArgs(s), "manual", "active", true, now)]
  }

  /** How a run of the gate ends. */
  datatype End = Registered | NotAddable | InsertFailed | ReloadFailed | SwapRejected

  datatype Applied = Applied(rows: RuleTable, end: End)

  /**
   What the store and the router do to a run: the insert at position `insert` fails, `landed` says
   whether its row is written all the same, then the rules are read back and the router swapped.
   */
  datatype Faults = Faults(insert: nat, landed: bool, reload: bool, swap: bool)

  const NoFaults := Faults(MAX_LINES, false, true, true)

  /** The rows are written one by one; a tool outside the allowlist or a failing insert stops the run. */
  function ApplyBatch(t: RuleTable, specs: seq<RuleSpec>, now: string, f: Faults): Applied
    decreases |specs|
  {
    if specs == [] then Applied(t, if !f.reload then ReloadFailed else if !f.swap then SwapRejected else Registered)
    else if !ChatAddable(specs[0].tool) then Applied(t, NotAddable)
    else if f.insert == 0 then Applied(if f.landed then Upsert(t, specs[0], now) else t, InsertFailed)
    else ApplyBatch(Upsert(t, specs[0], now), specs[1..], now, f.(insert := f.insert - 1))
  }

  class Gate {
    var rows: RuleTable

    constructor (rows: RuleTable)
      ensures this.rows == rows
    {
      this.rows := rows;
    }

    /** The insert statement. */
    method Insert(s: RuleSpec, now: string)
      modifies this
      ensures rows == Upsert(old(rows), s, now)
      ensures rows.Keys == old(rows).Keys + {s.name} && forall n :: n in old(rows) && n != s.name ==> rows[n] == old(rows)[n]
      ensures rows[s.name].args == if s.args == "" then "{}" else s.args
      ensures rows[s.name].pattern == s.pattern && rows[s.name].tool == s.tool && rows[s.name].enabled
    {
      var args := if s.args == "" then "{}" else s.args;
      if s.name in rows {
        rows := rows[s.name := rows[s.name].(pattern := s.pattern, tool := s.tool, args := args, enabled := true)];
      } else {
        rows := rows[s.name := RuleRow(s.pattern, s.tool, args, "manual", "active", true, now)];
      }
    }

    method Run(specs: seq<RuleSpec>, now: string, f: Faults) returns (end: End)
      modifies this
      ensures Applied(rows, end) == ApplyBatch(old(rows), specs, now, f)
    {
      hide Upsert, ChatAddable;
      var left := f.insert;
      for i := 0 to |specs|
        invariant ApplyBatch(old(rows), specs, now, f) == ApplyBatch(rows, specs[i..], now, f.(insert := left))
      {
        var s := specs[i];
        if !ChatAddable(s.tool) {
          return NotAddable;
        }
        if left == 0 {
          if f.landed {
            Insert(s, now);
          }
          return InsertFailed;
        }
        Insert(s, now);
        left := left - 1;
      }
      assert specs[|specs|..] == [];
      if !f.reload {
        return ReloadFailed;
      }
      if !f.swap {
        return SwapRejected;
      }
      end := Registered;
    }
  }

  /** The part of a batch that is written. */
  function Written(specs: seq<RuleSpec>, f: Faults): seq<RuleSpec>
    decreases |specs|
  {
    if specs == [] || !ChatAddable(specs[0].tool) then []
    else if f.insert == 0 then (if f.landed then [specs[0]] else [])
    else [specs[0]] + Written(specs[1..], f.(insert := f.insert - 1))
  }

  predicate Names(specs: seq<RuleSpec>, n: string) {
    exists s :: s in specs && s.name == n
  }

  /** The last spec of that name wins. */
  function Last(specs: seq<RuleSpec>, n: string): RuleSpec
    requires Names(specs, n)
  {
    var s := specs[|specs| - 1];
    if s.name == n then s
    else
      assert forall x :: x in specs && x != s ==> x in specs[..|specs| - 1];
      Last(specs[..|specs| - 1], n)
  }

  /** The row a name ends up with. */
  function FinalRow(t: RuleTable, specs: seq<RuleSpec>, n: string, now: string): RuleRow
    requires Names(specs, n)
  {
    var s := Last(specs, n);
    if n in t then t[n].(pattern := s.pattern, tool := s.tool, args := (if s.args == "" then "{}" else s.args), enabled := true)
    else RuleRow(s.pattern, s.tool, (if s.args == "" then "{}" else s.args), "manual", "active", true, now)
  }

  lemma {:induction false} LastInFront(s: RuleSpec, specs: seq<RuleSpec>, n: string)
    requires Names([s] + specs, n)
    ensures Last([s] + specs, n) == if Names(specs, n) then Last(specs, n) else s
  {
    var all := [s] + specs;
    if specs == [] {
      assert all == [s];
    } else {
      var x := specs[|specs| - 1];
      assert all[|all| - 1] == x;
      assert all[..|all| - 1] == [s] + specs[..|specs| - 1];
      if x.name == n {
        assert Names(specs, n);
      } else {
        assert forall y :: y in all && y != x ==> y in all[..|all| - 1];
        assert Names(specs, n) <==> Names(specs[..|specs| - 1], n) by {
          assert forall y :: y in specs && y != x ==> y in specs[..|specs| - 1];
        }
        LastInFront(s, specs[..|specs| - 1], n);
      }
    }
  }

  /** Writing one more rule in front of others. */
  lemma FrontWritten(t: RuleTable, s: RuleSpec, w: seq<RuleSpec>, now: string, rows: RuleTable)
    requires WrittenTo(Upsert(t, s, now), w, now, rows)
    ensures WrittenTo(t, [s] + w, now, rows)
  {
    var all := [s] + w;
    forall n ensures Names(all, n) <==> n == s.name || Names(w, n) {
      assert s in all;
      assert forall x :: x in w ==> x in all;
    }
    forall n | n in rows ensures rows[n] == if Names(all, n) then FinalRow(t, all, n, now) else t[n] {
      if Names(all, n) {
        LastInFront(s, w, n);
      }
    }
  }

  /** Each written name has its last spec, every other row is untouched. */
  ghost predicate WrittenTo(t: RuleTable, w: seq<RuleSpec>, now: string, rows: RuleTable) {
    && (forall n :: n in rows <==> n in t || Names(w, n))
    && (forall n :: n in rows ==> rows[n] == if Names(w, n) then FinalRow(t, w, n, now) else t[n])
  }

  /** Closed form of a batch, faults included. */
  lemma {:induction false} BatchClosedForm(t: RuleTable, specs: seq<RuleSpec>, now: string, f: Faults)
    ensures WrittenTo(t, Written(specs, f), now, ApplyBatch(t, specs, now, f).rows)
    decreases |specs|
  {
    if specs != [] && ChatAddable(specs[0].tool) {
      var s, t' := specs[0], Upsert(t, specs[0], now);
      hide Upsert, ChatAddable, FinalRow;
      if f.insert > 0 {
        var f' := f.(insert := f.insert - 1);
        BatchClosedForm(t', specs[1..], now, f');
        hide WrittenTo;
        FrontWritten(t, s, Written(specs[1..], f'), now, ApplyBatch(t', specs[1..], now, f').rows);
      } else if f.landed {
        FrontWritten(t, s, [], now, t');
        assert [s] + [] == [s];
      }
    }
  }

  /** Replaying a batch converges: a second run of the same batch changes nothing, whenever it runs. */
  lemma ReplayTwice(t: RuleTable, specs: seq<RuleSpec>, now: string, later: string, f: Faults)
    ensures ApplyBatch(ApplyBatch(t, specs, now, f).rows, specs, later, f).rows == ApplyBatch(t, specs, now, f).rows
  {
    var once := ApplyBatch(t, specs, now, f).rows;
    var twice := ApplyBatch(once, specs, later, f).rows;
    BatchClosedForm(t, specs, now, f);
    BatchClosedForm(once, specs, later, f);
    hide ApplyBatch, Written;
    assert once.Keys == twice.Keys;
    forall n | n in once ensures once[n] == twice[n] {
    }
    assert once == twice;
  }

  /** A failed run leaves the table alone. */
  ghost predicate AllOrNothing(specs: seq<RuleSpec>, f: Faults) {
    forall t: RuleTable, now: string ::
      ApplyBatch(t, specs, now, f).end != Registered ==> ApplyBatch(t, specs, now, f).rows == t
  }

  /** Everything is addable and stored, and the new rules go live. */
  predicate Succeeds(specs: seq<RuleSpec>, f: Faults) {
    (forall s :: s in specs ==> ChatAddable(s.tool)) && f.insert >= |specs| && f.reload && f.swap
  }

  /** The run ends before it has written anything. */
  predicate StopsAtOnce(specs: seq<RuleSpec>, f: Faults) {
    specs == [] || !ChatAddable(specs[0].tool) || (f.insert == 0 && !f.landed)
  }

  lemma {:induction false} RegisteredIff(t: RuleTable, specs: seq<RuleSpec>, now: string, f: Faults)
    ensures ApplyBatch(t, specs, now, f).end == Registered <==> Succeeds(specs, f)
    decreases |specs|
  {
    if specs != [] {
      assert specs == [specs[0]] + specs[1..];
      if ChatAddable(specs[0].tool) && f.insert > 0 {
        RegisteredIff(Upsert(t, specs[0], now), specs[1..], now, f.(insert := f.insert - 1));
      }
    }
  }

  /**
   The gate promises one atomic batch, but writes row by row and goes live last. A run is all or
   nothing exactly when it succeeds or stops before its first write: a later tool outside the
   allowlist, a later failing insert, a failing reload and a rejected swap leave rows behind.
   */
  lemma AtomicIff(specs: seq<RuleSpec>, f: Faults)
    ensures AllOrNothing(specs, f) <==> Succeeds(specs, f) || StopsAtOnce(specs, f)
  {
    forall t: RuleTable, now: string
      ensures ApplyBatch(t, specs, now, f).end == Registered <==> Succeeds(specs, f)
      ensures StopsAtOnce(specs, f) ==> ApplyBatch(t, specs, now, f).rows == t
    {
      RegisteredIff(t, specs, now, f);
    }
    if !Succeeds(specs, f) && !StopsAtOnce(specs, f) {
      var none: RuleTable := map[];
      BatchClosedForm(none, specs, "", f);
      var w := Written(specs, f);
      assert w[0] == specs[0];
      hide ApplyBatch, Written, Succeeds, StopsAtOnce, FinalRow;
      assert specs[0] in w && Names(w, specs[0].name);
      assert specs[0].name in ApplyBatch(none, specs, "", f).rows;
    }
  }

  function NewRow(s: RuleSpec, now: string): RuleRow {
    RuleRow(s.pattern, s.tool, (if s.args == "" then "{}" else s.args), "manual", "active", true, now)
  }

  /** Two lines, the second with a tool outside the allowlist: the first rule is already in the table. */
  lemma HalfImported(a: RuleSpec, b: RuleSpec, now: string)
    requires ChatAddable(a.tool) && !ChatAddable(b.tool)
    ensures ApplyBatch(map[], [a, b], now, NoFaults) == Applied(map[a.name := NewRow(a, now)], NotAddable)
  {
    assert [a, b][1..] == [b];
    var f := NoFaults.(insert := MAX_LINES - 1);
    assert ApplyBatch(Upsert(map[], a, now), [b], now, f) == Applied(Upsert(map[], a, now), NotAddable);
  }

  /** One good line and a router that rejects the swap: the run fails and the row stays. */
  lemma SwapLeavesRows(a: RuleSpec, now: string)
    requires ChatAddable(a.tool)
    ensures ApplyBatch(map[], [a], now, NoFaults.(swap := false)) == Applied(map[a.name := NewRow(a, now)], SwapRejected)
  {
    assert [a][1..] == [];
    var f := NoFaults.(swap := false, insert := MAX_LINES - 1);
    assert ApplyBatch(Upsert(map[], a, now), [], now, f) == Applied(Upsert(map[], a, now), SwapRejected);
  }

  /** Why a run ends as it does: the first tool outside the allowlist or the failing insert, whichever comes first. */
  lemma {:induction false} EndMeans(t: RuleTable, specs: seq<RuleSpec>, now: string, f: Faults)
    ensures var end := ApplyBatch(t, specs, now, f).end;
            var addable := forall i :: 0 <= i < |specs| ==> ChatAddable(specs[i].tool);
            && (end == NotAddable <==> exists i :: 0 <= i < |specs| && i <= f.insert && !ChatAddable(specs[i].tool))
            && (end == InsertFailed <==>
                f.insert < |specs| && forall i :: 0 <= i <= f.insert ==> ChatAddable(specs[i].tool))
            && (end == ReloadFailed <==> addable && f.insert >= |specs| && !f.reload)
            && (end == SwapRejected <==> addable && f.insert >= |specs| && f.reload && !f.swap)
    decreases |specs|
  {
    if specs != [] && ChatAddable(specs[0].tool) && f.insert > 0 {
      var f' := f.(insert := f.insert - 1);
      EndMeans(Upsert(t, specs[0], now), specs[1..], now, f');
      hide Upsert, ChatAddable;
      var end := ApplyBatch(Upsert(t, specs[0], now), specs[1..], now, f').end;
      assert ApplyBatch(t, specs, now, f).end == end;
      hide ApplyBatch;
      assert forall i :: 0 <= i < |specs[1..]| ==> specs[1..][i] == specs[i + 1];
      assert forall i :: 0 < i < |specs| ==> specs[1..][i - 1] == specs[i];
    }
  }

  // ------------------------------------------------------------------ what a pasted message comes to

  /** The lines of a message that ask for a rule. */
  function AddLines(lines: seq<string>): seq<string> {
    if lines == [] then []
    else (if HasPrefix(Trim(lines[0]), "/addrule ") then [Trim(lines[0])] else []) + AddLines(lines[1..])
  }

  predicate Reads(line: string, checks: Checks) {
    ParseAddRule(line, checks).Ok?
  }

  /** The first `n` of the lines read. */
  predicate AllRead(lines: seq<string>, n: nat, checks: Checks) {
    forall i :: 0 <= i < n && i < |lines| ==> Reads(lines[i], checks)
  }

  lemma AllReadFront(line: string, rest: seq<string>, n: nat, checks: Checks)
    requires n > 0
    ensures AllRead([line] + rest, n, checks) <==> Reads(line, checks) && AllRead(rest, n - 1, checks)
  {
    var all := [line] + rest;
    hide Reads;
    if AllRead(all, n, checks) {
      assert Reads(all[0], checks);
      forall i | 0 <= i < n - 1 && i < |rest| ensures Reads(rest[i], checks) {
        assert all[i + 1] == rest[i];
      }
    }
    if Reads(line, checks) && AllRead(rest, n - 1, checks) {
      forall i | 0 <= i < n && i < |all| ensures Reads(all[i], checks) {
        assert i > 0 ==> all[i] == rest[i - 1];
      }
    }
  }

  /** The batch is exactly what the lines read, behind what was read before. */
  predicate ReadInto(acc: seq<RuleSpec>, adds: seq<string>, specs: seq<RuleSpec>, checks: Checks) {
    |specs| == |acc| + |adds| && specs[..|acc|] == acc
    && forall i :: 0 <= i < |adds| ==> Ok(specs[|acc| + i]) == ParseAddRule(adds[i], checks)
  }

  lemma ReadIntoFront(acc: seq<RuleSpec>, spec: RuleSpec, line: string, rest: seq<string>, specs: seq<RuleSpec>, checks: Checks)
    requires ParseAddRule(line, checks) == Ok(spec) && ReadInto(acc + [spec], rest, specs, checks)
    ensures ReadInto(acc, [line] + rest, specs, checks)
  {
    hide ParseAddRule;
    var adds := [line] + rest;
    assert specs[..|acc| + 1] == acc + [spec] && specs[..|acc|] == specs[..|acc| + 1][..|acc|];
    assert specs[..|acc| + 1][|acc|] == specs[|acc|];
    forall i | 0 <= i < |adds| ensures Ok(specs[|acc| + i]) == ParseAddRule(adds[i], checks) {
      if i > 0 {
        assert adds[i] == rest[i - 1] && specs[|acc| + i] == specs[|acc + [spec]| + (i - 1)];
      }
    }
  }

  /** The line that stops the reading: the first of those looked at that does not read. */
  predicate StopsAt(adds: seq<string>, room: nat, line: string, error: ParseError, checks: Checks) {
    exists i :: 0 <= i < |adds| && i < room && AllRead(adds, i, checks)
                && adds[i] == line && ParseAddRule(line, checks) == Err(error)
  }

  lemma StopsFront(line: string, rest: seq<string>, room: nat, at: string, error: ParseError, checks: Checks)
    requires Reads(line, checks) && room > 0 && StopsAt(rest, room - 1, at, error, checks)
    ensures StopsAt([line] + rest, room, at, error, checks)
  {
    hide ParseAddRule, Reads;
    var i :| 0 <= i < |rest| && i < room - 1 && AllRead(rest, i, checks) && rest[i] == at;
    AllReadFront(line, rest, i + 1, checks);
    assert ([line] + rest)[i + 1] == at;
  }

  lemma {:induction false} ReadMeans(acc: seq<RuleSpec>, lines: seq<string>, checks: Checks)
    requires |acc| <= MAX_LINES
    ensures var adds, r, room := AddLines(lines), ReadLines(acc, lines, checks), MAX_LINES - |acc|;
            && (r.Batch? <==> |adds| <= room && AllRead(adds, room, checks))
            && (r.Batch? ==> ReadInto(acc, adds, r.specs, checks))
            && (r == Rejected(TooMany) <==> |adds| > room && AllRead(adds, room, checks))
            && r != Rejected(NoLines)
            && (r.Rejected? && r.error.BadLine? ==> StopsAt(adds, room, r.error.line, r.error.error, checks))
    decreases |lines|, 0
  {
    if lines != [] {
      var line, rest := Trim(lines[0]), AddLines(lines[1..]);
      if HasPrefix(line, "/addrule ") {
        assert AddLines(lines) == [line] + rest;
        hide ParseAddRule, Trim, HasPrefix, AddLines;
        if |acc| < MAX_LINES {
          AllReadFront(line, rest, MAX_LINES - |acc|, checks);
          if Reads(line, checks) {
            ReadMore(acc, line, lines[1..], checks);
          } else {
            assert ([line] + rest)[0] == line && AllRead([line] + rest, 0, checks);
          }
        }
      } else {
        ReadMeans(acc, lines[1..], checks);
        assert AddLines(lines) == rest;
        hide ParseAddRule, Trim, HasPrefix, AddLines, ReadInto, AllRead, StopsAt;
      }
    }
  }

  /** One more line read. */
  lemma {:induction false} ReadMore(acc: seq<RuleSpec>, line: string, lines: seq<string>, checks: Checks)
    requires |acc| < MAX_LINES && Reads(line, checks)
    ensures var spec := ParseAddRule(line, checks).value;
            var adds, r, room := [line] + AddLines(lines), ReadLines(acc + [spec], lines, checks), MAX_LINES - |acc|;
            && (r.Batch? <==> |adds| <= room && AllRead(adds, room, checks))
            && (r.Batch? ==> ReadInto(acc, adds, r.specs, checks))
            && (r == Rejected(TooMany) <==> |adds| > room && AllRead(adds, room, checks))
            && r != Rejected(NoLines)
            && (r.Rejected? && r.error.BadLine? ==> StopsAt(adds, room, r.error.line, r.error.error, checks))
    decreases |lines|, 1
  {
    var spec, rest := ParseAddRule(line, checks).value, AddLines(lines);
    ReadMeans(acc + [spec], lines, checks);
    var r := ReadLines(acc + [spec], lines, checks);
    hide ParseAddRule, ReadLines, AddLines, ReadInto, AllRead, StopsAt;
    AllReadFront(line, rest, MAX_LINES - |acc|, checks);
    if r.Batch? {
      ReadIntoFront(acc, spec, line, rest, r.specs, checks);
    } else if r.error.BadLine? {
      StopsFront(line, rest, MAX_LINES - |acc|, r.error.line, r.error.error, checks);
    }
  }

  /**
   A pasted message: accepted exactly when it has between one and fifty lines that ask for a rule
   and all of them read; then it is those rules in order. Otherwise it has none, has a line that
   does not read among the first fifty, or has more than fifty.
   */
  lemma BatchMeans(text: string, checks: Checks)
    ensures var adds, r := AddLines(Split(text, '\n')), ParseRegisterRules(text, checks);
            && (r.Batch? <==> 1 <= |adds| <= 50 && AllRead(adds, 50, checks))
            && (r.Batch? ==> |r.specs| == |adds|
                             && forall i :: 0 <= i < |adds| ==> Ok(r.specs[i]) == ParseAddRule(adds[i], checks))
            && (r == Rejected(NoLines) <==> adds == [])
            && (r == Rejected(TooMany) <==> |adds| > 50 && AllRead(adds, 50, checks))
            && (r.Rejected? && r.error.BadLine? ==> StopsAt(adds, 50, r.error.line, r.error.error, checks))
  {
    ReadMeans([], Split(text, '\n'), checks);
    hide ParseAddRule, ReadLines, AddLines, AllRead, StopsAt, Split;
  }

  lemma {:induction false} EveryRuleListed(defs: seq<RuleDef>, d: RuleDef)
    requires d in defs
    ensures if ChatAddable(d.tool) then "/addrule " + ReplayLine(d) in ReplayLines(defs)
            else ReferenceLine(d) in ReferenceLines(defs)
  {
    assert defs == [defs[0]] + defs[1..];
    hide ReplayLine, ChatAddable, ReferenceLine;
    if d != defs[0] {
      EveryRuleListed(defs[1..], d);
    }
  }

  lemma LineOf(d: RuleDef)
    ensures ChatAddable(d.tool) <==> d.tool in Allowlist()
    ensures ReferenceLine(d) == d.name + " \U{2192} " + d.pattern + " \U{2192} " + d.tool
  {
  }

  /** The tools a chat may give a rule. */
  function Allowlist(): seq<string> {
    ["read_csv", "csv_stats", "read_doc", "analyze_log"]
  }

  /** Every rule of an export has its line in the message: one to be replayed, or one for reference. */
  lemma ExportLists(defs: seq<RuleDef>, checks: Checks, d: RuleDef)
    requires d in defs && forall x :: x in defs ==> Exportable(x, checks)
    ensures var addable := d.tool in Allowlist();
            var line := if addable then "/addrule " + ReplayLine(d)
                        else d.name + " \U{2192} " + d.pattern + " \U{2192} " + d.tool;
            line in Split(ExportText(defs), '\n')
  {
    EveryRuleListed(defs, d);
    LineOf(d);
    hide Exportable, ReplayLine, ReferenceLine, ChatAddable, Allowlist, Split, ExportText, ReplayLines, ReferenceLines, Header;
    ExportSplits(defs, checks);
    assert ReferenceLines(defs) != [] ==> ExportRows(defs) == ReplayLines(defs) + (["", SHIPPED] + ReferenceLines(defs));
  }
}
