/**
 The rule dialect: `ReplayLine` prints a live rule as
 `name=.. | pattern=.. | tool=.. | args=..`, and `ParseAddRule` reads such a line
 back. A pattern may itself hold `|` and `=`, so the reader splits on every pipe and
 then merges the pieces that do not start a known key to their left.
 */
module RuleDialect {
  import opened Text

  datatype RuleDef = RuleDef(name: string, pattern: string, tool: string, args: string)

  datatype RuleSpec = RuleSpec(name: string, pattern: string, tool: string, args: string)

  datatype ParseError =
    | Usage
    | BadSegment(seg: string)
    | UnknownKey(key: string)
    | Required
    | BadName
    | NotACommand
    | BadPattern
    | BadArgs

  datatype Result<T> = Ok(value: T) | Err(error: ParseError)

  /** The regular-expression compiler and the JSON codec, seen only through their verdicts. */
  datatype Checks = Checks(compiles: string -> bool, isJsonObject: string -> bool)

  predicate ChatAddable(tool: string) {
    tool == "read_csv" || tool == "csv_stats" || tool == "read_doc" || tool == "analyze_log"
  }

  /** What an empty args template stands for. */
  function NormalArgs(args: string): string {
    if Trim(args) == "" then "{}" else Trim(args)
  }

  function ReplayLine(d: RuleDef): string {
    "name=" + d.name + " | pattern=" + d.pattern + " | tool=" + d.tool + " | args=" + NormalArgs(d.args)
  }

  predicate StartsWithKnownKey(s: string) {
    HasPrefix(s, "name=") || HasPrefix(s, "pattern=") || HasPrefix(s, "tool=") || HasPrefix(s, "args=")
  }

  /** One step of the merge: `part` is already trimmed. */
  function MergeOne(segs: seq<string>, part: string): seq<string> {
    if part == "" then segs
    else if |segs| > 0 && !StartsWithKnownKey(part) then
      segs[|segs| - 1 := segs[|segs| - 1] + "|" + part]
    else segs + [part]
  }

  function Merge(segs: seq<string>, parts: seq<string>): seq<string>
    decreases |parts|
  {
    if parts == [] then segs else Merge(MergeOne(segs, Trim(parts[0])), parts[1..])
  }

  function LowerChar(c: char): char {
    if 'A' <= c <= 'Z' then c - 'A' + 'a' else c
  }

  /** Lower case. Only a comparison with the four ASCII keys looks at it. */
  function Lower(s: string): string {
    if s == "" then "" else [LowerChar(s[0])] + Lower(s[1..])
  }

  /** Index of the first `=`, or the length when there is none. */
  function EqAt(s: string): (i: nat)
    ensures i <= |s| && '=' !in s[..i] && (i < |s| ==> s[i] == '=')
  {
    if s == "" || s[0] == '=' then 0
    else
      var i := EqAt(s[1..]);
      assert s[..i + 1] == [s[0]] + s[1..][..i];
      i + 1
  }

  function ReadSegment(spec: RuleSpec, seg: string): Result<RuleSpec> {
    var i := EqAt(seg);
    if i == |seg| then Err(BadSegment(seg))
    else
      var k := Lower(Trim(seg[..i]));
      var v := Trim(seg[i + 1..]);
      if k == "name" then Ok(spec.(name := v))
      else if k == "pattern" then Ok(spec.(pattern := v))
      else if k == "tool" then Ok(spec.(tool := v))
      else if k == "args" then Ok(spec.(args := v))
      else Err(UnknownKey(k))
  }

  function ReadSegments(spec: RuleSpec, segs: seq<string>): Result<RuleSpec>
    decreases |segs|
  {
    if segs == [] then Ok(spec)
    else
      var r := ReadSegment(spec, segs[0]);
      if r.Err? then r else ReadSegments(r.value, segs[1..])
  }

  predicate NameOk(name: string) {
    && 2 <= |name| <= 41
    && 'a' <= name[0] <= 'z'
    && forall c :: c in name[1..] ==> 'a' <= c <= 'z' || '0' <= c <= '9' || c == '_'
  }

  function Validate(spec: RuleSpec, checks: Checks): Result<RuleSpec> {
    if spec.name == "" || spec.pattern == "" || spec.tool == "" then Err(Required)
    else if !NameOk(spec.name) then Err(BadName)
    else if !HasPrefix(Trim(spec.pattern), "/") then Err(NotACommand)
    else if !checks.compiles(spec.pattern) then Err(BadPattern)
    else if spec.args != "" && !checks.isJsonObject(spec.args) then Err(BadArgs)
    else Ok(spec)
  }

  const EMPTY_SPEC := RuleSpec("", "", "", "")

  function Body(text: string): string {
    Trim(TrimPrefix(Trim(text), "/addrule"))
  }

  function ParseAddRule(text: string, checks: Checks): Result<RuleSpec> {
    if Body(text) == "" then Err(Usage)
    else
      var r := ReadSegments(EMPTY_SPEC, Merge([], Split(Body(text), '|')));
      if r.Err? then r else Validate(r.value, checks)
  }

  /** The reader as the gate runs it: one loop grows `segs`, a second one fills `spec`. */
  method ParseLine(text: string, checks: Checks) returns (r: Result<RuleSpec>)
    ensures r == ParseAddRule(text, checks)
  {
    var body := Trim(TrimPrefix(Trim(text), "/addrule"));
    if body == "" {
      return Err(Usage);
    }
    var segs: seq<string> := [];
    var parts := Split(body, '|');
    for i := 0 to |parts|
      invariant Merge([], parts) == Merge(segs, parts[i..])
    {
      var part := Trim(parts[i]);
      if part == "" {
        continue;
      }
      if |segs| > 0 && !StartsWithKnownKey(part) {
        segs := segs[|segs| - 1 := segs[|segs| - 1] + "|" + part];
        continue;
      }
      segs := segs + [part];
    }
    assert parts[|parts|..] == [];
    var spec := EMPTY_SPEC;
    for i := 0 to |segs|
      invariant ReadSegments(EMPTY_SPEC, segs) == ReadSegments(spec, segs[i..])
    {
      var seg := segs[i];
      var eq := EqAt(seg);
      if eq == |seg| {
        return Err(BadSegment(seg));
      }
      var k, v := Lower(Trim(seg[..eq])), Trim(seg[eq + 1..]);
      match k {
        case "name" => spec := spec.(name := v);
        case "pattern" => spec := spec.(pattern := v);
        case "tool" => spec := spec.(tool := v);
        case "args" => spec := spec.(args := v);
        case _ => return Err(UnknownKey(k));
      }
    }
    assert segs[|segs|..] == [];
    r := Validate(spec, checks);
  }

  // ------------------------------------------------------------------ canonical values

  /** A piece the merge keeps as a continuation. */
  predicate Continues(p: string) {
    p != "" && Trimmed(p) && !StartsWithKnownKey(p)
  }

  /** A value that splitting, trimming and merging hand back unchanged. */
  predicate Canonical(v: string) {
    var parts := Split(v, '|');
    Trimmed(parts[0]) && forall p :: p in parts[1..] ==> Continues(p)
  }

  /** A rule whose printed line reads back: what the reader accepts, see AcceptedIsCanonical. */
  predicate CanonicalSpec(s: RuleSpec, checks: Checks) {
    Canonical(s.name) && Canonical(s.pattern) && Canonical(s.tool) && Canonical(s.args)
    && Validate(s, checks) == Ok(s)
  }

  predicate CanonicalDef(d: RuleDef, checks: Checks) {
    ChatAddable(d.tool) && CanonicalSpec(RuleSpec(d.name, d.pattern, d.tool, NormalArgs(d.args)), checks)
  }

  lemma {:induction false} MergeConcat(segs: seq<string>, a: seq<string>, b: seq<string>)
    ensures Merge(segs, a + b) == Merge(Merge(segs, a), b)
    decreases |a|
  {
    if a == [] {
      assert a + b == b;
    } else {
      assert (a + b)[1..] == a[1..] + b;
      MergeConcat(MergeOne(segs, Trim(a[0])), a[1..], b);
    }
  }

  /** Only the trimmed pieces matter. */
  lemma {:induction false} MergeTrims(segs: seq<string>, a: seq<string>, b: seq<string>)
    requires |a| == |b| && forall i :: 0 <= i < |a| ==> Trim(a[i]) == Trim(b[i])
    ensures Merge(segs, a) == Merge(segs, b)
    decreases |a|
  {
    if a != [] {
      MergeTrims(MergeOne(segs, Trim(a[0])), a[1..], b[1..]);
    }
  }

  lemma {:induction false} MergeContinuations(segs: seq<string>, parts: seq<string>)
    requires segs != [] && forall p :: p in parts ==> Continues(p)
    ensures Merge(segs, parts) == segs[|segs| - 1 := segs[|segs| - 1] + Suffixes(parts, "|")]
    decreases |parts|
  {
    if parts == [] {
      assert segs[|segs| - 1] + "" == segs[|segs| - 1];
    } else {
      TrimIsTrimmed(parts[0]);
      assert Continues(parts[0]);
      var next := MergeOne(segs, parts[0]);
      MergeContinuations(next, parts[1..]);
      assert next[|next| - 1] + Suffixes(parts[1..], "|") == segs[|segs| - 1] + Suffixes(parts, "|");
    }
  }

  /** The four `key=` prefixes the printer writes. */
  predicate KeyPrefix(key: string) {
    key == "name=" || key == "pattern=" || key == "tool=" || key == "args="
  }

  lemma KeyPrefixHead(key: string, p: string)
    requires KeyPrefix(key) && Trimmed(p)
    ensures '|' !in key && key + p != "" && Trim(key + p) == key + p && StartsWithKnownKey(key + p)
  {
    assert (key + p)[0] == key[0];
    assert p != "" ==> (key + p)[|key + p| - 1] == p[|p| - 1];
    assert (key + p)[..|key|] == key;
    TrimIsTrimmed(key + p);
  }

  lemma MergeHead(segs: seq<string>, head: string, rest: seq<string>)
    requires head != "" && Trim(head) == head && StartsWithKnownKey(head)
    requires forall p :: p in rest ==> Continues(p)
    ensures Merge(segs, [head] + rest) == segs + [head + Suffixes(rest, "|")]
  {
    assert ([head] + rest)[1..] == rest;
    assert MergeOne(segs, head) == segs + [head];
    MergeContinuations(segs + [head], rest);
    var merged := segs + [head];
    assert merged[|merged| - 1 := head + Suffixes(rest, "|")] == segs + [head + Suffixes(rest, "|")];
  }

  /** A known key followed by a canonical value is read as one segment. */
  lemma MergePlainField(segs: seq<string>, key: string, v: string)
    requires KeyPrefix(key) && Canonical(v)
    ensures Merge(segs, Split(key + v, '|')) == segs + [key + v]
  {
    hide StartsWithKnownKey, KeyPrefix, Continues, Merge, Suffixes;
    var parts := Split(v, '|');
    var head, rest := key + parts[0], parts[1..];
    KeyPrefixHead(key, parts[0]);
    SplitPrefix(key, v, '|');
    MergeHead(segs, head, rest);
    JoinOfSplit(v, '|');
    assert v == parts[0] + Suffixes(rest, "|");
    assert head + Suffixes(rest, "|") == key + v;
  }

  /** ... and so it is with a blank on either side. */
  lemma MergeField(segs: seq<string>, key: string, v: string)
    requires KeyPrefix(key) && Canonical(v)
    ensures Merge(segs, Split(key + v + " ", '|')) == segs + [key + v]
    ensures Merge(segs, Split(" " + (key + v), '|')) == segs + [key + v]
    ensures Merge(segs, Split(" " + (key + v) + " ", '|')) == segs + [key + v]
  {
    MergePlainField(segs, key, v);
    MergeBlank(segs, key + v);
    MergeBlank(segs, " " + (key + v));
  }

  lemma MergeBlankFront(segs: seq<string>, x: string)
    ensures Merge(segs, Split(" " + x, '|')) == Merge(segs, Split(x, '|'))
  {
    var parts := Split(x, '|');
    SplitPrefix(" ", x, '|');
    TrimLeadingBlank(parts[0]);
    hide Split, Trim, Merge;
    MergeTrims(segs, Split(" " + x, '|'), parts);
  }

  lemma MergeBlankBack(segs: seq<string>, x: string)
    ensures Merge(segs, Split(x + " ", '|')) == Merge(segs, Split(x, '|'))
  {
    var parts := Split(x, '|');
    SplitSuffix(x, " ", '|');
    TrimTrailingBlank(parts[|parts| - 1]);
    hide Split, Trim, Merge;
    MergeTrims(segs, Split(x + " ", '|'), parts);
  }

  lemma MergeBlank(segs: seq<string>, x: string)
    ensures Merge(segs, Split(" " + x, '|')) == Merge(segs, Split(x, '|'))
    ensures Merge(segs, Split(x + " ", '|')) == Merge(segs, Split(x, '|'))
  {
    MergeBlankFront(segs, x);
    MergeBlankBack(segs, x);
  }

  // ------------------------------------------------------------------ printing then parsing

  lemma {:induction false} EqAtKey(key: string, v: string)
    requires '=' !in key
    ensures EqAt(key + "=" + v) == |key|
    ensures (key + "=" + v)[..|key|] == key && (key + "=" + v)[|key| + 1..] == v
  {
    if key != "" {
      assert (key + "=" + v)[1..] == key[1..] + "=" + v;
      EqAtKey(key[1..], v);
    }
  }

  lemma {:induction false} LowerFixed(s: string)
    requires forall c :: c in s ==> 'a' <= c <= 'z'
    ensures Lower(s) == s
  {
    if s != "" {
      assert s[0] in s && forall c :: c in s[1..] ==> c in s;
      LowerFixed(s[1..]);
    }
  }

  lemma KeyReadsItself(key: string)
    requires forall c :: c in key ==> 'a' <= c <= 'z'
    ensures Lower(Trim(key)) == key
  {
    assert Trimmed(key) by {
      if key != "" {
        assert key[0] in key && key[|key| - 1] in key;
      }
    }
    TrimIsTrimmed(key);
    LowerFixed(key);
  }

  lemma ReadField(spec: RuleSpec, key: string, prefix: string, v: string)
    requires key == "name" || key == "pattern" || key == "tool" || key == "args"
    requires prefix == key + "=" && Trimmed(v)
    ensures ReadSegment(spec, prefix + v) ==
            Ok(if key == "name" then spec.(name := v)
               else if key == "pattern" then spec.(pattern := v)
               else if key == "tool" then spec.(tool := v)
               else spec.(args := v))
  {
    EqAtKey(key, v);
    KeyReadsItself(key);
    TrimIsTrimmed(v);
  }

  /** The segments of a printed rule. */
  function FourSegments(d: RuleDef, a: string): seq<string> {
    ["name=" + d.name, "pattern=" + d.pattern, "tool=" + d.tool, "args=" + a]
  }

  lemma JoinFields(f1: string, f2: string, f3: string, f4: string)
    ensures Split(f1 + "|" + (f2 + "|" + (f3 + "|" + f4)), '|')
            == Split(f1, '|') + (Split(f2, '|') + (Split(f3, '|') + Split(f4, '|')))
  {
    SplitConcat(f3, f4, '|');
    SplitConcat(f2, f3 + "|" + f4, '|');
    SplitConcat(f1, f2 + "|" + (f3 + "|" + f4), '|');
  }

  lemma MergeFour(a: seq<string>, b: seq<string>, c: seq<string>, d: seq<string>)
    ensures Merge([], a + (b + (c + d))) == Merge(Merge(Merge(Merge([], a), b), c), d)
  {
    MergeConcat([], a, b + (c + d));
    MergeConcat(Merge([], a), b, c + d);
    MergeConcat(Merge(Merge([], a), b), c, d);
  }

  lemma LineIsFields(d: RuleDef)
    ensures ReplayLine(d) ==
            "name=" + d.name + " " + "|" + (" " + ("pattern=" + d.pattern) + " " + "|"
                                            + (" " + ("tool=" + d.tool) + " " + "|" + (" " + ("args=" + NormalArgs(d.args)))))
  {
  }

  lemma Prefixes(s: seq<string>)
    requires |s| == 4
    ensures [] + [s[0]] == s[..1] && s[..1] + [s[1]] == s[..2] && s[..2] + [s[2]] == s[..3] && s[..3] + [s[3]] == s
  {
  }

  /** A printed rule splits into exactly its four fields. */
  lemma LineSegments(d: RuleDef)
    requires Canonical(d.name) && Canonical(d.pattern) && Canonical(d.tool) && Canonical(NormalArgs(d.args))
    ensures Merge([], Split(ReplayLine(d), '|')) == FourSegments(d, NormalArgs(d.args))
  {
    hide NormalArgs, Canonical, Merge, Split, StartsWithKnownKey;
    var a := NormalArgs(d.args);
    var f1, f2 := "name=" + d.name + " ", " " + ("pattern=" + d.pattern) + " ";
    var f3, f4 := " " + ("tool=" + d.tool) + " ", " " + ("args=" + a);
    var s := FourSegments(d, a);
    LineIsFields(d);
    JoinFields(f1, f2, f3, f4);
    MergeFour(Split(f1, '|'), Split(f2, '|'), Split(f3, '|'), Split(f4, '|'));
    MergeField([], "name=", d.name);
    MergeField(s[..1], "pattern=", d.pattern);
    MergeField(s[..2], "tool=", d.tool);
    MergeField(s[..3], "args=", a);
    Prefixes(s);
  }

  lemma {:induction false} CanonicalTrimmed(v: string)
    requires Canonical(v)
    ensures Trimmed(v)
  {
    var parts := Split(v, '|');
    JoinOfSplit(v, '|');
    if |parts| == 1 {
      assert v == parts[0] + "";
    } else {
      var front, last := parts[..|parts| - 1], parts[|parts| - 1];
      assert parts == front + [last] && last in parts[1..];
      JoinAppend(front, last, "|");
      assert v[|v| - 1] == last[|last| - 1];
      if parts[0] != "" {
        assert v[0] == parts[0][0];
      } else {
        assert v[0] == Suffixes(parts[1..], "|")[0];
      }
    }
  }

  lemma ReadFour(d: RuleDef, a: string)
    requires Trimmed(d.name) && Trimmed(d.pattern) && Trimmed(d.tool) && Trimmed(a)
    ensures ReadSegments(EMPTY_SPEC, FourSegments(d, a)) == Ok(RuleSpec(d.name, d.pattern, d.tool, a))
  {
    hide ReadSegment, ReadSegments;
    var s1 := EMPTY_SPEC.(name := d.name);
    var s2 := s1.(pattern := d.pattern);
    var s3 := s2.(tool := d.tool);
    ReadField(EMPTY_SPEC, "name", "name=", d.name);
    ReadField(s1, "pattern", "pattern=", d.pattern);
    ReadField(s2, "tool", "tool=", d.tool);
    ReadField(s3, "args", "args=", a);
    ReadFourSteps(EMPTY_SPEC, s1, s2, s3, s3.(args := a), FourSegments(d, a));
  }

  lemma ReadFourSteps(s0: RuleSpec, s1: RuleSpec, s2: RuleSpec, s3: RuleSpec, s4: RuleSpec, segs: seq<string>)
    requires |segs| == 4
    requires ReadSegment(s0, segs[0]) == Ok(s1) && ReadSegment(s1, segs[1]) == Ok(s2)
    requires ReadSegment(s2, segs[2]) == Ok(s3) && ReadSegment(s3, segs[3]) == Ok(s4)
    ensures ReadSegments(s0, segs) == Ok(s4)
  {
    ReadStep(s0, s1, segs);
    ReadStep(s1, s2, segs[1..]);
    ReadStep(s2, s3, segs[1..][1..]);
    ReadStep(s3, s4, segs[1..][1..][1..]);
  }

  lemma ReadStep(spec: RuleSpec, next: RuleSpec, segs: seq<string>)
    requires segs != [] && ReadSegment(spec, segs[0]) == Ok(next)
    ensures ReadSegments(spec, segs) == ReadSegments(next, segs[1..])
  {
  }

  /** Printing a canonical rule and reading the line back returns the rule, with or without the command word. */
  lemma PrintThenParse(d: RuleDef, checks: Checks)
    requires CanonicalDef(d, checks)
    ensures ParseAddRule(ReplayLine(d), checks)
         == Ok(RuleSpec(d.name, d.pattern, d.tool, if Trim(d.args) == "" then "{}" else Trim(d.args)))
    ensures ParseAddRule("/addrule " + ReplayLine(d), checks) == ParseAddRule(ReplayLine(d), checks)
  {
    var a := NormalArgs(d.args);
    CanonicalTrimmed(a);
    CanonicalTrimmed(d.name);
    CanonicalTrimmed(d.pattern);
    CanonicalTrimmed(d.tool);
    LineTrimmed(d);
    BodyOfLine(ReplayLine(d));
    LineSegments(d);
    ReadFour(d, a);
  }

  lemma LineTrimmed(d: RuleDef)
    ensures ReplayLine(d) != "" && Trimmed(ReplayLine(d)) && ReplayLine(d)[0] == 'n'
  {
    TrimIsTrimmed(d.args);
    var a := NormalArgs(d.args);
    var line := ReplayLine(d);
    assert a != "" && Trimmed(a);
    assert line[0] == 'n' && line[|line| - 1] == a[|a| - 1];
  }

  lemma BodyOfLine(line: string)
    requires line != "" && Trimmed(line) && line[0] == 'n'
    ensures Body(line) == line && Body("/addrule " + line) == line
  {
    TrimIsTrimmed(line);
    var full := "/addrule " + line;
    assert full[|full| - 1] == line[|line| - 1] && full[0] == '/';
    TrimIsTrimmed(full);
    assert full[..8] == "/addrule" && full[8..] == " " + line;
    TrimLeadingBlank(line);
  }

  // ------------------------------------------------------------------ what the reader accepts

  /** A segment the merge can build: its pieces are trimmed and only the first may start a key. */
  predicate BuiltSegment(seg: string) {
    var parts := Split(seg, '|');
    parts[0] != "" && Trimmed(parts[0]) && forall p :: p in parts[1..] ==> Continues(p)
  }

  lemma {:induction false} MergeBuilds(segs: seq<string>, parts: seq<string>)
    requires forall p :: p in parts ==> '|' !in p
    requires forall s :: s in segs ==> BuiltSegment(s)
    ensures forall s :: s in Merge(segs, parts) ==> BuiltSegment(s)
    decreases |parts|
  {
    if parts != [] {
      var p := Trim(parts[0]);
      TrimIsTrimmed(parts[0]);
      assert '|' !in parts[0];
      SplitHasNoSep(p, '|');
      var next := MergeOne(segs, p);
      if p != "" && |segs| > 0 && !StartsWithKnownKey(p) {
        var last := segs[|segs| - 1];
        assert BuiltSegment(last);
        SplitConcat(last, p, '|');
        var lp := Split(last, '|');
        assert (lp + [p])[1..] == lp[1..] + [p];
        assert BuiltSegment(last + "|" + p);
      }
      assert forall s :: s in next ==> BuiltSegment(s);
      MergeBuilds(next, parts[1..]);
    }
  }

  lemma {:induction false} TrimLeftKeepsTail(a: string, b: string)
    requires a != "" && !IsSpace(a[|a| - 1])
    ensures TrimLeft(a + b) == TrimLeft(a) + b
  {
    if IsSpace(a[0]) {
      assert (a + b)[1..] == a[1..] + b;
      TrimLeftKeepsTail(a[1..], b);
    }
  }

  lemma LowerKeepsPipes(s: string)
    ensures '|' in s ==> '|' in Lower(s)
  {
    if s != "" {
      LowerKeepsPipes(s[1..]);
      assert LowerChar(s[0]) in Lower(s);
    }
  }

  lemma {:induction false} TrimKeepsPipes(s: string)
    ensures '|' in s ==> '|' in Trim(s)
  {
    if '|' in s {
      TrimLeftKeepsPipes(s);
      TrimRightKeepsPipes(TrimLeft(s));
    }
  }

  lemma {:induction false} TrimLeftKeepsPipes(s: string)
    requires '|' in s
    ensures '|' in TrimLeft(s)
  {
    if IsSpace(s[0]) {
      assert '|' in s[1..];
      TrimLeftKeepsPipes(s[1..]);
    }
  }

  lemma {:induction false} TrimRightKeepsPipes(s: string)
    requires '|' in s
    ensures '|' in TrimRight(s)
  {
    if IsSpace(s[|s| - 1]) {
      assert '|' in s[..|s| - 1];
      TrimRightKeepsPipes(s[..|s| - 1]);
    }
  }

  /** The pieces of the value of a segment the merge built. */
  lemma ValuePieces(seg: string, i: nat)
    requires BuiltSegment(seg) && i < |seg| && seg[i] == '=' && '|' !in seg[..i]
    ensures var parts := Split(seg[i + 1..], '|');
            && (parts[0] == "" || !IsSpace(parts[0][|parts[0]| - 1]))
            && forall p :: p in parts[1..] ==> Continues(p)
  {
    var k, raw := seg[..i + 1], seg[i + 1..];
    assert seg == k + raw && k == seg[..i] + [seg[i]];
    SplitPrefix(k, raw, '|');
    var r0, rest := Split(raw, '|')[0], Split(raw, '|')[1..];
    assert ([k + r0] + rest)[1..] == rest && ([k + r0] + rest)[0] == k + r0;
    hide Split, Continues, IsSpace;
    if r0 != "" {
      assert (k + r0)[|k + r0| - 1] == r0[|r0| - 1];
    }
  }

  /** The value read from a segment the merge built is canonical. */
  lemma ReadValueCanonical(seg: string, i: nat)
    requires BuiltSegment(seg) && i < |seg| && seg[i] == '=' && '|' !in seg[..i]
    ensures Canonical(Trim(seg[i + 1..]))
  {
    var raw := seg[i + 1..];
    var r0, rest := Split(raw, '|')[0], Split(raw, '|')[1..];
    ValuePieces(seg, i);
    JoinOfSplit(raw, '|');
    SplitHasNoSep(raw, '|');
    hide Split, BuiltSegment, Canonical, Continues;
    TrimOfPieces(r0, rest);
    FirstPiece(r0);
    hide Trim, TrimLeft, IsSpace;
    assert raw == r0 + Suffixes(rest, "|");
    CanonicalPieces(TrimLeft(r0), rest);
  }

  lemma FirstPiece(r0: string)
    requires '|' !in r0 && (r0 == "" || !IsSpace(r0[|r0| - 1]))
    ensures '|' !in TrimLeft(r0) && Trimmed(TrimLeft(r0))
  {
    TrimLeftCut(r0);
    if r0 != "" {
      NonBlankLeft(r0);
    }
    var q0 := TrimLeft(r0);
    assert q0 == r0[|r0| - |q0|..];
  }

  lemma CanonicalPieces(q0: string, rest: seq<string>)
    requires '|' !in q0 && Trimmed(q0)
    requires forall p :: p in rest ==> '|' !in p && Continues(p)
    ensures Canonical(q0 + Suffixes(rest, "|"))
  {
    SplitOfSuffixes(q0, rest, '|');
    assert ([q0] + rest)[1..] == rest;
  }

  /** Trimming a value only strips the blanks in front of its first piece. */
  lemma TrimOfPieces(r0: string, rest: seq<string>)
    requires r0 == "" || !IsSpace(r0[|r0| - 1])
    requires forall p :: p in rest ==> Continues(p)
    ensures Trim(r0 + Suffixes(rest, "|")) == TrimLeft(r0) + Suffixes(rest, "|")
  {
    var tail := Suffixes(rest, "|");
    if r0 == "" {
      assert "" + tail == tail;
      assert tail != "" ==> tail[0] == '|';
      TailTrimmed("", rest);
    } else {
      TrimLeftKeepsTail(r0, tail);
      TrimLeftCut(r0);
      NonBlankLeft(r0);
      TailTrimmed(TrimLeft(r0), rest);
    }
  }

  lemma {:induction false} NonBlankLeft(a: string)
    requires a != "" && !IsSpace(a[|a| - 1])
    ensures TrimLeft(a) != ""
  {
    if IsSpace(a[0]) {
      NonBlankLeft(a[1..]);
    }
  }

  lemma TrimRightFixed(s: string)
    requires s == "" || !IsSpace(s[|s| - 1])
    ensures TrimRight(s) == s
  {
  }

  lemma TailTrimmed(q0: string, rest: seq<string>)
    requires q0 == "" || !IsSpace(q0[|q0| - 1])
    requires forall p :: p in rest ==> Continues(p)
    ensures TrimRight(q0 + Suffixes(rest, "|")) == q0 + Suffixes(rest, "|")
  {
    if rest != [] {
      assert Continues(rest[|rest| - 1]);
      SuffixesLast(rest, "|");
    }
    hide Suffixes;
    TrimRightFixed(q0 + Suffixes(rest, "|"));
  }

  predicate CanonicalFields(s: RuleSpec) {
    Canonical(s.name) && Canonical(s.pattern) && Canonical(s.tool) && Canonical(s.args)
  }

  /** A segment whose key holds no pipe has a canonical value. */
  lemma SegmentParts(seg: string, i: nat)
    requires BuiltSegment(seg) && i == EqAt(seg) && i < |seg| && '|' !in Lower(Trim(seg[..i]))
    ensures Canonical(Trim(seg[i + 1..]))
  {
    hide Lower, Trim, Canonical, BuiltSegment;
    LowerKeepsPipes(Trim(seg[..i]));
    TrimKeepsPipes(seg[..i]);
    ReadValueCanonical(seg, i);
  }

  lemma KeyIsPlain(k: string)
    ensures k == "name" || k == "pattern" || k == "tool" || k == "args" ==> '|' !in k
  {
  }

  lemma ReadsOneCanonical(spec: RuleSpec, seg: string)
    requires BuiltSegment(seg) && CanonicalFields(spec)
    ensures var r := ReadSegment(spec, seg); r.Ok? ==> CanonicalFields(r.value)
  {
    hide Canonical, BuiltSegment, Trim, EqAt, Lower;
    var i := EqAt(seg);
    if i < |seg| {
      var k := Lower(Trim(seg[..i]));
      KeyIsPlain(k);
      if '|' !in k {
        SegmentParts(seg, i);
      }
    }
  }

  lemma {:induction false} ReadsCanonical(spec: RuleSpec, segs: seq<string>)
    requires (forall s :: s in segs ==> BuiltSegment(s)) && CanonicalFields(spec)
    ensures var r := ReadSegments(spec, segs); r.Ok? ==> CanonicalFields(r.value)
    decreases |segs|
  {
    hide BuiltSegment, CanonicalFields, ReadSegment;
    if segs != [] {
      ReadsOneCanonical(spec, segs[0]);
      if ReadSegment(spec, segs[0]).Ok? {
        ReadsCanonical(ReadSegment(spec, segs[0]).value, segs[1..]);
      }
    }
  }

  /** Whatever text is accepted, its rule is canonical. */
  lemma AcceptedIsCanonical(text: string, checks: Checks)
    ensures var r := ParseAddRule(text, checks); r.Ok? ==> CanonicalSpec(r.value, checks)
  {
    var body := Body(text);
    SplitHasNoSep(body, '|');
    MergeBuilds([], Split(body, '|'));
    assert Split("", '|') == [""];
    ReadsCanonical(EMPTY_SPEC, Merge([], Split(body, '|')));
  }

  /** A printed addable rule reads back as itself exactly if it is canonical. */
  lemma PrintThenParseIff(d: RuleDef, checks: Checks)
    requires ChatAddable(d.tool)
    ensures ParseAddRule(ReplayLine(d), checks) == Ok(RuleSpec(d.name, d.pattern, d.tool, NormalArgs(d.args)))
            <==> CanonicalDef(d, checks)
  {
    AcceptedIsCanonical(ReplayLine(d), checks);
    if CanonicalDef(d, checks) {
      PrintThenParse(d, checks);
    }
    hide ParseAddRule, ReplayLine, CanonicalSpec;
  }

  /**
   The round trip on every accepted rule text: stored (empty args as `{}`), printed and
   parsed again, a chat-addable rule keeps its name, pattern, tool and args.
   */
  lemma RoundTrip(text: string, checks: Checks)
    requires checks.isJsonObject("{}")
    ensures var r := ParseAddRule(text, checks);
            r.Ok? && ChatAddable(r.value.tool) ==>
              var s := r.value;
              var stored := RuleDef(s.name, s.pattern, s.tool, if s.args == "" then "{}" else s.args);
              && ParseAddRule("/addrule " + ReplayLine(stored), checks) == Ok(s.(args := stored.args))
              && ParseAddRule(ReplayLine(stored), checks) == Ok(s.(args := stored.args))
  {
    var r := ParseAddRule(text, checks);
    if r.Ok? && ChatAddable(r.value.tool) {
      AcceptedIsCanonical(text, checks);
      var s := r.value;
      var stored := RuleDef(s.name, s.pattern, s.tool, if s.args == "" then "{}" else s.args);
      CanonicalTrimmed(s.args);
      TrimIsTrimmed(stored.args);
      assert Trimmed("{}");
      assert NormalArgs(stored.args) == stored.args;
      assert Canonical("{}") by { SplitHasNoSep("{}", '|'); }
      PrintThenParse(stored, checks);
    }
  }

  // ------------------------------------------------------------------ which texts are accepted

  /** The key and the value a segment gives. */
  function KeyOf(seg: string): string { Lower(Trim(seg[..EqAt(seg)])) }

  function ValueOf(seg: string): string
    requires '=' in seg
  {
    assert EqAt(seg) < |seg|;
    Trim(seg[EqAt(seg) + 1..])
  }

  predicate IsKey(k: string) {
    k == "name" || k == "pattern" || k == "tool" || k == "args"
  }

  /** The value given last under a key, or the one it had before. */
  function Given(segs: seq<string>, key: string, before: string): string {
    if segs == [] then before
    else
      var seg := segs[|segs| - 1];
      if '=' in seg && KeyOf(seg) == key then ValueOf(seg) else Given(segs[..|segs| - 1], key, before)
  }

  predicate Keyed(seg: string) { '=' in seg && IsKey(KeyOf(seg)) }

  predicate AllKeyed(segs: seq<string>) {
    forall seg :: seg in segs ==> Keyed(seg)
  }

  lemma {:induction false} GivenFront(seg: string, rest: seq<string>, key: string, before: string)
    ensures Given([seg] + rest, key, before)
         == Given(rest, key, if '=' in seg && KeyOf(seg) == key then ValueOf(seg) else before)
  {
    var all := [seg] + rest;
    if rest == [] {
      assert all == [seg] && all[..0] == [];
    } else {
      assert all[|all| - 1] == rest[|rest| - 1] && all[..|all| - 1] == [seg] + rest[..|rest| - 1];
      GivenFront(seg, rest[..|rest| - 1], key, before);
    }
  }

  lemma EqIffIn(seg: string)
    ensures EqAt(seg) < |seg| <==> '=' in seg
  {
    assert seg[..|seg|] == seg;
  }

  /** The readings of a segment: the field its key names, or the reason it gives none. */
  lemma SegmentMeans(spec: RuleSpec, seg: string)
    ensures var r := ReadSegment(spec, seg);
            && (r.Ok? <==> Keyed(seg))
            && (Keyed(seg) ==> r.value == RuleSpec(if KeyOf(seg) == "name" then ValueOf(seg) else spec.name,
                                                   if KeyOf(seg) == "pattern" then ValueOf(seg) else spec.pattern,
                                                   if KeyOf(seg) == "tool" then ValueOf(seg) else spec.tool,
                                                   if KeyOf(seg) == "args" then ValueOf(seg) else spec.args))
            && ('=' !in seg ==> r == Err(BadSegment(seg)))
            && ('=' in seg && !Keyed(seg) ==> r == Err(UnknownKey(KeyOf(seg))))
  {
    EqIffIn(seg);
    hide Trim, Lower;
  }

  /** Every segment must give one of the four keys; each field is the value given last. */
  lemma {:induction false} SegmentsMean(spec: RuleSpec, segs: seq<string>)
    ensures var r := ReadSegments(spec, segs);
            && (r.Ok? <==> AllKeyed(segs))
            && (r.Ok? ==> r.value == RuleSpec(Given(segs, "name", spec.name), Given(segs, "pattern", spec.pattern),
                                              Given(segs, "tool", spec.tool), Given(segs, "args", spec.args)))
    decreases |segs|
  {
    if segs != [] {
      var seg, rest := segs[0], segs[1..];
      assert segs == [seg] + rest;
      SegmentMeans(spec, seg);
      hide Trim, Lower, KeyOf, ValueOf, ReadSegment, Keyed;
      if Keyed(seg) {
        var next := ReadSegment(spec, seg).value;
        SegmentsMean(next, rest);
        GivenFront(seg, rest, "name", spec.name);
        GivenFront(seg, rest, "pattern", spec.pattern);
        GivenFront(seg, rest, "tool", spec.tool);
        GivenFront(seg, rest, "args", spec.args);
        assert '=' in seg by { KeyedHasEq(seg); }
        hide Given, ReadSegments;
      }
    }
  }

  lemma KeyedHasEq(seg: string)
    requires Keyed(seg)
    ensures '=' in seg
  {
  }

  /** The segments a text is read as. */
  function SegmentsOf(text: string): seq<string> {
    Merge([], Split(Body(text), '|'))
  }

  /** A lower-case letter, then one to forty lower-case letters, digits and underscores. */
  predicate NameShaped(name: string) {
    && 2 <= |name| <= 41 && 'a' <= name[0] <= 'z'
    && forall i :: 0 < i < |name| ==> 'a' <= name[i] <= 'z' || '0' <= name[i] <= '9' || name[i] == '_'
  }

  lemma NameShape(name: string)
    ensures NameOk(name) <==> NameShaped(name)
  {
    if 2 <= |name| {
      assert forall i :: 0 < i < |name| ==> name[1..][i - 1] == name[i] && name[i] in name[1..];
      forall c | NameShaped(name) && c in name[1..] ensures 'a' <= c <= 'z' || '0' <= c <= '9' || c == '_' {
        var k :| 0 <= k < |name| - 1 && name[1..][k] == c;
        assert name[k + 1] == c;
      }
    }
  }

  /**
   Which texts the reader accepts, and as what: there is a text, all its segments give one of the
   four keys, the last values make a well-shaped name, a pattern that begins with a slash and compiles,
   a tool, and arguments that are absent or a JSON object.
   */
  lemma AcceptedIff(text: string, checks: Checks)
    ensures var segs, r := SegmentsOf(text), ParseAddRule(text, checks);
            var name, pattern := Given(segs, "name", ""), Given(segs, "pattern", "");
            var tool, args := Given(segs, "tool", ""), Given(segs, "args", "");
            && (r.Ok? <==>
                && Body(text) != "" && AllKeyed(segs)
                && NameShaped(name)
                && pattern != "" && HasPrefix(Trim(pattern), "/") && checks.compiles(pattern)
                && tool != ""
                && (args == "" || checks.isJsonObject(args)))
            && (r.Ok? ==> r.value == RuleSpec(name, pattern, tool, args))
  {
    SegmentsMean(EMPTY_SPEC, SegmentsOf(text));
    NameShape(Given(SegmentsOf(text), "name", ""));
    hide Body, Merge, Split, Given, AllKeyed, Trim, HasPrefix;
  }

  /** Why a well-keyed text is refused: the first of these that applies. */
  lemma RefusedBecause(text: string, checks: Checks)
    requires Body(text) != "" && AllKeyed(SegmentsOf(text))
    ensures var segs, r := SegmentsOf(text), ParseAddRule(text, checks);
            var name, pattern := Given(segs, "name", ""), Given(segs, "pattern", "");
            var tool, args := Given(segs, "tool", ""), Given(segs, "args", "");
            r.Err? ==>
              r.error == if name == "" || pattern == "" || tool == "" then Required
                         else if !NameOk(name) then BadName
                         else if !HasPrefix(Trim(pattern), "/") then NotACommand
                         else if !checks.compiles(pattern) then BadPattern
                         else BadArgs
  {
    SegmentsMean(EMPTY_SPEC, SegmentsOf(text));
    hide Body, Merge, Split, Given, AllKeyed, Trim, HasPrefix, NameOk;
  }

  /** Keys are compared without regard to the case of ASCII letters. */
  lemma {:induction false} LowerMeans(s: string)
    ensures |Lower(s)| == |s|
    ensures forall i :: 0 <= i < |s| ==> Lower(s)[i] == if 'A' <= s[i] <= 'Z' then s[i] - 'A' + 'a' else s[i]
  {
    if s != "" {
      LowerMeans(s[1..]);
    }
  }
}
