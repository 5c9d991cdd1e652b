/**
 The log watchdog: each poll reads what a file gained since the last one, and alerts on matching
 lines at most once per cooldown.
 */
module Watchdog {
  import opened Common
  import opened Text

  // ------------------------------------------------------------------ lines of a chunk

  function TrimCr(s: string): string {
    if s != "" && s[|s| - 1] == '\r' then TrimCr(s[..|s| - 1]) else s
  }

  /** Only carriage returns are cut, and all of them. */
  lemma {:induction false} TrimCrMeans(s: string)
    ensures TrimCr(s) <= s && forall i :: |TrimCr(s)| <= i < |s| ==> s[i] == '\r'
    ensures TrimCr(s) != "" ==> TrimCr(s)[|TrimCr(s)| - 1] != '\r'
  {
    if s != "" && s[|s| - 1] == '\r' {
      TrimCrMeans(s[..|s| - 1]);
    }
  }

  /** The line a part contributes, if any. */
  function Kept(part: string): seq<string> {
    if TrimCr(part) == "" then [] else [TrimCr(part)]
  }

  function KeptAll(parts: seq<string>): seq<string> {
    if parts == [] then [] else Kept(parts[0]) + KeptAll(parts[1..])
  }

  /** The non-empty lines of a text, without their carriage returns. */
  function Lines(s: string): seq<string> {
    KeptAll(Split(s, '\n'))
  }

  lemma {:induction false} KeptAllConcat(a: seq<string>, b: seq<string>)
    ensures KeptAll(a + b) == KeptAll(a) + KeptAll(b)
  {
    if a == [] {
      assert a + b == b;
    } else {
      assert (a + b)[1..] == a[1..] + b;
      KeptAllConcat(a[1..], b);
    }
  }

  // ------------------------------------------------------------------ reading the tail

  /** A path as a poll finds it; a read returns at most `limit` bytes. */
  datatype File = Absent | Irregular | Regular(content: string, openable: bool, limit: nat)

  function Start(size: nat, lastSize: nat, lastOff: nat): nat {
    if size < lastOff || size < lastSize then 0 else lastOff
  }

  function Got(f: File, start: nat): nat
    requires f.Regular? && start <= |f.content|
  {
    if !f.openable then 0 else if f.limit < |f.content| - start then f.limit else |f.content| - start
  }

  /** The new lines, the size seen, and the offset read to. */
  function Tail(f: File, lastSize: nat, lastOff: nat): (seq<string>, nat, nat) {
    if !f.Regular? then ([], lastSize, lastOff)
    else
      var start := Start(|f.content|, lastSize, lastOff);
      var n := Got(f, start);
      (if n == 0 then [] else Lines(f.content[start..start + n]), |f.content|, start + n)
  }

  lemma KeptStep(parts: seq<string>, i: nat)
    requires i < |parts|
    ensures KeptAll(parts[i..]) == Kept(parts[i]) + KeptAll(parts[i + 1..])
  {
    assert parts[i..][1..] == parts[i + 1..];
  }

  method SplitLines(chunk: string) returns (lines: seq<string>)
    ensures lines == Lines(chunk)
  {
    lines := [];
    var parts := Split(chunk, '\n');
    assert parts[0..] == parts;
    hide Split, TrimCr;
    for i := 0 to |parts|
      invariant lines + KeptAll(parts[i..]) == KeptAll(parts)
    {
      KeptStep(parts, i);
      hide KeptAll;
      Regroup(lines, Kept(parts[i]), KeptAll(parts[i + 1..]));
      var t := TrimCr(parts[i]);
      if t != "" {
        lines := lines + [t];
      }
    }
    assert parts[|parts|..] == [];
  }

  method TailFile(f: File, lastSize: nat, lastOff: nat) returns (lines: seq<string>, size: nat, off: nat)
    ensures (lines, size, off) == Tail(f, lastSize, lastOff)
  {
    hide Lines;
    lines := [];
    if !f.Regular? {
      return [], lastSize, lastOff;
    }
    size, off := |f.content|, lastOff;
    if size < off || size < lastSize {
      off := 0;
    }
    if size == off || !f.openable {
      return;
    }
    var n := if f.limit < size - off then f.limit else size - off;
    if n == 0 {
      return;
    }
    lines := SplitLines(f.content[off..off + n]);
    off := off + n;
  }

  /**
   What one poll reads. A path that is no regular file leaves everything as it was. A file smaller than
   last seen, or than the offset, is read from its head, any other from the offset; a read that is not
   cut short gives all the lines from there, one that fails gives none and leaves the offset.
   */
  lemma TailMeans(f: File, lastSize: nat, lastOff: nat)
    ensures var (lines, size, off) := Tail(f, lastSize, lastOff);
            && (!f.Regular? ==> lines == [] && size == lastSize && off == lastOff)
            && (f.Regular? ==>
                  var from := if |f.content| < lastOff || |f.content| < lastSize then 0 else lastOff;
                  && size == |f.content|
                  && from <= off <= |f.content|
                  && lines == (if off == from then [] else Lines(f.content[from..off]))
                  && (!f.openable ==> off == from)
                  && (f.openable && f.limit >= |f.content| - from ==> off == |f.content|))
  {
    hide Lines;
  }

  // ------------------------------------------------------------------ alerts

  datatype Alert = Alert(watch: string, line: string, at: int)

  /** One clock reading, and whether the alert buffer has room then. */
  datatype Moment = Moment(now: int, room: bool)

  const LINE_CAP: nat := 300
  const DEFAULT_COOLDOWN: int := 600_000

  function CapLine(s: string): string {
    if |s| > LINE_CAP then s[..LINE_CAP] + "\U{2026}" else s
  }

  /** Milliseconds; a negative cooldown switches suppression off. */
  function CooldownOf(configured: int): int {
    if configured == 0 then DEFAULT_COOLDOWN else configured
  }

  /** What became of the matches: `attempts` are the times an alert was tried, sent or dropped. */
  datatype Tally = Tally(matches: nat, suppressed: nat, dropped: nat, sent: seq<Alert>, attempts: seq<int>, until: Option<int>)

  const Fresh := Tally(0, 0, 0, [], [], None)

  function Note(t: Tally, watch: string, cooldown: int, line: string, m: Moment): Tally {
    var t := t.(matches := t.matches + 1);
    if t.until.Some? && m.now < t.until.value then t.(suppressed := t.suppressed + 1)
    else
      var t := t.(attempts := t.attempts + [m.now], until := if cooldown > 0 then Some(m.now + cooldown) else t.until);
      if m.room then t.(sent := t.sent + [Alert(watch, CapLine(line), m.now)]) else t.(dropped := t.dropped + 1)
  }

  function NoteAll(t: Tally, watch: string, cooldown: int, hit: string -> bool, lines: seq<string>, ms: seq<Moment>): Tally
    requires |ms| == |lines|
  {
    if lines == [] then t
    else
      var n := |lines| - 1;
      var t := NoteAll(t, watch, cooldown, hit, lines[..n], ms[..n]);
      if hit(lines[n]) then Note(t, watch, cooldown, lines[n], ms[n]) else t
  }

  class Watch {
    const name: string
    const cooldown: int
    const hit: string -> bool
    var lastLine: nat
    var lastSize: nat
    var cooldownUntil: Option<int>
    var matches: nat
    var alerts: seq<Alert>
    ghost var suppressed: nat
    ghost var dropped: nat
    ghost var attempts: seq<int>

    constructor (name: string, configured: int, hit: string -> bool)
      ensures View() == Fresh && lastLine == 0 && lastSize == 0
      ensures this.name == name && cooldown == CooldownOf(configured) && this.hit == hit
      ensures cooldown == if configured == 0 then 600_000 else configured
    {
      this.name, this.hit := name, hit;
      cooldown := if configured == 0 then DEFAULT_COOLDOWN else configured;
      lastLine, lastSize, cooldownUntil, matches, alerts := 0, 0, None, 0, [];
      suppressed, dropped, attempts := 0, 0, [];
    }

    ghost function View(): Tally
      reads this
    {
      Tally(matches, suppressed, dropped, alerts, attempts, cooldownUntil)
    }

    /** A matching line: counted, and alerted on unless the watch is cooling down. */
    method Handle(line: string, m: Moment)
      modifies this`matches, this`cooldownUntil, this`alerts, this`suppressed, this`dropped, this`attempts
      ensures View() == Note(old(View()), name, cooldown, line, m)
      ensures matches == old(matches) + 1
      ensures var quiet := old(cooldownUntil).Some? && m.now < old(cooldownUntil).value;
              && suppressed == old(suppressed) + (if quiet then 1 else 0)
              && dropped == old(dropped) + (if !quiet && !m.room then 1 else 0)
              && alerts == old(alerts) + (if !quiet && m.room
                                          then [Alert(name, if |line| <= 300 then line else line[..300] + "\U{2026}", m.now)]
                                          else [])
              && cooldownUntil == (if !quiet && cooldown > 0 then Some(m.now + cooldown) else old(cooldownUntil))
    {
      matches := matches + 1;
      if cooldownUntil.Some? && m.now < cooldownUntil.value {
        suppressed := suppressed + 1;
        return;
      }
      if cooldown > 0 {
        cooldownUntil := Some(m.now + cooldown);
      }
      attempts := attempts + [m.now];
      if m.room {
        alerts := alerts + [Alert(name, CapLine(line), m.now)];
      } else {
        dropped := dropped + 1;
      }
    }

    /** One poll; `ms` has the moment at which each new line is handled. */
    method Poll(f: File, ms: seq<Moment>)
      requires |ms| == |Tail(f, lastSize, lastLine).0|
      modifies this
      ensures var (lines, size, off) := old(Tail(f, lastSize, lastLine));
              && lastSize == size && lastLine == off
              && View() == NoteAll(old(View()), name, cooldown, hit, lines, ms)
    {
      hide Tail, Note;
      var lines, size, off := TailFile(f, lastSize, lastLine);
      lastSize, lastLine := size, off;
      for i := 0 to |lines|
        invariant lastSize == size && lastLine == off
        invariant View() == NoteAll(old(View()), name, cooldown, hit, lines[..i], ms[..i])
      {
        assert lines[..i + 1][..i] == lines[..i] && ms[..i + 1][..i] == ms[..i];
        if hit(lines[i]) {
          Handle(lines[i], ms[i]);
        }
      }
      assert lines[..|lines|] == lines && ms[..|lines|] == ms;
    }
  }

  /** Every match is accounted for, and tried alerts are a cooldown apart. */
  predicate Sound(t: Tally, cooldown: int) {
    && t.matches == |t.sent| + t.suppressed + t.dropped
    && |t.attempts| == |t.sent| + t.dropped
    && (cooldown > 0 ==>
          && (forall i, j :: 0 <= i < j < |t.attempts| ==> t.attempts[i] + cooldown <= t.attempts[j])
          && t.until == if t.attempts == [] then None else Some(t.attempts[|t.attempts| - 1] + cooldown))
    && (cooldown <= 0 ==> t.suppressed == 0 && t.until == None)
  }

  lemma {:induction false} NoteAllSound(t: Tally, watch: string, cooldown: int, hit: string -> bool, lines: seq<string>, ms: seq<Moment>)
    requires |ms| == |lines| && Sound(t, cooldown)
    ensures Sound(NoteAll(t, watch, cooldown, hit, lines, ms), cooldown)
    ensures NoteAll(t, watch, cooldown, hit, lines, ms).matches == t.matches + |Hits(hit, lines)|
  {
    if lines != [] {
      var n := |lines| - 1;
      NoteAllSound(t, watch, cooldown, hit, lines[..n], ms[..n]);
      NoteSound(NoteAll(t, watch, cooldown, hit, lines[..n], ms[..n]), watch, cooldown, lines[n], ms[n]);
    }
  }

  lemma NoteSound(t: Tally, watch: string, cooldown: int, line: string, m: Moment)
    requires Sound(t, cooldown)
    ensures Sound(Note(t, watch, cooldown, line, m), cooldown)
  {
  }

  /** An alert carries a matching line of this poll, cut to three hundred characters, and the time it was handled. */
  predicate FromLines(a: Alert, watch: string, hit: string -> bool, lines: seq<string>, ms: seq<Moment>)
    requires |ms| == |lines|
  {
    exists i :: 0 <= i < |lines| && hit(lines[i]) && ms[i].room
                && a == Alert(watch, if |lines[i]| <= 300 then lines[i] else lines[i][..300] + "\U{2026}", ms[i].now)
  }

  lemma {:induction false} AlertsMean(t: Tally, watch: string, cooldown: int, hit: string -> bool, lines: seq<string>, ms: seq<Moment>)
    requires |ms| == |lines|
    ensures var sent := NoteAll(t, watch, cooldown, hit, lines, ms).sent;
            t.sent <= sent && forall k :: |t.sent| <= k < |sent| ==> FromLines(sent[k], watch, hit, lines, ms)
  {
    if lines != [] {
      var n := |lines| - 1;
      AlertsMean(t, watch, cooldown, hit, lines[..n], ms[..n]);
      var was := NoteAll(t, watch, cooldown, hit, lines[..n], ms[..n]).sent;
      forall k | |t.sent| <= k < |was| ensures FromLines(was[k], watch, hit, lines, ms) {
        assert FromLines(was[k], watch, hit, lines[..n], ms[..n]);
        var i :| 0 <= i < n && hit(lines[..n][i]) && ms[..n][i].room
          && was[k] == Alert(watch, if |lines[..n][i]| <= 300 then lines[..n][i] else lines[..n][i][..300] + "\U{2026}", ms[..n][i].now);
        assert lines[..n][i] == lines[i] && ms[..n][i] == ms[i];
      }
    }
  }

  function Hits(hit: string -> bool, lines: seq<string>): seq<string> {
    if lines == [] then []
    else Hits(hit, lines[..|lines| - 1]) + if hit(lines[|lines| - 1]) then [lines[|lines| - 1]] else []
  }

  // ------------------------------------------------------------------ a watch over its life

  /** One poll: what the file was, and the moments its new lines were handled at. */
  datatype Visit = Visit(file: File, moments: nat -> Moment)

  datatype Life = Life(lastSize: nat, lastOff: nat, lines: seq<string>, tally: Tally)

  const Born := Life(0, 0, [], Fresh)

  function After(l: Life, watch: string, cooldown: int, hit: string -> bool, v: Visit): Life {
    var (lines, size, off) := Tail(v.file, l.lastSize, l.lastOff);
    Life(size, off, l.lines + lines, NoteAll(l.tally, watch, cooldown, hit, lines, seq(|lines|, v.moments)))
  }

  function Live(l: Life, watch: string, cooldown: int, hit: string -> bool, vs: seq<Visit>): Life
    decreases |vs|
  {
    if vs == [] then l else Live(After(l, watch, cooldown, hit, vs[0]), watch, cooldown, hit, vs[1..])
  }

  /** Over any polls whatever: matches are sent, suppressed or dropped, and attempts keep their distance. */
  lemma {:induction false} WatchIsSound(l: Life, watch: string, cooldown: int, hit: string -> bool, vs: seq<Visit>)
    requires Sound(l.tally, cooldown)
    ensures Sound(Live(l, watch, cooldown, hit, vs).tally, cooldown)
    decreases |vs|
  {
    if vs != [] {
      var lines := Tail(vs[0].file, l.lastSize, l.lastOff).0;
      NoteAllSound(l.tally, watch, cooldown, hit, lines, seq(|lines|, vs[0].moments));
      WatchIsSound(After(l, watch, cooldown, hit, vs[0]), watch, cooldown, hit, vs[1..]);
    }
  }

  // ------------------------------------------------------------------ lines across polls

  function Last(s: string): string {
    var parts := Split(s, '\n');
    parts[|parts| - 1]
  }

  function First(s: string): string {
    Split(s, '\n')[0]
  }

  /** Cutting a file in two loses nothing: the cut is at a line's start, or only carriage returns follow it. */
  predicate CleanCut(a: string, b: string) {
    Last(a) == "" || TrimCr(First(b)) == ""
  }

  /** A text is its first part, or its first part, a separator and the rest. */
  lemma {:induction false} SplitFirst(s: string, sep: char) returns (rest: string)
    ensures sep !in Split(s, sep)[0]
    ensures |Split(s, sep)| == 1 ==> s == Split(s, sep)[0]
    ensures |Split(s, sep)| > 1 ==> s == Split(s, sep)[0] + [sep] + rest && Split(s, sep)[1..] == Split(rest, sep)
  {
    rest := "";
    if s != "" {
      var p := Split(s[1..], sep);
      if s[0] == sep {
        rest := s[1..];
        assert s == "" + [sep] + rest && ([""] + p)[1..] == p;
      } else {
        rest := SplitFirst(s[1..], sep);
        assert s == [s[0]] + s[1..];
        assert |p| > 1 ==> [s[0]] + (p[0] + [sep] + rest) == ([s[0]] + p[0]) + [sep] + rest;
      }
    }
  }

  lemma SplitCut(a: string, b: string)
    ensures var p, q := Split(a, '\n'), Split(b, '\n');
            Split(a + b, '\n') == p[..|p| - 1] + [Last(a) + First(b)] + q[1..]
  {
    var rest := SplitFirst(b, '\n');
    hide Split;
    SplitSuffix(a, First(b), '\n');
    if |Split(b, '\n')| > 1 {
      assert a + b == (a + First(b)) + ['\n'] + rest;
      SplitConcat(a + First(b), rest, '\n');
    }
  }

  lemma {:induction false} TrimCrFacts(a: string, b: string)
    ensures TrimCr(b) != "" ==> TrimCr(a + b) == a + TrimCr(b)
    ensures TrimCr(b) == "" ==> TrimCr(a + b) == TrimCr(a)
  {
    if b == "" {
      assert a + b == a;
    } else if b[|b| - 1] == '\r' {
      TrimCrFacts(a, b[..|b| - 1]);
      assert (a + b)[..|a + b| - 1] == a + b[..|b| - 1];
    }
  }

  /** A line cut in two comes out whole exactly if the cut is clean. */
  lemma KeptCut(x: string, y: string)
    ensures Kept(x + y) == Kept(x) + Kept(y) <==> x == "" || TrimCr(y) == ""
  {
    TrimCrFacts(x, y);
    hide TrimCr;
    var t := TrimCr(y);
    if t == "" {
      assert Kept(x + y) == Kept(x) + Kept(y);
    } else {
      assert Kept(x + y) == [x + t] && Kept(y) == [t];
      if x == "" {
        TrimCrEmpty();
        assert x + t == t;
      } else if TrimCr(x) == "" {
        assert |x + t| > |t|;
        assert (Kept(x) + Kept(y))[0] == t;
      } else {
        assert |Kept(x) + Kept(y)| == 2;
      }
    }
  }

  lemma TrimCrEmpty()
    ensures TrimCr("") == ""
  {
  }

  lemma KeptOne(x: string)
    ensures KeptAll([x]) == Kept(x)
  {
    assert [x][1..] == [] && KeptAll([]) == [];
  }

  /** Two polls of a growing file emit exactly its lines if and only if the first ended in a clean cut. */
  lemma LinesCut(a: string, b: string)
    ensures Lines(a + b) == Lines(a) + Lines(b) <==> CleanCut(a, b)
  {
    var h, t := LinesAround(a, b);
    hide Kept, TrimCr;
    CancelMiddle(h, Kept(Last(a) + First(b)), Kept(Last(a)) + Kept(First(b)), t);
    KeptCut(Last(a), First(b));
  }

  /** What a cut can change is only the line it runs through. */
  lemma LinesAround(a: string, b: string) returns (h: seq<string>, t: seq<string>)
    ensures Lines(a + b) == h + Kept(Last(a) + First(b)) + t
    ensures Lines(a) == h + Kept(Last(a)) && Lines(b) == Kept(First(b)) + t
    ensures Lines(a) + Lines(b) == h + (Kept(Last(a)) + Kept(First(b))) + t
  {
    hide Split, TrimCr, Kept, KeptAll;
    var p, q := Split(a, '\n'), Split(b, '\n');
    var head, rest := p[..|p| - 1], q[1..];
    h, t := KeptAll(head), KeptAll(rest);
    SplitCut(a, b);
    assert p == head + [Last(a)] && q == [First(b)] + rest;
    KeptAllConcat(head + [Last(a) + First(b)], rest);
    KeptAllConcat(head, [Last(a) + First(b)]);
    KeptAllConcat(head, [Last(a)]);
    KeptAllConcat([First(b)], rest);
    KeptOne(Last(a) + First(b));
    KeptOne(Last(a));
    KeptOne(First(b));
  }

  /** A cut never loses a line, and if it adds none it leaves the earlier lines as they were. */
  lemma CutNeverLoses(a: string, b: string)
    ensures |Lines(a + b)| <= |Lines(a)| + |Lines(b)|
    ensures |Lines(a + b)| == |Lines(a)| + |Lines(b)| ==> Lines(a) <= Lines(a + b)
  {
    var h, t := LinesAround(a, b);
    var u, v, w := Kept(Last(a) + First(b)), Kept(Last(a)), Kept(First(b));
    KeptWhole(Last(a), First(b));
    hide Kept, TrimCr, Lines;
    assert |Lines(a + b)| == |h| + |u| + |t| && |Lines(a)| + |Lines(b)| == |h| + |v| + |w| + |t|;
    if |u| == |v| + |w| {
      assert v <= u;
      assert (h + u + t)[..|h + v|] == h + v;
    }
  }

  lemma KeptWhole(x: string, y: string)
    ensures |Kept(x + y)| <= |Kept(x)| + |Kept(y)|
    ensures |Kept(x + y)| == |Kept(x)| + |Kept(y)| ==> Kept(x) <= Kept(x + y)
  {
    TrimCrFacts(x, y);
    hide TrimCr;
  }

  lemma CancelMiddle(h: seq<string>, u: seq<string>, v: seq<string>, t: seq<string>)
    ensures h + u + t == h + v + t <==> u == v
  {
    if h + u + t == h + v + t {
      assert |u| == |v|;
      assert u == (h + u + t)[|h|..|h| + |u|];
      assert v == (h + v + t)[|h|..|h| + |v|];
    }
  }

  /** The whole file as of a poll: what it was before when the path is missing or irregular. */
  function Seen(before: string, f: File): string {
    if f.Regular? then f.content else before
  }

  /** The file only grows: it may be missing at a poll, fail to open, or be read short. */
  predicate Grows(before: string, vs: seq<Visit>)
    decreases |vs|
  {
    vs == [] || (before <= Seen(before, vs[0].file) && Grows(Seen(before, vs[0].file), vs[1..]))
  }

  /** How far a poll has read. */
  function ReadTo(f: File, off: nat): (n: nat)
    requires f.Regular? ==> off <= |f.content|
    ensures n >= off && (f.Regular? ==> n <= |f.content|) && (!f.Regular? ==> n == off)
  {
    if f.Regular? then off + Got(f, off) else off
  }

  /** Every poll that went on reading did so from a clean cut. */
  predicate CleanCuts(before: string, off: nat, vs: seq<Visit>)
    requires off <= |before| && Grows(before, vs)
    decreases |vs|
  {
    vs == [] ||
    (var now := Seen(before, vs[0].file);
     var off' := ReadTo(vs[0].file, off);
     CleanCut(now[..off], now[off..off']) && CleanCuts(now, off', vs[1..]))
  }

  /** The part of the file read in the end. */
  function ReadText(before: string, off: nat, vs: seq<Visit>): string
    requires off <= |before| && Grows(before, vs)
    decreases |vs|
  {
    if vs == [] then before[..off] else ReadText(Seen(before, vs[0].file), ReadTo(vs[0].file, off), vs[1..])
  }

  /** The watch has seen the file as `text`, and read some of it. */
  predicate At(l: Life, text: string) { l.lastSize == |text| && l.lastOff <= |text| }

  /**
   Over polls of a growing file, whatever they manage to read, the lines handled are exactly the
   non-empty lines of the part read, each once and in order, if and only if every poll went on
   from a clean cut.
   */
  lemma {:induction false} GrowingFile(l: Life, before: string, watch: string, cooldown: int, hit: string -> bool, vs: seq<Visit>)
    requires At(l, before) && l.lines == Lines(before[..l.lastOff]) && Grows(before, vs)
    ensures var l' := Live(l, watch, cooldown, hit, vs);
            var text := ReadText(before, l.lastOff, vs);
            l'.lastOff == |text| && (l'.lines == Lines(text) <==> CleanCuts(before, l.lastOff, vs))
    decreases |vs|
  {
    if vs != [] {
      var now, off := Seen(before, vs[0].file), ReadTo(vs[0].file, l.lastOff);
      AfterGrows(l, before, watch, cooldown, hit, vs[0]);
      Rejoin(before, now, l.lastOff, off);
      LinesCut(now[..l.lastOff], now[l.lastOff..off]);
      CutNeverLoses(now[..l.lastOff], now[l.lastOff..off]);
      hide After, Lines, CleanCut, Seen, ReadTo;
      var l1 := After(l, watch, cooldown, hit, vs[0]);
      if CleanCut(now[..l.lastOff], now[l.lastOff..off]) {
        GrowingFile(l1, now, watch, cooldown, hit, vs[1..]);
      } else {
        WrongStaysWrong(l1, now, watch, cooldown, hit, vs[1..]);
      }
    }
  }

  lemma Rejoin(a: string, c: string, i: nat, j: nat)
    requires a <= c && i <= |a| && i <= j <= |c|
    ensures c[..i] == a[..i] && c[..i] + c[i..j] == c[..j]
  {
  }

  /** The lines handled differ from those of the part read, and are not fewer: later polls cannot mend that. */
  lemma {:induction false} WrongStaysWrong(l: Life, before: string, watch: string, cooldown: int, hit: string -> bool, vs: seq<Visit>)
    requires At(l, before) && Grows(before, vs)
    requires l.lines != Lines(before[..l.lastOff]) && |l.lines| >= |Lines(before[..l.lastOff])|
    ensures var l' := Live(l, watch, cooldown, hit, vs);
            var text := ReadText(before, l.lastOff, vs);
            l'.lastOff == |text| && l'.lines != Lines(text)
    decreases |vs|
  {
    if vs != [] {
      var now, off := Seen(before, vs[0].file), ReadTo(vs[0].file, l.lastOff);
      AfterGrows(l, before, watch, cooldown, hit, vs[0]);
      Rejoin(before, now, l.lastOff, off);
      CutNeverLoses(now[..l.lastOff], now[l.lastOff..off]);
      hide After, Lines, Seen, ReadTo;
      var l1 := After(l, watch, cooldown, hit, vs[0]);
      StillWrong(l.lines, Lines(now[..l.lastOff]), Lines(now[l.lastOff..off]), Lines(now[..off]));
      WrongStaysWrong(l1, now, watch, cooldown, hit, vs[1..]);
    }
  }

  lemma StillWrong(e: seq<string>, a: seq<string>, b: seq<string>, ab: seq<string>)
    requires e != a && |e| >= |a| && |ab| <= |a| + |b|
    requires |ab| == |a| + |b| ==> a <= ab
    ensures e + b != ab && |e + b| >= |ab|
  {
    assert (e + b)[..|e|] == e;
  }

  /** A poll of a grown file handles the lines of what it reads on. */
  lemma AfterGrows(l: Life, before: string, watch: string, cooldown: int, hit: string -> bool, v: Visit)
    requires At(l, before) && before <= Seen(before, v.file)
    ensures var l' := After(l, watch, cooldown, hit, v);
            var now, off := Seen(before, v.file), ReadTo(v.file, l.lastOff);
            At(l', now) && l'.lastOff == off && l'.lines == l.lines + Lines(now[l.lastOff..off])
  {
    hide Lines, NoteAll;
    var now, off := Seen(before, v.file), ReadTo(v.file, l.lastOff);
    NoLines();
    assert off == l.lastOff ==> now[l.lastOff..off] == "";
    assert l.lines + [] == l.lines;
  }

  /** Once a poll has read everything, the part read is the whole file. */
  lemma {:induction false} ReadAll(before: string, off: nat, vs: seq<Visit>)
    requires off <= |before| && Grows(before, vs) && vs != []
    requires var f := vs[|vs| - 1].file; f.Regular? && f.openable && f.limit >= |f.content|
    ensures ReadText(before, off, vs) == vs[|vs| - 1].file.content
    decreases |vs|
  {
    var now, off' := Seen(before, vs[0].file), ReadTo(vs[0].file, off);
    if |vs| == 1 {
      assert now[..off'] == now;
      assert ReadText(now, off', vs[1..]) == now[..off'];
    } else {
      ReadAll(now, off', vs[1..]);
    }
  }

  lemma TwoVisits(l: Life, watch: string, cooldown: int, hit: string -> bool, v: Visit, w: Visit)
    ensures Live(l, watch, cooldown, hit, [v, w]) == After(After(l, watch, cooldown, hit, v), watch, cooldown, hit, w)
  {
    hide After;
    assert [v, w][1..] == [w] && [w][1..] == [];
    var l1 := After(l, watch, cooldown, hit, v);
    var l2 := After(l1, watch, cooldown, hit, w);
    assert Live(l2, watch, cooldown, hit, []) == l2;
    assert Live(l1, watch, cooldown, hit, [w]) == l2;
  }

  /** A poll that reads all that is new. */
  lemma FullVisit(l: Life, before: string, more: string, watch: string, cooldown: int, hit: string -> bool, ms: nat -> Moment)
    requires At(l, before) && l.lastOff == |before|
    ensures var l' := After(l, watch, cooldown, hit, Visit(Regular(before + more, true, |before + more|), ms));
            At(l', before + more) && l'.lastOff == |before + more| && l'.lines == l.lines + Lines(more)
  {
    hide Lines, NoteAll;
    var v := Visit(Regular(before + more, true, |before + more|), ms);
    AfterGrows(l, before, watch, cooldown, hit, v);
    assert (before + more)[|before|..|before + more|] == more;
  }

  /** A line that is half written at the first poll is handled as two. */
  lemma HalfLine(x: string, y: string, watch: string, cooldown: int, hit: string -> bool, ms: nat -> Moment)
    requires PlainText(x) && PlainText(y)
    ensures var first, second := Visit(Regular(x, true, |x|), ms), Visit(Regular(x + y, true, |x + y|), ms);
            && Live(Born, watch, cooldown, hit, [first, second]).lines == [x, y]
            && Lines(x + y) == [x + y]
  {
    hide After, Lines, NoteAll, Live;
    var first, second := Visit(Regular(x, true, |x|), ms), Visit(Regular(x + y, true, |x + y|), ms);
    LineOfPlain(x);
    LineOfPlain(y);
    LineOfPlain(x + y);
    FullVisit(Born, "", x, watch, cooldown, hit, ms);
    assert "" + x == x && [] + [x] == [x];
    FullVisit(After(Born, watch, cooldown, hit, first), x, y, watch, cooldown, hit, ms);
    assert [x] + [y] == [x, y];
    TwoVisits(Born, watch, cooldown, hit, first, second);
  }

  predicate PlainText(s: string) { s != "" && '\n' !in s && '\r' !in s }

  lemma LineOfPlain(s: string)
    requires PlainText(s)
    ensures Lines(s) == [s]
  {
    SplitHasNoSep(s, '\n');
    assert s[|s| - 1] in s && TrimCr(s) == s;
    KeptOne(s);
  }

  lemma NoLines()
    ensures Lines("") == []
  {
    assert Split("", '\n') == [""] && [""][1..] == [];
  }

  /** A cut right behind a newline is clean, whatever follows. */
  lemma NewlineIsClean(a: string, b: string)
    requires a == "" || a[|a| - 1] == '\n'
    ensures CleanCut(a, b)
  {
    if a != "" {
      var body := a[..|a| - 1];
      assert a == body + ['\n'] + "";
      SplitConcat(body, "", '\n');
    }
  }
}
