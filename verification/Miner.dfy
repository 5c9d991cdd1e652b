/**
 Patterns mined from prompt shapes. The text the miner writes is a list of elements joined by
 `\s+` and anchored by the router; here it is that list, with the matching relation of the
 regular expressions it stands for.
 */
module Miner {
  import opened Common
  import opened Text
  import opened Normalize

  /** `(\S+)`, `\d+`, `"[^"]*"`, or a quoted literal. */
  datatype Elem = Capture | Number | Quoted | Literal(text: string)

  function ElemOf(f: string): Elem {
    if f == "<path>" then Capture
    else if f == "<n>" then Number
    else if f == "<q>" then Quoted
    else Literal(f)
  }

  function Elems(fs: seq<string>): (es: seq<Elem>)
    ensures |es| == |fs| && forall i :: 0 <= i < |fs| ==> es[i] == ElemOf(fs[i])
  {
    if fs == [] then [] else [ElemOf(fs[0])] + Elems(fs[1..])
  }

  function Paths(es: seq<Elem>): nat {
    if es == [] then 0 else (if es[0].Capture? then 1 else 0) + Paths(es[1..])
  }

  /** A shape gives a pattern only when it has exactly one path slot. */
  function Synthesize(shape: string): Option<seq<Elem>> {
    var es := Elems(Fields(shape));
    if Paths(es) == 1 then Some(es) else None
  }

  lemma {:induction false} PathsAppend(es: seq<Elem>, e: Elem)
    ensures Paths(es + [e]) == Paths(es) + if e.Capture? then 1 else 0
  {
    if es == [] {
      assert es + [e] == [e];
    } else {
      assert (es + [e])[1..] == es[1..] + [e];
      PathsAppend(es[1..], e);
    }
  }

  method ElemFor(f: string) returns (e: Elem)
    ensures e == ElemOf(f)
  {
    match f {
      case "<path>" => return Capture;
      case "<n>" => return Number;
      case "<q>" => return Quoted;
      case _ => return Literal(f);
    }
  }

  method SynthesizePattern(shape: string) returns (r: Option<seq<Elem>>)
    ensures r == Synthesize(shape)
  {
    var fields := Fields(shape);
    var parts: seq<Elem> := [];
    var paths := 0;
    hide Fields, ElemOf;
    for i := 0 to |fields|
      invariant parts == Elems(fields)[..i] && paths == Paths(parts)
    {
      var part := ElemFor(fields[i]);
      PathsAppend(parts, part);
      parts := parts + [part];
      if part.Capture? {
        paths := paths + 1;
      }
    }
    assert parts == Elems(fields);
    r := if paths != 1 then None else Some(parts);
  }

  // ------------------------------------------------------------------ matching

  /** White space of the regular-expression class `\s`. */
  predicate ReSpace(c: char) {
    c == '\t' || c == '\n' || c == '\U{0C}' || c == '\r' || c == ' '
  }

  predicate Digits(w: string) {
    forall c :: c in w ==> '0' <= c <= '9'
  }

  predicate ElemMatches(e: Elem, w: string) {
    match e
    case Capture => w != "" && forall c :: c in w ==> !ReSpace(c)
    case Number => w != "" && Digits(w)
    case Quoted => |w| >= 2 && w[0] == '"' && w[|w| - 1] == '"' && '"' !in w[1..|w| - 1]
    case Literal(text) => w == text
  }

  predicate ReSpaces(g: string) {
    g != "" && forall c :: c in g ==> ReSpace(c)
  }

  /** What a word matched by `e` contributes to the captures. */
  function Captured(e: Elem, w: string): seq<string> {
    if e.Capture? then [w] else []
  }

  /** `s` as a whole matches the elements with `\s+` between neighbours, capturing `caps`. */
  ghost predicate Matches(es: seq<Elem>, s: string, caps: seq<string>)
    decreases |es|
  {
    if |es| == 0 then s == "" && caps == []
    else if |es| == 1 then ElemMatches(es[0], s) && caps == Captured(es[0], s)
    else exists i: nat, j: nat, rest: seq<string> {:trigger Gap(s, i, j), Matches(es[1..], s[j..], rest)} ::
        && Gap(s, i, j)
        && ElemMatches(es[0], s[..i]) && Matches(es[1..], s[j..], rest)
        && caps == Captured(es[0], s[..i]) + rest
  }

  /** A non-empty run of `\s` characters at `s[i..j]`. */
  predicate Gap(s: string, i: nat, j: nat) {
    i < j <= |s| && ReSpaces(s[i..j])
  }

  /** The only white space is the kind `\s` matches. */
  predicate PlainSpaces(s: string) {
    forall c :: c in s && IsSpace(c) ==> ReSpace(c)
  }

  predicate GoodElem(e: Elem) {
    e.Literal? ==> e.text != "" && SpaceFree(e.text)
  }

  function AllCaptured(es: seq<Elem>, toks: seq<string>): seq<string>
    requires |es| == |toks|
  {
    if es == [] then [] else Captured(es[0], toks[0]) + AllCaptured(es[1..], toks[1..])
  }

  predicate Fit(es: seq<Elem>, toks: seq<string>) {
    |es| == |toks| && forall i :: 0 <= i < |es| ==> ElemMatches(es[i], toks[i])
  }

  lemma WordIsField(e: Elem, w: string, s: string)
    requires GoodElem(e) && !e.Quoted? && ElemMatches(e, w) && PlainSpaces(s)
    requires forall c :: c in w ==> c in s
    ensures w != "" && SpaceFree(w) && Trimmed(w)
  {
    assert w != "" ==> w[0] in w && w[|w| - 1] in w;
  }

  lemma WordsTrimmed(w: string, g: string, tail: string)
    requires w != "" && Trimmed(w) && tail != "" && Trimmed(tail)
    ensures Trimmed(w + g + tail)
  {
    var s := w + g + tail;
    assert s[0] == w[0] && s[|s| - 1] == tail[|tail| - 1];
  }

  lemma {:induction false} SkipSpaces(g: string, s: string)
    requires forall c :: c in g ==> IsSpace(c)
    ensures Fields(g + s) == Fields(s)
  {
    if g == "" {
      assert g + s == s;
    } else {
      assert (g + s)[1..] == g[1..] + s && g[0] in g;
      SkipSpaces(g[1..], s);
    }
  }

  /** A word, a gap and a rest are read as the word and the fields of the rest. */
  lemma FirstField(w: string, g: string, s: string)
    requires w != "" && SpaceFree(w) && g != "" && forall c :: c in g ==> IsSpace(c)
    ensures Fields(w + g + s) == [w] + Fields(s)
  {
    assert w + g + s == w + (g + s);
    FieldsOfRun(w, g + s, "");
    assert "" + w == w;
    assert (g + s)[1..] == g[1..] + s && g[0] in g;
    SkipSpaces(g[1..], s);
  }

  lemma OneField(w: string)
    requires w != "" && SpaceFree(w)
    ensures Fields(w) == [w]
  {
    FieldsOfRun(w, "", "");
    assert w + "" == w && "" + w == w;
  }

  /** The first word of `s`, and the white space after it. */
  lemma {:induction false} Decompose(s: string) returns (i: nat, j: nat)
    requires s != "" && !IsSpace(s[0])
    ensures 0 < i <= j <= |s| && SpaceFree(s[..i]) && forall c :: c in s[i..j] ==> IsSpace(c)
    ensures i == |s| || i < j
    ensures j < |s| ==> !IsSpace(s[j])
    ensures Trimmed(s) && i < |s| ==> j < |s|
  {
    i := 1;
    while i < |s| && !IsSpace(s[i])
      invariant 0 < i <= |s| && SpaceFree(s[..i])
    {
      assert s[..i + 1] == s[..i] + [s[i]];
      i := i + 1;
    }
    j := i;
    while j < |s| && IsSpace(s[j])
      invariant i <= j <= |s| && forall c :: c in s[i..j] ==> IsSpace(c)
      invariant j == i && i < |s| ==> IsSpace(s[i])
      invariant j > i ==> IsSpace(s[j - 1])
    {
      assert s[i..j + 1] == s[i..j] + [s[j]];
      j := j + 1;
    }
  }

  /** A first word, a gap, and a rest whose fields fit: then the fields of the whole fit. */
  lemma MatchJoins(es: seq<Elem>, s: string, i: nat, j: nat)
    requires es != [] && GoodElem(es[0]) && !es[0].Quoted? && PlainSpaces(s)
    requires Gap(s, i, j) && ElemMatches(es[0], s[..i])
    requires s[j..] != "" && Trimmed(s[j..]) && Fit(es[1..], Fields(s[j..]))
    ensures Fit(es, Fields(s)) && s != "" && Trimmed(s)
    ensures AllCaptured(es, Fields(s)) == Captured(es[0], s[..i]) + AllCaptured(es[1..], Fields(s[j..]))
  {
    var w, g, tail := s[..i], s[i..j], s[j..];
    assert s == w + g + tail;
    assert forall c :: c in g ==> IsSpace(c);
    hide GoodElem, Fields, ElemMatches, Trimmed, SpaceFree;
    WordIsField(es[0], w, s);
    FirstField(w, g, tail);
    FitStep(es, [w] + Fields(tail));
    assert ([w] + Fields(tail))[1..] == Fields(tail);
    WordsTrimmed(w, g, tail);
  }

  /** Without a quoted slot, whatever matches is the field list, element by element. */
  lemma {:induction false} MatchIsFields(es: seq<Elem>, s: string, caps: seq<string>)
    requires es != [] && (forall e :: e in es ==> GoodElem(e) && !e.Quoted?)
    requires PlainSpaces(s) && Matches(es, s, caps)
    ensures Fit(es, Fields(s)) && caps == AllCaptured(es, Fields(s))
    ensures s != "" && Trimmed(s)
    decreases |es|
  {
    assert es[0] in es && GoodElem(es[0]) && !es[0].Quoted?;
    hide GoodElem, PlainSpaces, Fields, ElemMatches, Trimmed, SpaceFree;
    if |es| == 1 {
      WordIsField(es[0], s, s);
      OneField(s);
      assert AllCaptured(es, [s]) == Captured(es[0], s) + [];
    } else {
      var i: nat, j: nat, rest: seq<string> :|
        Gap(s, i, j) && ElemMatches(es[0], s[..i]) && Matches(es[1..], s[j..], rest)
        && caps == Captured(es[0], s[..i]) + rest;
      hide Matches, Fit, AllCaptured;
      TailOf(s, j);
      MatchIsFields(es[1..], s[j..], rest);
      MatchJoins(es, s, i, j);
    }
  }

  lemma TailOf(s: string, j: nat)
    requires j <= |s| && PlainSpaces(s)
    ensures PlainSpaces(s[j..])
  {
    assert forall c :: c in s[j..] ==> c in s;
  }

  lemma FitStep(es: seq<Elem>, toks: seq<string>)
    requires es != [] && toks != []
    ensures Fit(es, toks) <==> ElemMatches(es[0], toks[0]) && Fit(es[1..], toks[1..])
    ensures |es| == |toks| ==> AllCaptured(es, toks) == Captured(es[0], toks[0]) + AllCaptured(es[1..], toks[1..])
  {
    if ElemMatches(es[0], toks[0]) && Fit(es[1..], toks[1..]) {
      forall k | 0 <= k < |es| ensures ElemMatches(es[k], toks[k]) {
        assert k > 0 ==> es[k] == es[1..][k - 1] && toks[k] == toks[1..][k - 1];
      }
    }
    if Fit(es, toks) {
      forall k | 0 <= k < |es[1..]| ensures ElemMatches(es[1..][k], toks[1..][k]) {
        assert es[1..][k] == es[k + 1] && toks[1..][k] == toks[k + 1];
      }
    }
  }

  /** ... and a field list that fits does match. */
  lemma {:induction false} FieldsMatch(es: seq<Elem>, s: string)
    requires es != [] && PlainSpaces(s) && s != "" && Trimmed(s)
    requires Fit(es, Fields(s))
    ensures Matches(es, s, AllCaptured(es, Fields(s)))
    decreases |es|
  {
    var i, j := Decompose(s);
    var w, g, tail := s[..i], s[i..j], s[j..];
    assert s == w + g + tail;
    if i == |s| {
      assert w == s;
      OneField(s);
      assert AllCaptured(es, [s]) == Captured(es[0], s) + [];
    } else {
      FirstField(w, g, tail);
      FitStep(es, [w] + Fields(tail));
      assert ([w] + Fields(tail))[1..] == Fields(tail);
      TailOf(s, j);
      TailHasFields(tail);
      assert tail[|tail| - 1] == s[|s| - 1];
      FieldsMatch(es[1..], tail);
      assert Gap(s, i, j) by {
        assert forall c :: c in g ==> c in s;
      }
    }
  }

  lemma TailHasFields(s: string)
    requires s != "" && !IsSpace(s[0])
    ensures Fields(s) != []
  {
    var i, j := Decompose(s);
    if i == |s| {
      assert s[..i] == s;
      OneField(s);
    } else {
      assert s == s[..i] + s[i..j] + s[j..];
      FirstField(s[..i], s[i..j], s[j..]);
    }
  }

  /** The element of a quoted span accepts double quotes only. */
  lemma {:induction false} QuotedNeedsQuote(es: seq<Elem>, s: string, caps: seq<string>)
    requires Quoted in es && Matches(es, s, caps)
    ensures '"' in s
    decreases |es|
  {
    if |es| == 1 || es[0] == Quoted {
      FirstWord(es, s, caps);
    } else {
      var i: nat, j: nat, rest: seq<string> :|
        Gap(s, i, j) && ElemMatches(es[0], s[..i]) && Matches(es[1..], s[j..], rest)
        && caps == Captured(es[0], s[..i]) + rest;
      QuotedNeedsQuote(es[1..], s[j..], rest);
    }
  }

  lemma FirstWord(es: seq<Elem>, s: string, caps: seq<string>)
    requires es != [] && Matches(es, s, caps)
    ensures exists i :: 0 <= i <= |s| && ElemMatches(es[0], s[..i])
    ensures es[0] == Quoted ==> '"' in s
  {
    if |es| == 1 {
      assert s[..|s|] == s;
    }
  }

  // ------------------------------------------------------------------ the mined rule and its source

  /** What the miner assumes of a prompt's tokens without checking it. */
  predicate CleanToken(t: string) {
    t != "<n>" && t != "<q>" && (LooksNumeric(t) && !PathLike(t) ==> '.' !in t && ',' !in t)
  }

  predicate CleanTokens(toks: seq<string>) {
    forall t :: t in toks ==> CleanToken(t)
  }

  predicate IsPath(t: string) { Slot(t) == "<path>" }

  /** Position of the first token that fills a path slot. */
  function PathAt(toks: seq<string>): nat {
    if toks == [] || IsPath(toks[0]) then 0 else 1 + PathAt(toks[1..])
  }

  lemma PathSlot(t: string)
    ensures ElemOf(Slot(t)).Capture? <==> IsPath(t)
  {
    hide Slot;
  }

  /** The slots of a token list, one token at a time. */
  lemma ElemsTail(toks: seq<string>)
    requires toks != []
    ensures var es := Elems(Slots(toks));
            && es != [] && es[0] == ElemOf(Slot(toks[0])) && es[1..] == Elems(Slots(toks[1..]))
  {
    hide Slot, ElemOf;
    assert Slots(toks)[1..] == Slots(toks[1..]);
  }

  lemma {:induction false} NoPathNoCapture(toks: seq<string>)
    requires Paths(Elems(Slots(toks))) == 0
    ensures AllCaptured(Elems(Slots(toks)), toks) == []
  {
    hide Slot, ElemOf;
    if toks != [] {
      ElemsTail(toks);
      NoPathNoCapture(toks[1..]);
    }
  }

  lemma {:induction false} CapturesThePath(toks: seq<string>)
    requires Paths(Elems(Slots(toks))) == 1
    ensures PathAt(toks) < |toks| && IsPath(toks[PathAt(toks)])
    ensures AllCaptured(Elems(Slots(toks)), toks) == [toks[PathAt(toks)]]
  {
    hide Slot, ElemOf, IsPath, Elems, Slots;
    ElemsEmpty();
    ElemsTail(toks);
    PathSlot(toks[0]);
    if IsPath(toks[0]) {
      NoPathNoCapture(toks[1..]);
    } else {
      CapturesThePath(toks[1..]);
    }
  }

  lemma ElemsEmpty()
    ensures Paths(Elems(Slots([]))) == 0
  {
  }

  lemma TokenFits(t: string)
    requires t != "" && SpaceFree(t) && QuoteFree(t)
    ensures ElemMatches(ElemOf(Slot(t)), t) <==> CleanToken(t)
    ensures GoodElem(ElemOf(Slot(t)))
  {
    assert '<' in "<n>" && !NumberChar('<');
    assert t[0] in t;
    if LooksNumeric(t) {
      assert Digits(t) <==> '.' !in t && ',' !in t;
    }
    assert Digits(t) ==> t != "<n>" && t != "<q>" by {
      assert "<n>"[0] == '<' && "<q>"[0] == '<';
    }
  }

  lemma SynthesizedFrom(p: string)
    requires Trimmed(p) && QuoteFree(p)
    ensures Fields(Normal(p)) == Slots(Fields(p))
    ensures AreFields(Fields(p)) && forall f :: f in Fields(p) ==> QuoteFree(f)
  {
    TrimIsTrimmed(p);
    CollapseQuoteFree(p, false);
    PromptFieldsFacts(p);
    SlotsAreFields(Fields(p));
    FieldsOfJoin(Slots(Fields(p)));
  }

  lemma FitIffClean(toks: seq<string>)
    requires AreFields(toks) && forall f :: f in toks ==> QuoteFree(f)
    ensures Fit(Elems(Slots(toks)), toks) <==> CleanTokens(toks)
    ensures forall e :: e in Elems(Slots(toks)) ==> GoodElem(e)
  {
    hide Slot, ElemOf, ElemMatches, CleanToken, GoodElem, QuoteFree;
    var es := Elems(Slots(toks));
    forall i | 0 <= i < |toks|
      ensures GoodElem(es[i]) && (ElemMatches(es[i], toks[i]) <==> CleanToken(toks[i]))
    {
      assert toks[i] in toks;
      TokenFits(toks[i]);
    }
    assert Fit(es, toks) <==> forall i :: 0 <= i < |toks| ==> CleanToken(toks[i]);
  }

  lemma NoDoubleQuote(p: string)
    requires QuoteFree(p)
    ensures '"' !in p
  {
  }

  /** Only the placeholder itself gives a quoted slot to a prompt without quotes. */
  lemma SlotOfQuoted(toks: seq<string>)
    requires Quoted in Elems(Slots(toks))
    ensures !CleanTokens(toks)
  {
    var es := Elems(Slots(toks));
    var i :| 0 <= i < |es| && es[i] == Quoted;
    assert toks[i] in toks && ElemOf(Slot(toks[i])) == Quoted;
  }

  /**
   The mined pattern against the prompt it came from. For a trimmed prompt without quotes,
   whose white space is plain, that yields a pattern at all: the pattern matches the prompt
   exactly when every number-like token is all digits and no token is a literal placeholder,
   and then the capture can only be the path token.
   */
  lemma MinedMatchesSource(p: string, caps: seq<string>)
    requires Trimmed(p) && PlainSpaces(p) && QuoteFree(p)
    requires Synthesize(Normal(p)).Some?
    ensures var toks := Fields(p);
            && PathAt(toks) < |toks| && IsPath(toks[PathAt(toks)])
            && (Matches(Synthesize(Normal(p)).value, p, caps) <==>
                CleanTokens(toks) && caps == [toks[PathAt(toks)]])
  {
    hide Fit, CleanTokens, PlainSpaces, QuoteFree, Matches, AllCaptured, GoodElem;
    var toks := Fields(p);
    SynthesizedFrom(p);
    var es := Elems(Slots(toks));
    CapturesThePath(toks);
    FitIffClean(toks);
    assert es != [] by { assert Paths([]) == 0; }
    if Quoted in es {
      SlotOfQuoted(toks);
    } else if Matches(es, p, caps) {
      MatchIsFields(es, p, caps);
    }
    if Quoted in es && Matches(es, p, caps) {
      QuotedNeedsQuote(es, p, caps);
    }
    assert '"' !in p by { NoDoubleQuote(p); }
    if Fit(es, toks) {
      assert p != "" by { assert Fields("") == []; }
      FieldsMatch(es, p);
    }
  }

  lemma FractionFields()
    ensures Fields("3.5 a/b") == ["3.5", "a/b"]
  {
    var toks := ["3.5", "a/b"];
    assert Suffixes(["a/b"], " ") == " a/b";
    assert toks[1..] == ["a/b"];
    assert Join(toks, " ") == "3.5 a/b";
    FieldsOfJoin(toks);
  }

  lemma FractionSlots()
    ensures Slot("3.5") == "<n>" && Slot("a/b") == "<path>"
    ensures !CleanTokens(["3.5", "a/b"])
  {
    var t := "3.5";
    assert forall c :: c in t ==> NumberChar(c);
    assert t[0] == '3' && t[1] == '.';
    assert '3' in t && '.' in t;
    assert t in ["3.5", "a/b"] && !PathLike(t) && LooksNumeric(t) && '.' in t;
    assert "a/b"[1] == '/';
  }

  lemma FractionShape()
    ensures Synthesize(Normal("3.5 a/b")) == Some([Number, Capture])
    ensures !CleanTokens(Fields("3.5 a/b"))
  {
    hide Slot, CleanTokens, Fields, Normal;
    var p := "3.5 a/b";
    FractionFields();
    assert Trimmed(p) && QuoteFree(p);
    SynthesizedFrom(p);
    FractionSlots();
    assert Slots(["3.5", "a/b"]) == ["<n>", "<path>"];
    assert Elems(["<n>", "<path>"]) == [Number, Capture];
    assert [Number, Capture][1..] == [Capture];
    assert Paths([Capture]) == 1;
  }

  /** A decimal fraction is mined into a pattern that never matches the prompt it came from. */
  lemma FractionNeverMatches(caps: seq<string>)
    ensures Synthesize(Normal("3.5 a/b")) == Some([Number, Capture])
    ensures !Matches([Number, Capture], "3.5 a/b", caps)
  {
    FractionShape();
    FractionPlain();
    hide *;
    MinedMatchesSource("3.5 a/b", caps);
  }

  lemma FractionPlain()
    ensures Trimmed("3.5 a/b") && PlainSpaces("3.5 a/b") && QuoteFree("3.5 a/b")
  {
  }

  // ------------------------------------------------------------------ quoted spans

  /**
   The shape has one slot for a span in any of three quote characters. A prompt that has such a
   slot without holding a double quote is never matched by the pattern mined from it.
   */
  lemma OtherQuotesNeverMatch(p: string, caps: seq<string>)
    requires Synthesize(Normal(p)).Some? && Quoted in Synthesize(Normal(p)).value && '"' !in p
    ensures !Matches(Synthesize(Normal(p)).value, p, caps)
  {
    var es := Synthesize(Normal(p)).value;
    hide Matches;
    if Matches(es, p, caps) {
      QuotedNeedsQuote(es, p, caps);
    }
  }

  lemma SpanFields()
    ensures Fields("<q> a/b") == ["<q>", "a/b"]
  {
    var toks := ["<q>", "a/b"];
    assert Suffixes(["a/b"], " ") == " a/b";
    assert toks[1..] == ["a/b"];
    assert Join(toks, " ") == "<q> a/b";
    FieldsOfJoin(toks);
  }

  lemma SpanCollapses(q: char, x: char, t: string)
    requires IsQuote(q) && !IsQuote(x) && QuoteFree(t)
    ensures Collapse([q] + ([x] + ([q] + t)), false) == "<q>" + t
  {
    CollapseQuoteFree(t, false);
    assert ([q] + t)[1..] == t && Collapse([q] + t, true) == "" + Collapse(t, false);
    assert ([x] + ([q] + t))[1..] == [q] + t;
    assert Collapse([x] + ([q] + t), true) == "" + Collapse([q] + t, true);
    assert ([q] + ([x] + ([q] + t)))[1..] == [x] + ([q] + t);
  }

  lemma SpanShape()
    ensures Synthesize(Normal("'x' a/b")) == Some([Quoted, Capture])
  {
    hide Slot, Fields, Collapse;
    var p := "'x' a/b";
    assert Trimmed(p);
    TrimIsTrimmed(p);
    SpanCollapses('\'', 'x', " a/b");
    assert p == ['\''] + (['x'] + (['\''] + " a/b")) && "<q>" + " a/b" == "<q> a/b";
    SpanFields();
    assert Slot("<q>") == "<q>" && Slot("a/b") == "<path>" by { SpanSlots(); }
    assert Slots(["<q>", "a/b"]) == ["<q>", "<path>"];
    assert Join(["<q>", "<path>"], " ") == "<q> <path>";
    SpanShapeFields();
    assert Elems(["<q>", "<path>"]) == [Quoted, Capture];
    assert [Quoted, Capture][1..] == [Capture];
    assert Paths([Capture]) == 1;
  }

  lemma SpanShapeFields()
    ensures Fields("<q> <path>") == ["<q>", "<path>"] && Join(["<q>", "<path>"], " ") == "<q> <path>"
  {
    var toks := ["<q>", "<path>"];
    assert Suffixes(["<path>"], " ") == " <path>";
    assert toks[1..] == ["<path>"];
    assert Join(toks, " ") == "<q> <path>";
    FieldsOfJoin(toks);
  }

  lemma SpanSlots()
    ensures Slot("<q>") == "<q>" && Slot("a/b") == "<path>"
  {
    var t := "<q>";
    assert t[0] == '<' && t[0] in t && !NumberChar('<');
    assert '/' !in t && '\\' !in t;
    assert "a/b"[1] == '/';
  }

  /** A prompt in single quotes is mined into a pattern that never matches it. */
  lemma SingleQuotesNeverMatch(caps: seq<string>)
    ensures Synthesize(Normal("'x' a/b")) == Some([Quoted, Capture])
    ensures !Matches([Quoted, Capture], "'x' a/b", caps)
  {
    SpanShape();
    OtherQuotesNeverMatch("'x' a/b", caps);
  }

  lemma ShapeFields(p: string)
    ensures Fields(Normal(p)) == Slots(PromptFields(p))
    ensures AreFields(PromptFields(p)) && AreFields(Slots(PromptFields(p)))
  {
    PromptFieldsFacts(p);
    SlotsAreFields(PromptFields(p));
    FieldsOfJoin(Slots(PromptFields(p)));
  }

  lemma {:induction false} GoodElems(fs: seq<string>)
    requires AreFields(fs)
    ensures forall e :: e in Elems(fs) ==> GoodElem(e)
  {
    var es := Elems(fs);
    forall i | 0 <= i < |es| ensures GoodElem(es[i]) {
      assert fs[i] in fs;
    }
  }

  /**
   A prompt with quotes in it, whose pattern has no quoted slot: the pattern matches the prompt
   exactly when the prompt's own fields fit it, and then the captures can only be those fields.
   */
  lemma UnquotedSlotsIff(p: string, caps: seq<string>)
    requires Trimmed(p) && PlainSpaces(p)
    requires Synthesize(Normal(p)).Some? && Quoted !in Synthesize(Normal(p)).value
    ensures var es := Synthesize(Normal(p)).value;
            Matches(es, p, caps) <==> Fit(es, Fields(p)) && caps == AllCaptured(es, Fields(p))
  {
    var es := Synthesize(Normal(p)).value;
    ShapeFields(p);
    GoodElems(Fields(Normal(p)));
    assert es != [] by { assert Paths([]) == 0; }
    hide Fit, PlainSpaces, Matches, AllCaptured, GoodElem, Normal;
    if Matches(es, p, caps) {
      MatchIsFields(es, p, caps);
    }
    if Fit(es, Fields(p)) {
      assert p != "" by { assert Fields("") == [] && |Fields(p)| == |es| by { FitSize(es, Fields(p)); } }
      FieldsMatch(es, p);
    }
  }

  lemma FitSize(es: seq<Elem>, toks: seq<string>)
    requires Fit(es, toks)
    ensures |es| == |toks|
  {
  }

  lemma QuotedPathShape()
    ensures Synthesize(Normal("'a'/b")) == Some([Capture])
  {
    var p, t := "'a'/b", "/b";
    assert p == ['\''] + (['a'] + (['\''] + t));
    SpanCollapses('\'', 'a', t);
    var f := "<q>/b";
    assert "<q>" + t == f && f[3] == '/' && SpaceFree(f);
    TrimIsTrimmed(p);
    OneField(f);
    hide Fields, Collapse;
    assert PromptFields(p) == [f];
    ShapeFields(p);
    hide Normal;
    assert Slot(f) == "<path>" && Slots([f]) == ["<path>"];
    assert Elems(["<path>"]) == [Capture] && Paths([Capture]) == 1 by { assert [Capture][1..] == []; }
  }

  /** Quotes inside a path leave a plain path slot, and the pattern matches. */
  lemma QuotedPathMatches()
    ensures Synthesize(Normal("'a'/b")) == Some([Capture]) && Matches([Capture], "'a'/b", ["'a'/b"])
  {
    QuotedPathShape();
    hide Normal;
  }

  // ------------------------------------------------------------------ whole tokens in double quotes

  /** A token of a prompt: a word without quotes, or a span in double quotes, which may hold white space. */
  datatype Piece = Word(text: string) | Span(inner: string)

  predicate GoodPiece(k: Piece) {
    match k
    case Word(text) => text != "" && SpaceFree(text) && QuoteFree(text)
    case Span(inner) => QuoteFree(inner)
  }

  function Shown(k: Piece): string {
    if k.Word? then k.text else ['"'] + k.inner + ['"']
  }

  /** What the shape is made of. */
  function TokenOf(k: Piece): string {
    if k.Word? then k.text else "<q>"
  }

  function Tokens(ks: seq<Piece>): (ts: seq<string>)
    ensures |ts| == |ks| && forall i :: 0 <= i < |ks| ==> ts[i] == TokenOf(ks[i])
  {
    if ks == [] then [] else [TokenOf(ks[0])] + Tokens(ks[1..])
  }

  function Texts(ks: seq<Piece>): (ts: seq<string>)
    ensures |ts| == |ks| && forall i :: 0 <= i < |ks| ==> ts[i] == Shown(ks[i])
  {
    if ks == [] then [] else [Shown(ks[0])] + Texts(ks[1..])
  }

  /** The texts with white space between them; the last gap is not used. */
  function Spelled(ts: seq<string>, gs: seq<string>): string
    requires |gs| == |ts|
  {
    if ts == [] then ""
    else if |ts| == 1 then ts[0]
    else ts[0] + (gs[0] + Spelled(ts[1..], gs[1..]))
  }

  predicate Gaps(gs: seq<string>) {
    forall g :: g in gs ==> ReSpaces(g)
  }

  lemma GapsTail(gs: seq<string>)
    requires Gaps(gs) && gs != []
    ensures ReSpaces(gs[0]) && Gaps(gs[1..]) && QuoteFree(gs[0]) && forall c :: c in gs[0] ==> IsSpace(c)
  {
    assert gs[0] in gs && forall g :: g in gs[1..] ==> g in gs;
  }

  predicate GoodPieces(ks: seq<Piece>) {
    forall k :: k in ks ==> GoodPiece(k)
  }

  lemma GoodTail(ks: seq<Piece>)
    requires GoodPieces(ks) && ks != []
    ensures GoodPiece(ks[0]) && GoodPieces(ks[1..])
    ensures Tokens(ks)[0] == TokenOf(ks[0]) && Tokens(ks)[1..] == Tokens(ks[1..])
    ensures Texts(ks)[0] == Shown(ks[0]) && Texts(ks)[1..] == Texts(ks[1..])
  {
    assert ks[0] in ks && forall k :: k in ks[1..] ==> k in ks;
  }

  // The shape of such a prompt.

  lemma {:induction false} InsideQuotes(inner: string)
    requires QuoteFree(inner)
    ensures Collapse(inner + ['"'], true) == "" && !QuoteAfter(inner + ['"'], true)
  {
    if inner == "" {
      assert inner + ['"'] == ['"'] && ['"'][1..] == "";
    } else {
      assert inner[0] in inner && (inner + ['"'])[1..] == inner[1..] + ['"'];
      assert forall c :: c in inner[1..] ==> c in inner;
      InsideQuotes(inner[1..]);
    }
  }

  lemma {:induction false} NoQuoteOpens(s: string)
    requires QuoteFree(s)
    ensures !QuoteAfter(s, false)
  {
    if s != "" {
      assert s[0] in s && forall c :: c in s[1..] ==> c in s;
      NoQuoteOpens(s[1..]);
    }
  }

  lemma PieceCollapses(k: Piece)
    requires GoodPiece(k)
    ensures Collapse(Shown(k), false) == TokenOf(k) && !QuoteAfter(Shown(k), false)
  {
    if k.Word? {
      CollapseQuoteFree(k.text, false);
      NoQuoteOpens(k.text);
    } else {
      InsideQuotes(k.inner);
      var s := Shown(k);
      assert s[0] == '"' && s[1..] == k.inner + ['"'];
      assert "<q>" + "" == "<q>";
    }
  }

  lemma {:induction false} SpelledCollapses(ks: seq<Piece>, gs: seq<string>)
    requires |gs| == |ks| && GoodPieces(ks) && Gaps(gs)
    ensures Collapse(Spelled(Texts(ks), gs), false) == Spelled(Tokens(ks), gs)
    decreases |ks|
  {
    if ks != [] {
      GoodTail(ks);
      GapsTail(gs);
      PieceCollapses(ks[0]);
      if |ks| > 1 {
        SpelledCollapses(ks[1..], gs[1..]);
        CollapseQuoteFree(gs[0], false);
        NoQuoteOpens(gs[0]);
        var rest := Spelled(Texts(ks[1..]), gs[1..]);
        hide Collapse, QuoteAfter, QuoteFree, GoodPieces, Gaps;
        CollapseStep(Shown(ks[0]), gs[0] + rest, false);
        CollapseStep(gs[0], rest, false);
      }
    }
  }

  lemma {:induction false} SpelledFields(ts: seq<string>, gs: seq<string>)
    requires |gs| == |ts| && AreFields(ts) && Gaps(gs)
    ensures Fields(Spelled(ts, gs)) == ts
    decreases |ts|
  {
    if ts == [] {
      assert Fields("") == [];
    } else {
      var t, tail := ts[0], ts[1..];
      assert t in ts && forall x :: x in tail ==> x in ts;
      GapsTail(gs);
      if |ts| == 1 {
        OneField(t);
      } else {
        SpelledFields(tail, gs[1..]);
        FirstField(t, gs[0], Spelled(tail, gs[1..]));
        assert t + gs[0] + Spelled(tail, gs[1..]) == t + (gs[0] + Spelled(tail, gs[1..]));
        hide Fields;
        assert ts == [t] + tail;
      }
    }
  }

  /** The shown text begins and ends with something else than white space. */
  lemma PieceSolid(k: Piece)
    requires GoodPiece(k)
    ensures Shown(k) != "" && Trimmed(Shown(k)) && !IsSpace(Shown(k)[0])
  {
    var s := Shown(k);
    if k.Word? {
      assert s[0] in s && s[|s| - 1] in s;
    } else {
      assert s[0] == '"' && s[|s| - 1] == '"';
    }
  }

  lemma {:induction false} SpelledSolid(ks: seq<Piece>, gs: seq<string>)
    requires |gs| == |ks| && ks != [] && GoodPieces(ks)
    ensures var s := Spelled(Texts(ks), gs); s != "" && Trimmed(s) && !IsSpace(s[0])
    decreases |ks|
  {
    GoodTail(ks);
    PieceSolid(ks[0]);
    if |ks| > 1 {
      SpelledSolid(ks[1..], gs[1..]);
      hide Trimmed, GoodPieces;
      WordsTrimmed(Shown(ks[0]), gs[0], Spelled(Texts(ks[1..]), gs[1..]));
      assert Shown(ks[0]) + gs[0] + Spelled(Texts(ks[1..]), gs[1..]) == Spelled(Texts(ks), gs);
    }
  }

  lemma TokensAreFields(ks: seq<Piece>)
    requires GoodPieces(ks)
    ensures AreFields(Tokens(ks))
  {
    forall t | t in Tokens(ks) ensures t != "" && SpaceFree(t) {
      var i :| 0 <= i < |ks| && Tokens(ks)[i] == t;
      assert ks[i] in ks;
    }
  }

  lemma SpelledShape(ks: seq<Piece>, gs: seq<string>)
    requires |gs| == |ks| && GoodPieces(ks) && Gaps(gs)
    ensures Fields(Normal(Spelled(Texts(ks), gs))) == Slots(Tokens(ks))
  {
    var p := Spelled(Texts(ks), gs);
    if ks != [] {
      SpelledSolid(ks, gs);
    }
    TrimIsTrimmed(p);
    SpelledCollapses(ks, gs);
    TokensAreFields(ks);
    SpelledFields(Tokens(ks), gs);
    ShapeFields(p);
  }

  // How its pattern matches it: every element has one way to go.

  /** No match begins with white space. */
  lemma MatchSolid(es: seq<Elem>, s: string, caps: seq<string>)
    requires es != [] && GoodElem(es[0]) && Matches(es, s, caps)
    ensures s != "" && !ReSpace(s[0])
  {
    FirstSolid(es, s, caps);
    var i :| 0 <= i <= |s| && ElemMatches(es[0], s[..i]);
    SolidWord(es[0], s[..i]);
    assert s[..i][0] == s[0];
  }

  lemma FirstSolid(es: seq<Elem>, s: string, caps: seq<string>)
    requires es != [] && Matches(es, s, caps)
    ensures exists i :: 0 <= i <= |s| && ElemMatches(es[0], s[..i])
  {
    FirstWord(es, s, caps);
  }

  lemma SolidWord(e: Elem, w: string)
    requires GoodElem(e) && ElemMatches(e, w)
    ensures w != "" && !ReSpace(w[0])
    ensures !e.Quoted? ==> forall c :: c in w ==> !ReSpace(c)
  {
    assert w != "" ==> w[0] in w;
  }

  /** How many characters come before the first one to stop at. */
  function Before(stop: char -> bool, s: string): nat {
    if s == "" || stop(s[0]) then 0 else 1 + Before(stop, s[1..])
  }

  lemma {:induction false} BeforeIs(stop: char -> bool, s: string, n: nat)
    requires n < |s| && stop(s[n]) && forall c :: c in s[..n] ==> !stop(c)
    ensures Before(stop, s) == n
  {
    if n > 0 {
      assert s[..n][0] == s[0] && s[0] in s[..n];
      assert s[1..][..n - 1] == s[..n][1..] && forall c :: c in s[..n][1..] ==> c in s[..n];
      BeforeIs(stop, s[1..], n - 1);
    }
  }

  /** The first element takes exactly the first piece. */
  lemma FirstPiece(e: Elem, k: Piece, rest: string, i: nat)
    requires GoodElem(e) && GoodPiece(k) && (k.Span? <==> e.Quoted?)
    requires rest != "" && ReSpace(rest[0])
    requires var s := Shown(k) + rest; i < |s| && ReSpace(s[i]) && ElemMatches(e, s[..i])
    ensures i == |Shown(k)|
  {
    var w, s := Shown(k), Shown(k) + rest;
    SolidWord(e, s[..i]);
    if k.Word? {
      assert s[..|w|] == w && s[|w|] == rest[0];
      BeforeIs(ReSpace, s, |w|);
      BeforeIs(ReSpace, s, i);
    } else {
      SpanEnds(k.inner, rest, i);
    }
  }

  lemma SpanEnds(inner: string, rest: string, i: nat)
    requires '"' !in inner
    requires var s := ['"'] + inner + ['"'] + rest; i <= |s| && ElemMatches(Quoted, s[..i])
    ensures i == |inner| + 2
  {
    var s, quote := ['"'] + inner + ['"'] + rest, (c: char) => c == '"';
    var t := s[1..];
    assert t[..|inner|] == inner && t[|inner|] == '"';
    BeforeIs(quote, t, |inner|);
    assert t[..i - 2] == s[..i][1..i - 1] && t[i - 2] == s[..i][i - 1];
    BeforeIs(quote, t, i - 2);
  }

  /** A quoted element does not begin on a word. */
  lemma WordNotQuoted(k: Piece, rest: string, i: nat)
    requires GoodPiece(k) && i <= |Shown(k) + rest| && ElemMatches(Quoted, (Shown(k) + rest)[..i])
    ensures k.Span?
  {
    PieceFirst(k, rest);
    var s := Shown(k) + rest;
    hide Shown, GoodPiece;
    assert s[..i][0] == s[0];
  }

  lemma PieceFirst(k: Piece, rest: string)
    requires GoodPiece(k)
    ensures Shown(k) != "" && ((Shown(k) + rest)[0] == '"' <==> k.Span?)
  {
    assert k.Word? ==> k.text[0] in k.text;
  }

  /** ... and the gap is the whole gap. */
  lemma WholeGap(w: string, g: string, tail: string, j: nat)
    requires ReSpaces(g) && tail != "" && !ReSpace(tail[0])
    requires var s := w + (g + tail); Gap(s, |w|, j) && j < |s| && !ReSpace(s[j])
    ensures j == |w| + |g|
  {
    var s, solid := w + (g + tail), (c: char) => !ReSpace(c);
    var t := g + tail;
    assert s[|w|..j] == t[..j - |w|] && s[j] == t[j - |w|];
    BeforeIs(solid, t, j - |w|);
    assert t[..|g|] == g && t[|g|] == tail[0];
    BeforeIs(solid, t, |g|);
  }

  predicate Fits(es: seq<Elem>, ks: seq<Piece>) {
    |es| == |ks| && forall i :: 0 <= i < |ks| ==> ElemMatches(es[i], Shown(ks[i]))
  }

  /** Spans stand under quoted elements. */
  predicate Aligned(es: seq<Elem>, ks: seq<Piece>) {
    |es| == |ks| && forall i :: 0 <= i < |ks| ==> GoodElem(es[i]) && (ks[i].Span? ==> es[i].Quoted?)
  }

  lemma FitsStep(es: seq<Elem>, ks: seq<Piece>)
    requires Aligned(es, ks) && ks != []
    ensures Aligned(es[1..], ks[1..])
    ensures Fits(es, ks) <==> ElemMatches(es[0], Shown(ks[0])) && Fits(es[1..], ks[1..])
    ensures AllCaptured(es, Texts(ks)) == Captured(es[0], Shown(ks[0])) + AllCaptured(es[1..], Texts(ks[1..]))
  {
    assert Texts(ks)[1..] == Texts(ks[1..]);
    if ElemMatches(es[0], Shown(ks[0])) && Fits(es[1..], ks[1..]) {
      forall i | 0 <= i < |ks| ensures ElemMatches(es[i], Shown(ks[i])) {
        assert i > 0 ==> es[i] == es[1..][i - 1] && ks[i] == ks[1..][i - 1];
      }
    }
    if Fits(es, ks) {
      forall i | 0 <= i < |ks[1..]| ensures ElemMatches(es[1..][i], Shown(ks[1..][i])) {
        assert es[1..][i] == es[i + 1] && ks[1..][i] == ks[i + 1];
      }
    }
  }

  /** A match cuts the prompt behind its first piece and in front of its second. */
  lemma CutOfMatch(es: seq<Elem>, ks: seq<Piece>, g: string, tail: string, i: nat, j: nat, rest: seq<string>)
    requires Aligned(es, ks) && |ks| > 1 && GoodPieces(ks) && ReSpaces(g) && tail != "" && !IsSpace(tail[0])
    requires var s := Shown(ks[0]) + (g + tail);
             Gap(s, i, j) && ElemMatches(es[0], s[..i]) && Matches(es[1..], s[j..], rest)
    ensures i == |Shown(ks[0])| && j == i + |g|
  {
    var k, s := ks[0], Shown(ks[0]) + (g + tail);
    assert k in ks;
    assert es[1..][0] == es[1] && GoodElem(es[1]);
    MatchSolid(es[1..], s[j..], rest);
    assert s[j..][0] == s[j] && s[i..j][0] == s[i] && s[i..j][0] in s[i..j];
    hide Matches, GoodElem, GoodPiece, ReSpaces, ReSpace, IsSpace, ElemMatches, Shown;
    if es[0].Quoted? {
      WordNotQuoted(k, g + tail, i);
    }
    GapFirst(g, tail);
    FirstPiece(es[0], k, g + tail, i);
    WholeGap(Shown(k), g, tail, j);
  }

  lemma GapFirst(g: string, tail: string)
    requires ReSpaces(g) && tail != "" && !IsSpace(tail[0])
    ensures g + tail != "" && ReSpace((g + tail)[0]) && !ReSpace(tail[0])
  {
    assert g[0] in g;
  }

  /** One more piece in front. */
  lemma MatchStep(es: seq<Elem>, ks: seq<Piece>, g: string, tail: string, caps: seq<string>)
    requires Aligned(es, ks) && |ks| > 1 && GoodPieces(ks) && ReSpaces(g) && tail != "" && !IsSpace(tail[0])
    ensures Matches(es, Shown(ks[0]) + (g + tail), caps) <==>
            ElemMatches(es[0], Shown(ks[0])) &&
            exists rest :: Matches(es[1..], tail, rest) && caps == Captured(es[0], Shown(ks[0])) + rest
  {
    var w := Shown(ks[0]);
    var s := w + (g + tail);
    CutAt(w, g, tail);
    if Matches(es, s, caps) {
      var i: nat, j: nat, rest: seq<string> :|
        Gap(s, i, j) && ElemMatches(es[0], s[..i]) && Matches(es[1..], s[j..], rest)
        && caps == Captured(es[0], s[..i]) + rest;
      hide *;
      CutOfMatch(es, ks, g, tail, i, j, rest);
      assert Matches(es[1..], tail, rest);
    }
    if rest :| ElemMatches(es[0], w) && Matches(es[1..], tail, rest) && caps == Captured(es[0], w) + rest {
      hide Aligned, GoodPieces, ElemMatches, Shown;
      assert Gap(s, |w|, |w| + |g|) && Matches(es[1..], s[|w| + |g|..], rest);
    }
  }

  lemma CutAt(w: string, g: string, tail: string)
    ensures var s := w + (g + tail);
            s[..|w|] == w && s[|w|..|w| + |g|] == g && s[|w| + |g|..] == tail
  {
  }

  /** Such a prompt is matched in one way only: element by element. */
  lemma {:induction false} SpelledMatchIff(es: seq<Elem>, ks: seq<Piece>, gs: seq<string>, caps: seq<string>)
    requires |gs| == |ks| && ks != [] && GoodPieces(ks) && Gaps(gs) && Aligned(es, ks)
    ensures Matches(es, Spelled(Texts(ks), gs), caps) <==> Fits(es, ks) && caps == AllCaptured(es, Texts(ks))
    decreases |ks|
  {
    GoodTail(ks);
    GapsTail(gs);
    FitsStep(es, ks);
    if |ks| == 1 {
      var s := Shown(ks[0]);
      assert AllCaptured(es[1..], Texts(ks[1..])) == [] && Fits(es[1..], ks[1..]);
      assert Captured(es[0], s) + [] == Captured(es[0], s);
    } else {
      var tail := Spelled(Texts(ks[1..]), gs[1..]);
      SpelledSolid(ks[1..], gs[1..]);
      assert Spelled(Texts(ks), gs) == Shown(ks[0]) + (gs[0] + tail);
      hide *;
      MatchStep(es, ks, gs[0], tail, caps);
      forall rest ensures Matches(es[1..], tail, rest) <==>
                          Fits(es[1..], ks[1..]) && rest == AllCaptured(es[1..], Texts(ks[1..]))
      {
        SpelledMatchIff(es[1..], ks[1..], gs[1..], rest);
      }
    }
  }

  /** Elements and pieces of one prompt. */
  lemma PieceFits(k: Piece)
    requires GoodPiece(k)
    ensures var e := ElemOf(Slot(TokenOf(k)));
            && GoodElem(e) && (k.Span? ==> e == Quoted)
            && (ElemMatches(e, Shown(k)) <==> (k.Word? ==> CleanToken(k.text)))
  {
    if k.Word? {
      TokenFits(k.text);
    } else {
      SpanSlots();
      hide Slot;
      var s := Shown(k);
      assert s[1..|s| - 1] == k.inner;
    }
  }

  predicate CleanPieces(ks: seq<Piece>) {
    forall k :: k in ks && k.Word? ==> CleanToken(k.text)
  }

  lemma PiecesFit(ks: seq<Piece>)
    requires GoodPieces(ks)
    ensures var es := Elems(Slots(Tokens(ks))); Aligned(es, ks) && (Fits(es, ks) <==> CleanPieces(ks))
  {
    var es := Elems(Slots(Tokens(ks)));
    hide Slot, ElemOf, ElemMatches, CleanToken, GoodElem, GoodPiece, Shown, TokenOf;
    forall i | 0 <= i < |ks|
      ensures GoodElem(es[i]) && (ks[i].Span? ==> es[i].Quoted?)
      ensures ElemMatches(es[i], Shown(ks[i])) <==> (ks[i].Word? ==> CleanToken(ks[i].text))
    {
      assert ks[i] in ks;
      PieceFits(ks[i]);
    }
    assert CleanPieces(ks) <==> forall i :: 0 <= i < |ks| ==> (ks[i].Word? ==> CleanToken(ks[i].text));
  }

  /** Spans are not captured. */
  lemma {:induction false} TextsCaptured(ks: seq<Piece>)
    requires GoodPieces(ks)
    ensures var es := Elems(Slots(Tokens(ks))); AllCaptured(es, Texts(ks)) == AllCaptured(es, Tokens(ks))
  {
    if ks != [] {
      GoodTail(ks);
      ElemsTail(Tokens(ks));
      TextsCaptured(ks[1..]);
      PieceFits(ks[0]);
      hide Slot, ElemOf, Elems, Slots, GoodPieces, GoodPiece;
    }
  }

  /**
   The mined pattern against a prompt whose quoted spans are whole tokens in double quotes: it
   matches the prompt exactly when every number-like word is all digits and no word is a literal
   placeholder, and then the capture can only be the path token.
   */
  lemma SpansMatchSource(ks: seq<Piece>, gs: seq<string>, caps: seq<string>)
    requires |gs| == |ks| && GoodPieces(ks) && Gaps(gs)
    requires Synthesize(Normal(Spelled(Texts(ks), gs))).Some?
    ensures var toks, p := Tokens(ks), Spelled(Texts(ks), gs);
            && PathAt(toks) < |toks| && IsPath(toks[PathAt(toks)])
            && (Matches(Synthesize(Normal(p)).value, p, caps) <==>
                CleanPieces(ks) && caps == [toks[PathAt(toks)]])
  {
    var toks, p := Tokens(ks), Spelled(Texts(ks), gs);
    SpelledShape(ks, gs);
    var es := Elems(Slots(toks));
    assert Synthesize(Normal(p)).value == es && Paths(es) == 1;
    assert ks != [] by { assert Paths([]) == 0; }
    hide *;
    CapturesThePath(toks);
    PiecesFit(ks);
    TextsCaptured(ks);
    SpelledMatchIff(es, ks, gs, caps);
  }
}
