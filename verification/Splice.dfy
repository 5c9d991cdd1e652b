/**
 Splicing regex captures into a rule's argument template. The router does it by two textual
 replacements per group, one group after the other; the template means one pass over its text.
 */
module Splice {
  import opened Common
  import opened Text

  /** Every occurrence of `pat`, left to right and not overlapping, becomes `text`. */
  function ReplaceAll(s: string, pat: string, text: string): string
    requires pat != ""
    decreases |s|
  {
    if s == "" then ""
    else if HasPrefix(s, pat) then text + ReplaceAll(s[|pat|..], pat, text)
    else [s[0]] + ReplaceAll(s[1..], pat, text)
  }

  function Ref(i: nat): string { "$" + Decimal(i) }

  function QuotedRef(i: nat): string { ['"'] + Ref(i) + ['"'] }

  /** The JSON encoding of a string, from that of its characters. */
  function Escaped(esc: char -> string, s: string): string {
    ['"'] + Flat(esc, s) + ['"']
  }

  function Flat(esc: char -> string, s: string): string {
    if s == "" then "" else esc(s[0]) + Flat(esc, s[1..])
  }

  predicate IsDigit(c: char) { '0' <= c <= '9' }

  /** What is used of JSON: `$` and digits stand for themselves, nothing else turns into them. */
  ghost predicate JsonLike(esc: char -> string) {
    && esc('$') == "$"
    && (forall c: char :: c != '$' ==> '$' !in esc(c))
    && (forall c: char :: if IsDigit(c) then esc(c) == [c] else esc(c) != "" && !IsDigit(esc(c)[0]))
  }

  /** The text once the groups below `k` are spliced in. */
  function SplicedTo(template: string, groups: seq<string>, esc: char -> string, k: nat): string
    requires 1 <= k <= |groups|
  {
    if k == 1 then template
    else
      var i := k - 1;
      ReplaceAll(ReplaceAll(SplicedTo(template, groups, esc, i), QuotedRef(i), Escaped(esc, groups[i])), Ref(i), groups[i])
  }

  method SpliceArgs(template: string, groups: seq<string>, esc: char -> string) returns (out: string)
    requires groups != []
    ensures out == SplicedTo(template, groups, esc, |groups|)
  {
    out := template;
    for i := 1 to |groups|
      invariant out == SplicedTo(template, groups, esc, i)
    {
      var escaped := Escaped(esc, groups[i]);
      var ref := Ref(i);
      out := ReplaceAll(out, ['"'] + ref + ['"'], escaped);
      out := ReplaceAll(out, ref, groups[i]);
    }
  }

  // ------------------------------------------------------------------ one pass

  /** A template read left to right: quoted references, bare references, other characters. */
  datatype Token = Lit(c: char) | Quoted(i: nat) | Bare(i: nat)

  predicate IsGroup(c: char) { '1' <= c <= '9' }

  /** How many digits the text begins with. */
  function DigitRun(s: string): (n: nat)
    ensures n <= |s| && (forall i :: 0 <= i < n ==> IsDigit(s[i]))
  {
    if s == "" || !IsDigit(s[0]) then 0 else 1 + DigitRun(s[1..])
  }

  function Number(ds: string): nat
    requires forall i :: 0 <= i < |ds| ==> IsDigit(ds[i])
  {
    if ds == "" then 0
    else
      var c := ds[|ds| - 1];
      assert IsDigit(c);
      10 * Number(ds[..|ds| - 1]) + (c - '0') as nat
  }

  /** The length of the quoted or bare reference a text begins with; 0 when it begins with none. */
  function QuotedAt(t: string): (n: nat)
    ensures n > 0 ==> 1 < n - 2 <= n <= |t| && forall i :: 2 <= i < n - 1 ==> IsDigit(t[i])
  {
    if |t| < 4 || t[0] != '"' || t[1] != '$' || !IsGroup(t[2]) then 0
    else
      var n := 1 + DigitRun(t[3..]);
      if 2 + n < |t| && t[2 + n] == '"' then 3 + n else 0
  }

  function BareAt(t: string): (n: nat)
    ensures n > 0 ==> 1 < n <= |t| && forall i :: 1 <= i < n ==> IsDigit(t[i])
  {
    if |t| < 2 || t[0] != '$' || !IsGroup(t[1]) then 0 else 2 + DigitRun(t[2..])
  }

  /** A reference takes all its digits. */
  function Tokens(t: string): seq<Token>
    decreases |t|
  {
    if t == "" then []
    else if QuotedAt(t) > 0 then [Quoted(Number(t[2..QuotedAt(t) - 1]))] + Tokens(t[QuotedAt(t)..])
    else if BareAt(t) > 0 then [Bare(Number(t[1..BareAt(t)]))] + Tokens(t[BareAt(t)..])
    else [Lit(t[0])] + Tokens(t[1..])
  }

  function RenderToken(k: Token): string {
    match k
    case Lit(c) => [c]
    case Quoted(i) => QuotedRef(i)
    case Bare(i) => Ref(i)
  }

  function Render(ks: seq<Token>): string {
    if ks == [] then "" else RenderToken(ks[0]) + Render(ks[1..])
  }

  /** What a token stands for: a capture of this match, or itself. */
  function Meaning(k: Token, groups: seq<string>, esc: char -> string): string {
    match k
    case Quoted(i) => if 1 <= i < |groups| then Escaped(esc, groups[i]) else RenderToken(k)
    case Bare(i) => if 1 <= i < |groups| then groups[i] else RenderToken(k)
    case Lit(c) => [c]
  }

  function OnePass(ks: seq<Token>, groups: seq<string>, esc: char -> string): string {
    if ks == [] then "" else Meaning(ks[0], groups, esc) + OnePass(ks[1..], groups, esc)
  }

  // ------------------------------------------------------------------ templates that are safe

  /** What stands beside a reference: text ending in a quote, other text or nothing, a bare reference. */
  datatype Side = Quote | Solid | Soft

  function SideOf(k: Token): Side {
    match k
    case Lit(c) => if c == '"' then Quote else Solid
    case Quoted(_) => Quote
    case Bare(_) => Soft
  }

  function Head(ks: seq<Token>): Side {
    if ks == [] then Solid else SideOf(ks[0])
  }

  /** A bare reference may have a quote on one side if there is plain text, or nothing, on the other. */
  predicate Allowed(l: Side, r: Side) {
    (l == Quote ==> r == Solid) && (r == Quote ==> l == Solid)
  }

  predicate GoodToken(k: Token) {
    if k.Lit? then k.c != '$' else k.i >= 1
  }

  /** Every `$` starts a reference, and no bare reference can come to stand between two quotes. */
  predicate CleanFrom(l: Side, ks: seq<Token>)
    decreases |ks|
  {
    ks == [] ||
    (GoodToken(ks[0]) && (ks[0].Bare? ==> Allowed(l, Head(ks[1..]))) && CleanFrom(SideOf(ks[0]), ks[1..]))
  }

  predicate Clean(ks: seq<Token>) { CleanFrom(Solid, ks) }

  /** Captures hold no `$`, and those of bare references no quote. */
  predicate PlainFor(ks: seq<Token>, groups: seq<string>) {
    forall i :: 1 <= i < |groups| ==> '$' !in groups[i] && (Bare(i) in ks ==> '"' !in groups[i])
  }

  lemma DigitApart(m: nat, d: nat)
    requires d < 10
    ensures (10 * m + d) / 10 == m && (10 * m + d) % 10 == d
  {
  }

  lemma DecimalStep(m: nat, d: nat)
    requires m >= 1 && d < 10
    ensures Decimal(10 * m + d) == Decimal(m) + ['0' + d as char]
  {
    DigitApart(m, d);
  }

  lemma {:induction false} DecimalOfNumber(ds: string)
    requires ds != "" && IsGroup(ds[0]) && forall i :: 0 <= i < |ds| ==> IsDigit(ds[i])
    ensures Number(ds) >= 1 && Decimal(Number(ds)) == ds
    decreases |ds|
  {
    var front, c := ds[..|ds| - 1], ds[|ds| - 1];
    assert ds == front + [c];
    var d := (c - '0') as nat;
    assert '0' + d as char == c && d < 10;
    assert Number(ds) == 10 * Number(front) + d;
    if front == "" {
      assert Number(front) == 0;
    } else {
      DecimalOfNumber(front);
      hide Number, Decimal;
      DecimalStep(Number(front), d);
    }
  }

  lemma QuotedReads(t: string)
    requires QuotedAt(t) > 0
    ensures QuotedRef(Number(t[2..QuotedAt(t) - 1])) == t[..QuotedAt(t)] && Number(t[2..QuotedAt(t) - 1]) >= 1
  {
    var n := QuotedAt(t);
    var ds := t[2..n - 1];
    DecimalOfNumber(ds);
    hide Number, Decimal, DigitRun;
    assert t[..n] == ['"'] + ("$" + ds) + ['"'];
  }

  lemma BareReads(t: string)
    requires BareAt(t) > 0
    ensures Ref(Number(t[1..BareAt(t)])) == t[..BareAt(t)] && Number(t[1..BareAt(t)]) >= 1
  {
    var n := BareAt(t);
    DecimalOfNumber(t[1..n]);
    hide Number, Decimal, DigitRun;
    assert t[..n] == "$" + t[1..n];
  }

  lemma {:induction false} TokensRender(t: string)
    ensures Render(Tokens(t)) == t
    decreases |t|
  {
    if t != "" {
      hide QuotedAt, BareAt, Number, QuotedRef, Ref;
      if QuotedAt(t) > 0 {
        QuotedReads(t);
        TokensRender(t[QuotedAt(t)..]);
      } else if BareAt(t) > 0 {
        BareReads(t);
        TokensRender(t[BareAt(t)..]);
      } else {
        TokensRender(t[1..]);
      }
    }
  }

  function Lits(s: string): (ks: seq<Token>)
    ensures |ks| == |s| && forall i :: 0 <= i < |s| ==> ks[i] == Lit(s[i])
  {
    if s == "" then [] else [Lit(s[0])] + Lits(s[1..])
  }

  lemma {:induction false} RenderConcat(a: seq<Token>, b: seq<Token>)
    ensures Render(a + b) == Render(a) + Render(b)
  {
    if a == [] {
      assert a + b == b;
    } else {
      assert (a + b)[1..] == a[1..] + b;
      RenderConcat(a[1..], b);
    }
  }

  lemma {:induction false} RenderLits(s: string)
    ensures Render(Lits(s)) == s
  {
    if s != "" {
      RenderLits(s[1..]);
      assert Lits(s)[1..] == Lits(s[1..]);
    }
  }

  lemma RenderOne(k: Token)
    ensures Render([k]) == RenderToken(k)
  {
    assert [k][1..] == [];
  }

  lemma {:induction false} OnePassConcat(a: seq<Token>, b: seq<Token>, groups: seq<string>, esc: char -> string)
    ensures OnePass(a + b, groups, esc) == OnePass(a, groups, esc) + OnePass(b, groups, esc)
  {
    if a == [] {
      assert a + b == b;
    } else {
      assert (a + b)[1..] == a[1..] + b;
      OnePassConcat(a[1..], b, groups, esc);
    }
  }

  lemma {:induction false} OnePassLits(s: string, groups: seq<string>, esc: char -> string)
    ensures OnePass(Lits(s), groups, esc) == s
  {
    if s != "" {
      OnePassLits(s[1..], groups, esc);
      assert Lits(s)[1..] == Lits(s[1..]);
    }
  }

  /** Token-level substitution of one token by literal text. */
  function Put(ks: seq<Token>, k: Token, text: string): seq<Token> {
    if ks == [] then [] else (if ks[0] == k then Lits(text) else [ks[0]]) + Put(ks[1..], k, text)
  }

  // ------------------------------------------------------------------ one replacement is one substitution

  lemma Step(s: string, pat: string, text: string)
    requires pat != "" && s != "" && !HasPrefix(s, pat)
    ensures ReplaceAll(s, pat, text) == [s[0]] + ReplaceAll(s[1..], pat, text)
  {
  }

  lemma StepOver(c: char, rest: string, pat: string, text: string)
    requires pat != "" && !HasPrefix([c] + rest, pat)
    ensures ReplaceAll([c] + rest, pat, text) == [c] + ReplaceAll(rest, pat, text)
  {
    assert ([c] + rest)[1..] == rest;
  }

  lemma Hit(pat: string, rest: string, text: string)
    requires pat != ""
    ensures ReplaceAll(pat + rest, pat, text) == text + ReplaceAll(rest, pat, text)
  {
    assert (pat + rest)[|pat|..] == rest;
  }

  lemma PrefixMeans(s: string, p: string)
    ensures HasPrefix(s, p) <==> |p| <= |s| && forall k :: 0 <= k < |p| ==> s[k] == p[k]
  {
    assert |p| <= |s| ==> forall k :: 0 <= k < |p| ==> s[..|p|][k] == s[k];
  }

  /** Text without a pattern's first character is left alone. */
  lemma {:induction false} PassOver(p: string, s: string, pat: string, text: string)
    requires pat != "" && pat[0] !in p
    ensures ReplaceAll(p + s, pat, text) == p + ReplaceAll(s, pat, text)
  {
    if p == "" {
      assert p + s == s;
    } else {
      PrefixMeans(p + s, pat);
      assert p[0] in p;
      Step(p + s, pat, text);
      assert (p + s)[1..] == p[1..] + s;
      PassOver(p[1..], s, pat, text);
    }
  }

  /** The references read by the code have one digit. */
  predicate Single(k: Token) { GoodToken(k) && (!k.Lit? ==> k.i <= 9) }

  lemma OneDigit(i: nat)
    requires i <= 9
    ensures |Decimal(i)| == 1 && Decimal(i)[0] == '0' + i as char
  {
  }

  lemma BareAhead(j: nat, i: nat, rest: string)
    requires 1 <= i <= 9 && j <= 9 && (rest != "" ==> rest[0] != '"')
    ensures !HasPrefix(['"'] + (Ref(j) + rest), QuotedRef(i))
  {
    OneDigit(i);
    OneDigit(j);
    var s, q := ['"'] + (Ref(j) + rest), QuotedRef(i);
    hide Decimal;
    PrefixMeans(s, q);
    assert |q| == 4 && q[3] == '"';
    assert rest != "" ==> s[3] == rest[0];
  }

  lemma OtherAhead(rest: string, i: nat)
    requires 1 <= i <= 9 && (rest != "" ==> rest[0] != '$')
    ensures !HasPrefix(['"'] + rest, QuotedRef(i))
  {
    OneDigit(i);
    var s, q := ['"'] + rest, QuotedRef(i);
    hide Decimal;
    PrefixMeans(s, q);
    assert q[1] == '$' && (rest != "" ==> s[1] == rest[0]);
  }

  /** A quote matches the quoted pattern only at its own reference. */
  lemma QuoteAhead(ks: seq<Token>, i: nat)
    requires 1 <= i <= 9 && (forall k :: k in ks ==> Single(k))
    requires ks != [] && ks[0].Bare? ==> Head(ks[1..]) == Solid
    ensures !HasPrefix(['"'] + Render(ks), QuotedRef(i))
  {
    if ks != [] && ks[0].Bare? {
      assert ks[0] in ks;
      var rest := Render(ks[1..]);
      if ks[1..] != [] {
        assert ks[1..][0] == ks[1] && rest[0] == ks[1].c;
      }
      hide Render;
      BareAhead(ks[0].i, i, rest);
    } else {
      assert ks != [] ==> ks[0] in ks;
      OtherAhead(Render(ks), i);
    }
  }

  lemma QuoteKept(ks: seq<Token>, i: nat, text: string)
    requires 1 <= i <= 9 && (forall k :: k in ks ==> Single(k))
    requires ks != [] && ks[0].Bare? ==> Head(ks[1..]) == Solid
    ensures ReplaceAll(['"'] + Render(ks), QuotedRef(i), text) == ['"'] + ReplaceAll(Render(ks), QuotedRef(i), text)
  {
    QuoteAhead(ks, i);
    var s := ['"'] + Render(ks);
    assert s[1..] == Render(ks);
    Step(s, QuotedRef(i), text);
  }

  lemma OtherQuoted(j: nat, i: nat, rest: string)
    requires 1 <= i <= 9 && 1 <= j <= 9 && j != i
    ensures !HasPrefix(['"'] + (Ref(j) + rest), QuotedRef(i)) && '"' !in Ref(j)
  {
    OneDigit(i);
    OneDigit(j);
    var s, q := ['"'] + (Ref(j) + rest), QuotedRef(i);
    assert s[2] == Decimal(j)[0] && q[2] == Decimal(i)[0];
    hide Decimal;
    PrefixMeans(s, q);
  }

  lemma QuotedKept(j: nat, ks: seq<Token>, i: nat, text: string)
    requires 1 <= i <= 9 && 1 <= j <= 9 && j != i && (forall k :: k in ks ==> Single(k))
    requires ks != [] && ks[0].Bare? ==> Head(ks[1..]) == Solid
    ensures ReplaceAll(QuotedRef(j) + Render(ks), QuotedRef(i), text)
         == QuotedRef(j) + ReplaceAll(Render(ks), QuotedRef(i), text)
  {
    QuoteKept(ks, i, text);
    PatternQuote(i);
    hide *;
    KeptAround(j, i, Render(ks), text);
  }

  lemma PatternQuote(i: nat)
    ensures QuotedRef(i) != "" && QuotedRef(i)[0] == '"'
  {
  }

  lemma KeptAround(j: nat, i: nat, rest: string, text: string)
    requires 1 <= i <= 9 && 1 <= j <= 9 && j != i && QuotedRef(i) != "" && QuotedRef(i)[0] == '"'
    requires ReplaceAll(['"'] + rest, QuotedRef(i), text) == ['"'] + ReplaceAll(rest, QuotedRef(i), text)
    ensures ReplaceAll(QuotedRef(j) + rest, QuotedRef(i), text) == QuotedRef(j) + ReplaceAll(rest, QuotedRef(i), text)
  {
    hide *;
    var r, q, c := Ref(j), QuotedRef(i), '"';
    OtherQuoted(j, i, [c] + rest);
    StepOver(c, r + ([c] + rest), q, text);
    PassOver(r, [c] + rest, q, text);
    QuotedIs(j);
    Enclosed([c], r, rest);
    Enclosed([c], r, ReplaceAll(rest, q, text));
  }

  lemma Enclosed(q: string, r: string, x: string)
    ensures q + (r + (q + x)) == (q + r + q) + x
  {
  }

  lemma QuotedIs(j: nat)
    ensures QuotedRef(j) == ['"'] + Ref(j) + ['"']
  {
  }

  lemma {:induction false} QuotedStep(l: Side, ks: seq<Token>, i: nat, text: string)
    requires CleanFrom(l, ks) && (forall k :: k in ks ==> Single(k)) && 1 <= i <= 9
    ensures ReplaceAll(Render(ks), QuotedRef(i), text) == Render(Put(ks, Quoted(i), text))
    decreases |ks|
  {
    if ks != [] {
      var k, tail := ks[0], ks[1..];
      assert k in ks && forall x :: x in tail ==> x in ks;
      QuotedStep(SideOf(k), tail, i, text);
      RenderConcat(if k == Quoted(i) then Lits(text) else [k], Put(tail, Quoted(i), text));
      RenderOne(k);
      AfterQuote(tail);
      var q := QuotedRef(i);
      hide CleanFrom, Put, ReplaceAll;
      if k == Quoted(i) {
        Hit(q, Render(tail), text);
        RenderLits(text);
      } else if k.Quoted? {
        QuotedKept(k.i, tail, i, text);
      } else if k == Lit('"') {
        QuoteKept(tail, i, text);
      } else {
        NoQuote(k);
        PassOver(RenderToken(k), Render(tail), q, text);
      }
    }
  }

  /** Right behind a quote, a bare reference has plain text, or nothing, after it. */
  lemma AfterQuote(ks: seq<Token>)
    ensures CleanFrom(Quote, ks) && ks != [] && ks[0].Bare? ==> Head(ks[1..]) == Solid
  {
  }

  lemma NoQuote(k: Token)
    requires Single(k) && !k.Quoted? && k != Lit('"')
    ensures '"' !in RenderToken(k)
  {
  }

  lemma {:induction false} BareStep(ks: seq<Token>, i: nat, text: string)
    requires (forall k :: k in ks ==> Single(k) && k != Quoted(i)) && 1 <= i <= 9
    ensures ReplaceAll(Render(ks), Ref(i), text) == Render(Put(ks, Bare(i), text))
  {
    if ks != [] {
      var k, tail := ks[0], ks[1..];
      assert k in ks && forall x :: x in tail ==> x in ks;
      BareStep(tail, i, text);
      RenderConcat(if k == Bare(i) then Lits(text) else [k], Put(tail, Bare(i), text));
      RenderOne(k);
      var r, rest := Ref(i), Render(tail);
      hide Put, ReplaceAll;
      match k {
        case Lit(c) => PassOver([c], rest, r, text);
        case Quoted(j) => QuotedApart(j, i, rest, text);
        case Bare(j) =>
          if j == i {
            Hit(r, rest, text);
            RenderLits(text);
          } else {
            OtherRef(j, i, rest, text);
          }
      }
    }
  }

  lemma QuotedApart(j: nat, i: nat, rest: string, text: string)
    requires 1 <= i <= 9 && 1 <= j <= 9 && j != i
    ensures ReplaceAll(QuotedRef(j) + rest, Ref(i), text) == QuotedRef(j) + ReplaceAll(rest, Ref(i), text)
  {
    var s, r := ['"'] + rest, Ref(i);
    assert r != "" && r[0] == '$';
    assert QuotedRef(j) + rest == ['"'] + (Ref(j) + s);
    OtherRef(j, i, s, text);
    QuotedIs(j);
    hide ReplaceAll, Ref, QuotedRef;
    PassOver(['"'], Ref(j) + s, r, text);
    PassOver(['"'], rest, r, text);
    assert ['"'] + (Ref(j) + (['"'] + ReplaceAll(rest, r, text))) == ['"'] + Ref(j) + ['"'] + ReplaceAll(rest, r, text);
  }

  lemma OtherRef(j: nat, i: nat, rest: string, text: string)
    requires 1 <= i <= 9 && 1 <= j <= 9 && j != i
    ensures ReplaceAll(Ref(j) + rest, Ref(i), text) == Ref(j) + ReplaceAll(rest, Ref(i), text)
  {
    OneDigit(i);
    OneDigit(j);
    var r, s := Ref(i), Ref(j) + rest;
    assert s[1..] == Decimal(j) + rest && s[1] == Decimal(j)[0] && r[1] == Decimal(i)[0];
    PrefixMeans(s, r);
    Step(s, r, text);
    PassOver(Decimal(j), rest, r, text);
  }

  // ------------------------------------------------------------------ cleanliness survives

  lemma {:induction false} PutMembers(ks: seq<Token>, k: Token, text: string)
    ensures forall t :: t in Put(ks, k, text) ==> (t in ks && t != k) || (t.Lit? && t.c in text)
  {
    if ks != [] {
      PutMembers(ks[1..], k, text);
    }
  }

  lemma {:induction false} PutAbsent(ks: seq<Token>, k: Token, text: string)
    requires k !in ks
    ensures Put(ks, k, text) == ks
  {
    if ks != [] {
      assert ks[0] in ks;
      PutAbsent(ks[1..], k, text);
    }
  }

  /** What follows a bare reference may follow other text that is not a quote, or a quote if it is no bare reference. */
  lemma Relax(l: Side, ks: seq<Token>)
    requires CleanFrom(Soft, ks) && (Head(ks) == Soft ==> l != Quote)
    ensures CleanFrom(l, ks)
  {
  }

  lemma {:induction false} CleanLits(l: Side, s: string, ks: seq<Token>)
    requires s != "" && '$' !in s && CleanFrom(if s[|s| - 1] == '"' then Quote else Solid, ks)
    ensures CleanFrom(l, Lits(s) + ks) && Head(Lits(s) + ks) == if s[0] == '"' then Quote else Solid
    decreases |s|
  {
    var all := Lits(s) + ks;
    assert all[0] == Lit(s[0]) && s[0] in s;
    assert all[1..] == Lits(s[1..]) + ks;
    hide Lits;
    if |s| == 1 {
      assert all[1..] == ks;
    } else {
      CleanLits(SideOf(all[0]), s[1..], ks);
    }
  }

  /** Behind a bare reference, and with no quote first, a substitution does not bring one to the front. */
  lemma {:induction false} PutHead(ks: seq<Token>, i: nat, text: string)
    requires CleanFrom(Soft, ks) && Plain(text) && Head(ks) != Quote
    ensures Head(Put(ks, Bare(i), text)) != Quote
    decreases |ks|
  {
    if ks != [] && ks[0] == Bare(i) {
      if text == "" {
        PutHead(ks[1..], i, text);
        assert Put(ks, Bare(i), text) == Put(ks[1..], Bare(i), text);
      } else {
        assert text[0] in text;
        assert Put(ks, Bare(i), text)[0] == Lit(text[0]);
      }
    }
  }

  predicate Plain(s: string) { '$' !in s && '"' !in s }

  lemma PutFirst(ks: seq<Token>, i: nat, text: string)
    requires ks == [] || ks[0] != Bare(i)
    ensures Head(Put(ks, Bare(i), text)) == Head(ks)
  {
  }

  /** Replacing a bare reference by plain text keeps the template clean. */
  lemma {:induction false} PutBareClean(l: Side, ks: seq<Token>, i: nat, text: string)
    requires CleanFrom(l, ks) && Plain(text)
    ensures CleanFrom(l, Put(ks, Bare(i), text))
    decreases |ks|
  {
    if ks != [] {
      var k, tail := ks[0], ks[1..];
      var rest := Put(tail, Bare(i), text);
      PutBareClean(SideOf(k), tail, i, text);
      if k == Bare(i) {
        if text == "" {
          assert Put(ks, Bare(i), text) == rest;
          if l == Quote {
            PutFirst(tail, i, text);
          }
          Relax(l, rest);
        } else {
          Relax(Solid, rest);
          assert text[|text| - 1] in text;
          CleanLits(l, text, rest);
        }
      } else {
        assert Put(ks, Bare(i), text) == [k] + rest;
        if k.Bare? && l != Solid {
          if tail == [] || tail[0] != Bare(i) {
            PutFirst(tail, i, text);
          } else {
            PutHead(tail, i, text);
          }
        }
        assert ([k] + rest)[1..] == rest;
      }
    }
  }

  /** Replacing a quoted reference by a quoted text without `$` keeps the template clean. */
  lemma {:induction false} PutQuotedClean(l: Side, ks: seq<Token>, i: nat, text: string)
    requires CleanFrom(l, ks) && '$' !in text && text != "" && text[0] == '"' && text[|text| - 1] == '"'
    ensures CleanFrom(l, Put(ks, Quoted(i), text)) && Head(Put(ks, Quoted(i), text)) == Head(ks)
    decreases |ks|
  {
    if ks != [] {
      var k, rest := ks[0], Put(ks[1..], Quoted(i), text);
      PutQuotedClean(SideOf(k), ks[1..], i, text);
      if k == Quoted(i) {
        CleanLits(l, text, rest);
      } else {
        assert ([k] + rest)[1..] == rest;
      }
    }
  }

  // ------------------------------------------------------------------ the loop is one pass of the code's reading

  /** The template with the groups below `k` put in. */
  function PutTo(ks: seq<Token>, groups: seq<string>, esc: char -> string, k: nat): seq<Token>
    requires 1 <= k <= |groups|
  {
    if k == 1 then ks
    else
      var i := k - 1;
      Put(Put(PutTo(ks, groups, esc, i), Quoted(i), Escaped(esc, groups[i])), Bare(i), groups[i])
  }

  lemma {:induction false} FlatNoDollar(esc: char -> string, s: string)
    requires JsonLike(esc) && '$' !in s
    ensures '$' !in Flat(esc, s)
  {
    if s != "" {
      assert s[0] in s && forall c :: c in s[1..] ==> c in s;
      FlatNoDollar(esc, s[1..]);
    }
  }

  /** One turn of the loop. */
  lemma OneTurn(ks: seq<Token>, i: nat, q: string, c: string)
    requires Clean(ks) && (forall k :: k in ks ==> Single(k)) && 1 <= i <= 9
    requires '$' !in q && q != "" && q[0] == '"' && q[|q| - 1] == '"'
    requires '$' !in c && (Bare(i) in ks ==> '"' !in c)
    ensures var done := Put(Put(ks, Quoted(i), q), Bare(i), c);
            && ReplaceAll(ReplaceAll(Render(ks), QuotedRef(i), q), Ref(i), c) == Render(done)
            && Clean(done) && (forall k :: k in done ==> Single(k) && (k in ks || k.Lit?))
  {
    QuotedStep(Solid, ks, i, q);
    PutQuotedClean(Solid, ks, i, q);
    PutMembers(ks, Quoted(i), q);
    var ls := Put(ks, Quoted(i), q);
    assert forall l :: l in ls ==> Single(l) && l != Quoted(i);
    hide Put, Render, ReplaceAll, CleanFrom;
    BareStep(ls, i, c);
    PutMembers(ls, Bare(i), c);
    if Bare(i) in ls {
      PutBareClean(Solid, ls, i, c);
    } else {
      PutAbsent(ls, Bare(i), c);
    }
  }

  lemma {:induction false} LoopPuts(ks: seq<Token>, groups: seq<string>, esc: char -> string, k: nat)
    requires 1 <= k <= |groups| && k <= 10 && JsonLike(esc)
    requires Clean(ks) && (forall t :: t in ks ==> Single(t)) && PlainFor(ks, groups)
    ensures SplicedTo(Render(ks), groups, esc, k) == Render(PutTo(ks, groups, esc, k))
    ensures Clean(PutTo(ks, groups, esc, k))
    ensures forall t :: t in PutTo(ks, groups, esc, k) ==> Single(t) && (t in ks || t.Lit?)
  {
    if k > 1 {
      var i := k - 1;
      LoopPuts(ks, groups, esc, i);
      FlatNoDollar(esc, groups[i]);
      var q := Escaped(esc, groups[i]);
      assert '$' !in q && q[0] == '"' && q[|q| - 1] == '"';
      hide JsonLike, Clean, Put, Render, ReplaceAll, Escaped, Single, QuotedRef, Ref;
      OneTurn(PutTo(ks, groups, esc, i), i, q, groups[i]);
    }
  }

  lemma {:induction false} PutConcat(a: seq<Token>, b: seq<Token>, k: Token, text: string)
    ensures Put(a + b, k, text) == Put(a, k, text) + Put(b, k, text)
  {
    if a == [] {
      assert a + b == b;
    } else {
      assert (a + b)[1..] == a[1..] + b;
      PutConcat(a[1..], b, k, text);
    }
  }

  lemma {:induction false} PutToConcat(a: seq<Token>, b: seq<Token>, groups: seq<string>, esc: char -> string, k: nat)
    requires 1 <= k <= |groups|
    ensures PutTo(a + b, groups, esc, k) == PutTo(a, groups, esc, k) + PutTo(b, groups, esc, k)
  {
    if k > 1 {
      var i := k - 1;
      PutToConcat(a, b, groups, esc, i);
      var x, y, q := PutTo(a, groups, esc, i), PutTo(b, groups, esc, i), Escaped(esc, groups[i]);
      hide Escaped;
      PutConcat(x, y, Quoted(i), q);
      PutConcat(Put(x, Quoted(i), q), Put(y, Quoted(i), q), Bare(i), groups[i]);
    }
  }

  lemma {:induction false} PutLits(s: string, k: Token, text: string)
    requires !k.Lit?
    ensures Put(Lits(s), k, text) == Lits(s)
  {
    if s != "" {
      PutLits(s[1..], k, text);
      assert Lits(s)[1..] == Lits(s[1..]);
    }
  }

  lemma PutOne(t: Token, k: Token, text: string)
    ensures Put([t], k, text) == if t == k then Lits(text) else [t]
  {
    assert [t][1..] == [];
    assert Put([], k, text) == [];
  }

  /** What one turn does to one token. */
  lemma PutTwice(t: Token, i: nat, q: string, c: string)
    ensures Put(Put([t], Quoted(i), q), Bare(i), c)
         == if t == Quoted(i) then Lits(q) else if t == Bare(i) then Lits(c) else [t]
  {
    PutOne(t, Quoted(i), q);
    PutOne(t, Bare(i), c);
    PutLits(q, Bare(i), c);
    hide Put, Lits;
  }

  lemma LitsTwice(s: string, i: nat, q: string, c: string)
    ensures Put(Put(Lits(s), Quoted(i), q), Bare(i), c) == Lits(s)
  {
    PutLits(s, Quoted(i), q);
    PutLits(s, Bare(i), c);
    hide Put, Lits;
  }

  /** One token: untouched until its own group comes, then literal text for good. */
  lemma {:induction false} PutToOne(t: Token, groups: seq<string>, esc: char -> string, k: nat)
    requires 1 <= k <= |groups| && GoodToken(t)
    ensures PutTo([t], groups, esc, k)
         == if t.Lit? || t.i >= k then [t] else Lits(Meaning(t, groups, esc))
  {
    if k > 1 {
      var i := k - 1;
      PutToOne(t, groups, esc, i);
      var q := Escaped(esc, groups[i]);
      hide Escaped, Put, Lits;
      if t.Lit? || t.i >= i {
        PutTwice(t, i, q, groups[i]);
      } else {
        LitsTwice(Meaning(t, groups, esc), i, q, groups[i]);
      }
    }
  }

  lemma {:induction false} PutToEmpty(groups: seq<string>, esc: char -> string, k: nat)
    requires 1 <= k <= |groups|
    ensures PutTo([], groups, esc, k) == []
  {
    if k > 1 {
      PutToEmpty(groups, esc, k - 1);
    }
  }

  lemma {:induction false} PutToRenders(ks: seq<Token>, groups: seq<string>, esc: char -> string, k: nat)
    requires 1 <= k <= |groups|
    requires forall t :: t in ks ==> GoodToken(t) && (!t.Lit? ==> (t.i < k <==> t.i < |groups|))
    ensures Render(PutTo(ks, groups, esc, k)) == OnePass(ks, groups, esc)
    decreases |ks|
  {
    if ks == [] {
      PutToEmpty(groups, esc, k);
    } else {
      var t, tail := ks[0], ks[1..];
      assert t in ks && ks == [t] + tail && forall x :: x in tail ==> x in ks;
      PutToConcat([t], tail, groups, esc, k);
      PutToOne(t, groups, esc, k);
      PutToRenders(tail, groups, esc, k);
      hide PutTo;
      RenderConcat(PutTo([t], groups, esc, k), PutTo(tail, groups, esc, k));
      RenderLits(Meaning(t, groups, esc));
      RenderOne(t);
    }
  }

  lemma {:induction false} NothingToReplace(s: string, pat: string, text: string)
    requires pat != "" && pat[0] !in s
    ensures ReplaceAll(s, pat, text) == s
  {
    PassOver(s, "", pat, text);
    assert s + "" == s;
  }

  lemma {:induction false} NoDollarIsFinal(t: string, groups: seq<string>, esc: char -> string, j: nat, k: nat)
    requires 1 <= j <= k <= |groups| && '$' !in SplicedTo(t, groups, esc, j)
    ensures SplicedTo(t, groups, esc, k) == SplicedTo(t, groups, esc, j)
    decreases k
  {
    if j < k {
      var i := k - 1;
      NoDollarIsFinal(t, groups, esc, j, i);
      var s, q, c := SplicedTo(t, groups, esc, i), Escaped(esc, groups[i]), groups[i];
      NoReference(s, i, q);
      NothingToReplace(s, Ref(i), c);
      hide ReplaceAll, Escaped;
    }
  }

  /** Without `$` there is no quoted reference either. */
  lemma {:induction false} NoReference(s: string, i: nat, text: string)
    requires '$' !in s
    ensures ReplaceAll(s, QuotedRef(i), text) == s
  {
    if s != "" {
      PrefixMeans(s, QuotedRef(i));
      assert |s| > 1 ==> s[1] in s;
      Step(s, QuotedRef(i), text);
      NoReference(s[1..], i, text);
    }
  }

  lemma {:induction false} RenderNoDollar(ks: seq<Token>)
    requires forall k :: k in ks ==> k.Lit? && k.c != '$'
    ensures '$' !in Render(ks)
  {
    if ks != [] {
      assert ks[0] in ks && forall k :: k in ks[1..] ==> k in ks;
      RenderNoDollar(ks[1..]);
    }
  }

  lemma {:induction false} AllPut(ks: seq<Token>, groups: seq<string>, esc: char -> string)
    requires |groups| >= 10 && forall t :: t in ks ==> Single(t)
    ensures forall t :: t in PutTo(ks, groups, esc, 10) ==> t.Lit?
    decreases |ks|
  {
    if ks == [] {
      PutToEmpty(groups, esc, 10);
    } else {
      var t, tail := ks[0], ks[1..];
      assert t in ks && ks == [t] + tail && forall x :: x in tail ==> x in ks;
      PutToConcat([t], tail, groups, esc, 10);
      PutToOne(t, groups, esc, 10);
      AllPut(tail, groups, esc);
      hide PutTo;
    }
  }

  /** For any number of groups the loop gives one pass over the template as the code reads it. */
  lemma LoopIsCodePass(ks: seq<Token>, groups: seq<string>, esc: char -> string)
    requires groups != [] && JsonLike(esc)
    requires Clean(ks) && (forall t :: t in ks ==> Single(t)) && PlainFor(ks, groups)
    ensures SplicedTo(Render(ks), groups, esc, |groups|) == OnePass(ks, groups, esc)
  {
    var k := if |groups| <= 10 then |groups| else 10;
    LoopPuts(ks, groups, esc, k);
    PutToRenders(ks, groups, esc, k);
    if |groups| > 10 {
      AllPut(ks, groups, esc);
      RenderNoDollar(PutTo(ks, groups, esc, 10));
      hide PutTo, OnePass, Render;
      NoDollarIsFinal(Render(ks), groups, esc, 10, |groups|);
    }
  }

  // ------------------------------------------------------------------ the code's reading and the template's own

  function First(i: nat): nat
    requires i >= 1
    ensures 1 <= First(i) <= 9 && First(i) <= i
  {
    if i < 10 then i else First(i / 10)
  }

  lemma {:induction false} DecimalFirst(i: nat)
    requires i >= 1
    ensures Decimal(i)[0] == '0' + First(i) as char && (i >= 10 ==> |Decimal(i)| > 1)
  {
    if i >= 10 {
      DecimalFirst(i / 10);
    }
  }

  /** The code takes one digit of a reference and leaves the others as text. */
  function Expand(k: Token): seq<Token>
    requires GoodToken(k)
  {
    if k.Lit? || k.i < 10 then [k]
    else if k.Bare? then [Bare(First(k.i))] + Lits(Decimal(k.i)[1..])
    else [Lit('"')] + ([Bare(First(k.i))] + Lits(Decimal(k.i)[1..] + ['"']))
  }

  function ExpandAll(ks: seq<Token>): seq<Token>
    requires forall k :: k in ks ==> GoodToken(k)
  {
    if ks == [] then []
    else
      assert ks[0] in ks && forall k :: k in ks[1..] ==> k in ks;
      Expand(ks[0]) + ExpandAll(ks[1..])
  }

  lemma ExpandRenders(k: Token)
    requires GoodToken(k)
    ensures Render(Expand(k)) == RenderToken(k)
  {
    RenderOne(k);
    if !k.Lit? && k.i >= 10 {
      DecimalFirst(k.i);
      OneDigit(First(k.i));
      var d, b := Decimal(k.i), Bare(First(k.i));
      assert d == [d[0]] + d[1..] && Decimal(First(k.i)) == [d[0]];
      DigitTaken(b.i, d);
      QuotedIs(k.i);
      assert RenderToken(k) == if k.Bare? then Ref(k.i) else QuotedRef(k.i);
      assert Ref(k.i) == "$" + d;
      assert Expand(k) == if k.Bare? then [b] + Lits(d[1..]) else [Lit('"')] + ([b] + Lits(d[1..] + ['"']));
      hide *;
      if k.Bare? {
        ConsRenders(b, d[1..]);
      } else {
        ConsRenders(b, d[1..] + ['"']);
        RenderCons(Lit('"'), [b] + Lits(d[1..] + ['"']));
        LitRenders('"');
        Enclosed2(['"'], Ref(b.i), d[1..]);
      }
    }
  }

  /** What the code leaves of a reference are its other digits. */
  lemma DigitTaken(i: nat, d: string)
    requires d != "" && Decimal(i) == [d[0]]
    ensures Ref(i) + d[1..] == "$" + d
  {
    assert d == [d[0]] + d[1..];
  }

  lemma Enclosed2(q: string, r: string, d: string)
    ensures q + (r + (d + q)) == q + (r + d) + q
  {
  }

  lemma LitRenders(c: char)
    ensures RenderToken(Lit(c)) == [c]
  {
  }

  lemma RenderCons(k: Token, ks: seq<Token>)
    ensures Render([k] + ks) == RenderToken(k) + Render(ks)
  {
    assert ([k] + ks)[1..] == ks;
  }

  lemma ConsRenders(b: Token, d: string)
    requires b.Bare?
    ensures Render([b] + Lits(d)) == Ref(b.i) + d
  {
    RenderCons(b, Lits(d));
    RenderLits(d);
  }

  lemma {:induction false} ExpandAllRenders(ks: seq<Token>)
    requires forall k :: k in ks ==> GoodToken(k)
    ensures Render(ExpandAll(ks)) == Render(ks)
  {
    if ks != [] {
      assert ks[0] in ks && forall k :: k in ks[1..] ==> k in ks;
      ExpandAllRenders(ks[1..]);
      ExpandRenders(ks[0]);
      RenderConcat(Expand(ks[0]), ExpandAll(ks[1..]));
    }
  }

  /** A reference of several digits that the code takes for that of group `i`. */
  predicate ReadAs(k: Token, i: nat) {
    !k.Lit? && k.i >= 10 && First(k.i) == i
  }

  lemma DigitsOnly(i: nat)
    requires i >= 10
    ensures var d := Decimal(i)[1..]; d != "" && '$' !in d && '"' !in d
  {
    DecimalFirst(i);
    var d := Decimal(i)[1..];
    assert forall c :: c in d ==> c in Decimal(i);
  }

  lemma LitsSingle(ds: string)
    requires '$' !in ds
    ensures forall x :: x in Lits(ds) ==> Single(x)
  {
  }

  lemma ExpandOneSingle(k: Token)
    requires GoodToken(k)
    ensures forall x :: x in Expand(k) ==> Single(x)
  {
    if !k.Lit? && k.i >= 10 {
      var d := Decimal(k.i)[1..];
      DigitsOnly(k.i);
      hide Decimal, Lits;
      LitsSingle(if k.Bare? then d else d + ['"']);
      assert Single(Bare(First(k.i))) && Single(Lit('"'));
    }
  }

  lemma ExpandOneBare(k: Token, i: nat)
    requires GoodToken(k) && Bare(i) in Expand(k)
    ensures k == Bare(i) || ReadAs(k, i)
  {
    if !k.Lit? && k.i >= 10 {
      var ds := if k.Bare? then Decimal(k.i)[1..] else Decimal(k.i)[1..] + ['"'];
      assert Bare(i) !in Lits(ds);
    }
  }

  lemma {:induction false} ExpandSingle(ks: seq<Token>)
    requires forall k :: k in ks ==> GoodToken(k)
    ensures forall k :: k in ExpandAll(ks) ==> Single(k)
  {
    if ks != [] {
      assert ks[0] in ks && forall k :: k in ks[1..] ==> k in ks;
      ExpandSingle(ks[1..]);
      ExpandOneSingle(ks[0]);
    }
  }

  lemma {:induction false} ExpandBare(ks: seq<Token>, i: nat) returns (k: Token)
    requires (forall k :: k in ks ==> GoodToken(k)) && Bare(i) in ExpandAll(ks)
    ensures k in ks && (k == Bare(i) || ReadAs(k, i))
  {
    assert ks[0] in ks && forall k :: k in ks[1..] ==> k in ks;
    if Bare(i) in Expand(ks[0]) {
      ExpandOneBare(ks[0], i);
      k := ks[0];
    } else {
      k := ExpandBare(ks[1..], i);
    }
  }

  lemma {:induction false} CleanGood(l: Side, ks: seq<Token>)
    requires CleanFrom(l, ks)
    ensures forall k :: k in ks ==> GoodToken(k)
    decreases |ks|
  {
    if ks != [] {
      CleanGood(SideOf(ks[0]), ks[1..]);
    }
  }

  lemma {:induction false} ExpandClean(l: Side, ks: seq<Token>)
    requires CleanFrom(l, ks) && forall k :: k in ks ==> GoodToken(k)
    ensures CleanFrom(l, ExpandAll(ks)) && Head(ExpandAll(ks)) == Head(ks)
    decreases |ks|
  {
    if ks != [] {
      var k := ks[0];
      assert k in ks && forall x :: x in ks[1..] ==> x in ks;
      ExpandClean(SideOf(k), ks[1..]);
      ExpandOneClean(l, k, ExpandAll(ks[1..]));
    }
  }

  lemma BareDigits(l: Side, b: Token, d: string, rest: seq<Token>)
    requires b.Bare? && b.i >= 1 && d != "" && Plain(d) && CleanFrom(Soft, rest)
    ensures CleanFrom(l, [b] + Lits(d) + rest) && Head([b] + Lits(d) + rest) == Soft
  {
    Relax(Solid, rest);
    assert d[|d| - 1] in d && d[0] in d;
    CleanLits(Soft, d, rest);
    assert ([b] + Lits(d) + rest)[1..] == Lits(d) + rest;
  }

  lemma QuotedDigits(l: Side, b: Token, d: string, rest: seq<Token>)
    requires b.Bare? && b.i >= 1 && d != "" && Plain(d) && CleanFrom(Quote, rest)
    ensures var all := [Lit('"')] + ([b] + Lits(d + ['"'])) + rest; CleanFrom(l, all) && Head(all) == Quote
  {
    var e := d + ['"'];
    assert d[0] in d;
    CleanLits(Soft, e, rest);
    var all, mid := [Lit('"')] + ([b] + Lits(e)) + rest, Lits(e) + rest;
    hide Lits;
    assert all[1..] == [b] + mid && ([b] + mid)[1..] == mid;
    assert CleanFrom(Quote, [b] + mid);
  }

  lemma ExpandOneClean(l: Side, k: Token, rest: seq<Token>)
    requires GoodToken(k) && CleanFrom(SideOf(k), rest) && (k.Bare? ==> Allowed(l, Head(rest)))
    ensures CleanFrom(l, Expand(k) + rest) && Head(Expand(k) + rest) == SideOf(k)
  {
    if k.Lit? || k.i < 10 {
      assert ([k] + rest)[1..] == rest;
    } else {
      DigitsOnly(k.i);
      hide Decimal, First, CleanFrom, Lits;
      if k.Bare? {
        BareDigits(l, Bare(First(k.i)), Decimal(k.i)[1..], rest);
      } else {
        QuotedDigits(l, Bare(First(k.i)), Decimal(k.i)[1..], rest);
      }
    }
  }

  /** A reference of several digits whose first digit names a group. */
  predicate Live(k: Token, n: nat) {
    !k.Lit? && k.i >= 10 && First(k.i) < n
  }

  lemma ExpandMeans(k: Token, groups: seq<string>, esc: char -> string)
    requires GoodToken(k) && !Live(k, |groups|)
    ensures OnePass(Expand(k), groups, esc) == Meaning(k, groups, esc)
  {
    if k.Lit? || k.i < 10 {
      assert [k][1..] == [];
      assert OnePass([], groups, esc) == "";
    } else {
      ExpandRenders(k);
      PlainPass(Expand(k), groups, esc);
    }
  }

  /** Tokens that name no group mean themselves. */
  lemma {:induction false} PlainPass(ks: seq<Token>, groups: seq<string>, esc: char -> string)
    requires forall k :: k in ks ==> k.Lit? || k.i >= |groups|
    ensures OnePass(ks, groups, esc) == Render(ks)
  {
    if ks != [] {
      assert ks[0] in ks && forall k :: k in ks[1..] ==> k in ks;
      PlainPass(ks[1..], groups, esc);
    }
  }

  lemma {:induction false} ExpandAllMeans(ks: seq<Token>, groups: seq<string>, esc: char -> string)
    requires forall k :: k in ks ==> GoodToken(k) && !Live(k, |groups|)
    ensures OnePass(ExpandAll(ks), groups, esc) == OnePass(ks, groups, esc)
  {
    if ks != [] {
      assert ks[0] in ks && forall k :: k in ks[1..] ==> k in ks;
      ExpandAllMeans(ks[1..], groups, esc);
      ExpandMeans(ks[0], groups, esc);
      OnePassConcat(Expand(ks[0]), ExpandAll(ks[1..]), groups, esc);
    }
  }

  /** The loop is one pass over the template as the code reads it, for any number of groups. */
  lemma LoopReads(t: string, groups: seq<string>, esc: char -> string)
    requires groups != [] && JsonLike(esc) && Clean(Tokens(t)) && (forall k :: k in Tokens(t) ==> GoodToken(k))
    requires PlainFor(ExpandAll(Tokens(t)), groups)
    ensures SplicedTo(t, groups, esc, |groups|) == OnePass(ExpandAll(Tokens(t)), groups, esc)
  {
    var ks := Tokens(t);
    TokensRender(t);
    ExpandAllRenders(ks);
    ExpandClean(Solid, ks);
    ExpandSingle(ks);
    hide Tokens, ExpandAll, SplicedTo, OnePass, Render;
    LoopIsCodePass(ExpandAll(ks), groups, esc);
  }

  /**
   For any number of groups, captures without `$` and, where a bare reference uses them, without
   quotes, and a clean template with no live reference of several digits, the replacement loop
   gives the same text as one left-to-right pass over the template.
   */
  lemma LoopIsOnePass(t: string, groups: seq<string>, esc: char -> string)
    requires groups != [] && JsonLike(esc) && Clean(Tokens(t)) && PlainFor(Tokens(t), groups)
    requires forall k :: k in Tokens(t) ==> !Live(k, |groups|)
    ensures SplicedTo(t, groups, esc, |groups|) == OnePass(Tokens(t), groups, esc)
  {
    var ks := Tokens(t);
    CleanGood(Solid, ks);
    hide Tokens, ExpandAll;
    forall i | 1 <= i < |groups| && Bare(i) in ExpandAll(ks)
      ensures Bare(i) in ks
    {
      var k := ExpandBare(ks, i);
      assert !Live(k, |groups|);
    }
    assert PlainFor(ExpandAll(ks), groups);
    LoopReads(t, groups, esc);
    ExpandAllMeans(ks, groups, esc);
  }

  // ------------------------------------------------------------------ ... and only then

  /** The loop and the one pass agree on all plain captures of `n` groups. */
  ghost predicate Agree(t: string, n: nat, esc: char -> string)
    requires n >= 1
  {
    forall groups :: |groups| == n && PlainFor(Tokens(t), groups) ==>
      SplicedTo(t, groups, esc, n) == OnePass(Tokens(t), groups, esc)
  }

  /** Loop and one pass agree for all plain captures exactly if no reference of several digits is live. */
  lemma AgreeIff(t: string, n: nat, esc: char -> string)
    requires n >= 1 && JsonLike(esc) && Clean(Tokens(t))
    ensures Agree(t, n, esc) <==> forall k :: k in Tokens(t) ==> !Live(k, n)
  {
    if forall k :: k in Tokens(t) ==> !Live(k, n) {
      forall groups | |groups| == n && PlainFor(Tokens(t), groups)
        ensures SplicedTo(t, groups, esc, n) == OnePass(Tokens(t), groups, esc)
      {
        LoopIsOnePass(t, groups, esc);
      }
    } else {
      var groups := Disagree(t, n, esc);
      assert !Agree(t, n, esc);
    }
  }

  /** Position of the first live reference. */
  lemma {:induction false} FirstLive(ks: seq<Token>, n: nat) returns (p: nat)
    requires exists k :: k in ks && Live(k, n)
    ensures p < |ks| && Live(ks[p], n) && forall k :: k in ks[..p] ==> !Live(k, n)
  {
    if Live(ks[0], n) {
      p := 0;
    } else {
      assert ks == [ks[0]] + ks[1..];
      p := FirstLive(ks[1..], n);
      p := p + 1;
      assert ks[..p] == [ks[0]] + ks[1..][..p - 1];
    }
  }

  lemma {:induction false} ExpandAllConcat(a: seq<Token>, b: seq<Token>)
    requires (forall k :: k in a ==> GoodToken(k)) && forall k :: k in b ==> GoodToken(k)
    ensures forall k :: k in a + b ==> GoodToken(k)
    ensures ExpandAll(a + b) == ExpandAll(a) + ExpandAll(b)
  {
    if a == [] {
      assert a + b == b;
    } else {
      assert a[0] in a && forall k :: k in a[1..] ==> k in a;
      assert (a + b)[1..] == a[1..] + b;
      ExpandAllConcat(a[1..], b);
      assert Expand(a[0]) + (ExpandAll(a[1..]) + ExpandAll(b)) == Expand(a[0]) + ExpandAll(a[1..]) + ExpandAll(b);
    }
  }

  /** Captures that show the difference: all empty but that of the live reference itself. */
  function Telling(n: nat, i: nat): seq<string> {
    seq(n, j requires 0 <= j < n => if j == i then "y" else "")
  }

  /** Where the code leaves a digit, the reference has something else. */
  lemma BareLive(k: Token, n: nat, esc: char -> string)
    requires k.Bare? && k.i >= 1 && Live(k, n)
    ensures var groups := Telling(n, k.i);
            OnePass(Expand(k), groups, esc) == Decimal(k.i)[1..]
  {
    var groups, b := Telling(n, k.i), Bare(First(k.i));
    assert First(k.i) != k.i && groups[First(k.i)] == "";
    assert Expand(k) == [b] + Lits(Decimal(k.i)[1..]);
    hide Decimal, First, OnePass, Lits, Expand, Telling;
    EmptyText(b, Decimal(k.i)[1..], groups, esc);
  }

  lemma OnePassCons(k: Token, ks: seq<Token>, groups: seq<string>, esc: char -> string)
    ensures OnePass([k] + ks, groups, esc) == Meaning(k, groups, esc) + OnePass(ks, groups, esc)
  {
    assert ([k] + ks)[1..] == ks;
  }

  /** An empty capture, then text. */
  lemma EmptyText(b: Token, e: string, groups: seq<string>, esc: char -> string)
    requires b.Bare? && 1 <= b.i < |groups| && groups[b.i] == ""
    ensures OnePass([b] + Lits(e), groups, esc) == e
  {
    OnePassCons(b, Lits(e), groups, esc);
    OnePassLits(e, groups, esc);
    assert "" + e == e;
  }

  lemma QuotedLive(k: Token, n: nat, esc: char -> string)
    requires k.Quoted? && k.i >= 1 && Live(k, n)
    ensures var groups := Telling(n, k.i);
            OnePass(Expand(k), groups, esc) == ['"'] + (Decimal(k.i)[1..] + ['"'])
  {
    var groups, e, b := Telling(n, k.i), Decimal(k.i)[1..] + ['"'], Bare(First(k.i));
    assert First(k.i) != k.i && groups[First(k.i)] == "";
    assert Expand(k) == [Lit('"')] + ([b] + Lits(e));
    hide Decimal, First, OnePass, Lits, Expand, Telling;
    OnePassCons(Lit('"'), [b] + Lits(e), groups, esc);
    EmptyText(b, e, groups, esc);
  }

  /** Where the code leaves a digit, the reference has something else. */
  lemma LiveDiffers(k: Token, n: nat, esc: char -> string)
    requires GoodToken(k) && Live(k, n) && JsonLike(esc)
    ensures var groups := Telling(n, k.i);
            var (u, v) := (OnePass(Expand(k), groups, esc), Meaning(k, groups, esc));
            var at := if k.Bare? then 0 else 1;
            at < |u| && at < |v| && u[at] != v[at]
  {
    var groups, d := Telling(n, k.i), Decimal(k.i)[1..];
    DecimalFirst(k.i);
    assert d[0] in Decimal(k.i) && IsDigit(d[0]);
    hide Decimal;
    if k.Bare? {
      BareLive(k, n, esc);
      hide OnePass, Expand;
    } else {
      QuotedLive(k, n, esc);
      hide OnePass, Expand;
      assert "y"[1..] == "" && Flat(esc, "") == "";
      assert Flat(esc, "y") == esc('y') + "";
      assert !IsDigit(esc('y')[0]);
    }
  }

  lemma DifferAt(x: string, u: string, y: string, v: string, z: string, j: nat)
    requires j < |u| && j < |v| && u[j] != v[j]
    ensures x + u + y != x + v + z
  {
    assert (x + u + y)[|x| + j] == u[j] && (x + v + z)[|x| + j] == v[j];
  }

  /** Both passes over a template cut at one token. */
  lemma AroundToken(pre: seq<Token>, k: Token, post: seq<Token>, groups: seq<string>, esc: char -> string)
    requires forall x :: x in pre || x in post || x == k ==> GoodToken(x)
    ensures forall x :: x in pre + ([k] + post) ==> GoodToken(x)
    ensures OnePass(ExpandAll(pre + ([k] + post)), groups, esc)
         == OnePass(ExpandAll(pre), groups, esc) + OnePass(Expand(k), groups, esc) + OnePass(ExpandAll(post), groups, esc)
    ensures OnePass(pre + ([k] + post), groups, esc)
         == OnePass(pre, groups, esc) + Meaning(k, groups, esc) + OnePass(post, groups, esc)
  {
    ExpandAllConcat(pre, [k] + post);
    assert ([k] + post)[1..] == post;
    assert ExpandAll([k] + post) == Expand(k) + ExpandAll(post);
    assert OnePass([k] + post, groups, esc) == Meaning(k, groups, esc) + OnePass(post, groups, esc);
    hide Expand, ExpandAll, OnePass, Meaning;
    OnePassConcat(ExpandAll(pre), Expand(k) + ExpandAll(post), groups, esc);
    OnePassConcat(Expand(k), ExpandAll(post), groups, esc);
    OnePassConcat(pre, [k] + post, groups, esc);
    Regroup(OnePass(ExpandAll(pre), groups, esc), OnePass(Expand(k), groups, esc), OnePass(ExpandAll(post), groups, esc));
    Regroup(OnePass(pre, groups, esc), Meaning(k, groups, esc), OnePass(post, groups, esc));
  }

  lemma TellingPlain(n: nat, i: nat, ks: seq<Token>)
    ensures |Telling(n, i)| == n && PlainFor(ks, Telling(n, i))
  {
  }

  lemma Disagree(t: string, n: nat, esc: char -> string) returns (groups: seq<string>)
    requires n >= 1 && JsonLike(esc) && Clean(Tokens(t)) && exists k :: k in Tokens(t) && Live(k, n)
    ensures |groups| == n && PlainFor(Tokens(t), groups)
    ensures SplicedTo(t, groups, esc, n) != OnePass(Tokens(t), groups, esc)
  {
    var ks := Tokens(t);
    var p := FirstLive(ks, n);
    assert ks == ks[..p] + ([ks[p]] + ks[p + 1..]);
    groups := Telling(n, ks[p].i);
    CleanGood(Solid, ks);
    TellingPlain(n, ks[p].i, ks);
    TellingPlain(n, ks[p].i, ExpandAll(ks));
    hide *;
    LoopReads(t, groups, esc);
    DisagreeAt(ks[..p], ks[p], ks[p + 1..], n, esc);
  }

  lemma DisagreeAt(pre: seq<Token>, k: Token, post: seq<Token>, n: nat, esc: char -> string)
    requires JsonLike(esc) && Live(k, n) && |Telling(n, k.i)| == n
    requires forall x :: x in pre + ([k] + post) ==> GoodToken(x)
    requires forall x :: x in pre ==> !Live(x, n)
    ensures var (groups, ks) := (Telling(n, k.i), pre + ([k] + post));
            OnePass(ExpandAll(ks), groups, esc) != OnePass(ks, groups, esc)
  {
    var groups := Telling(n, k.i);
    hide *;
    Members(pre, k, post);
    AroundToken(pre, k, post, groups, esc);
    ExpandAllMeans(pre, groups, esc);
    LiveDiffers(k, n, esc);
    DifferAt(OnePass(pre, groups, esc), OnePass(Expand(k), groups, esc), OnePass(ExpandAll(post), groups, esc),
             Meaning(k, groups, esc), OnePass(post, groups, esc), if k.Bare? then 0 else 1);
  }

  lemma Members(pre: seq<Token>, k: Token, post: seq<Token>)
    ensures forall x :: x in pre || x in post || x == k ==> x in pre + ([k] + post)
  {
  }

  lemma TenthText()
    ensures Ref(10) == Ref(1) + "0"
  {
    assert Decimal(10) == "10" && Decimal(1) == "1";
  }

  /** With ten groups or more, a reference to the tenth is spliced as the first followed by a zero. */
  lemma TenthGroupIsTheFirst(groups: seq<string>, esc: char -> string)
    requires |groups| > 10 && '$' !in groups[1]
    ensures SplicedTo(Ref(10), groups, esc, |groups|) == groups[1] + "0"
  {
    hide SplicedTo, ReplaceAll, Decimal, Ref;
    TenthText();
    FirstGroup("0", groups, esc);
    NoDollarIsFinal(Ref(10), groups, esc, 2, |groups|);
  }

  lemma FirstGroup(rest: string, groups: seq<string>, esc: char -> string)
    requires |groups| >= 2 && '$' !in rest && '"' !in rest
    ensures SplicedTo(Ref(1) + rest, groups, esc, 2) == groups[1] + rest
  {
    var t, r, q := Ref(1) + rest, Ref(1), QuotedRef(1);
    OneDigit(1);
    assert '"' !in t;
    NothingToReplace(t, q, Escaped(esc, groups[1]));
    Hit(r, rest, groups[1]);
    NothingToReplace(rest, r, groups[1]);
    hide ReplaceAll;
    assert SplicedTo(t, groups, esc, 1) == t;
  }

  /** A capture that spells a later reference is substituted again. */
  lemma CaptureIsSplicedAgain(second: string, esc: char -> string)
    requires '$' !in second
    ensures SplicedTo(Ref(1), ["", Ref(2), second], esc, 3) == second
  {
    var groups := ["", Ref(2), second];
    assert Ref(1) + "" == Ref(1) && Ref(2) + "" == Ref(2);
    OneDigit(2);
    FirstGroup("", groups, esc);
    NothingToReplace(Ref(2), QuotedRef(2), Escaped(esc, second));
    Hit(Ref(2), "", second);
    assert ReplaceAll("", Ref(2), second) == "";
    hide ReplaceAll;
    assert SplicedTo(Ref(1), groups, esc, 2) == Ref(2);
  }

  // ------------------------------------------------------------------ the miner's own template

  predicate Contains(s: string, p: string) {
    HasPrefix(s, p) || (s != "" && Contains(s[1..], p))
  }

  function MinedText(value: string): string {
    "{\"path\":" + value + "}"
  }

  /** The replacement gets past the escaping of a first character that begins no reference. */
  lemma FlatStep(esc: char -> string, c: string, tail: string, text: string)
    requires JsonLike(esc) && c != "" && !HasPrefix(c, Ref(1)) && tail != "" && tail[0] != '1'
    ensures var rest := Flat(esc, c[1..]) + tail;
            && Flat(esc, c) + tail == esc(c[0]) + rest
            && ReplaceAll(Flat(esc, c) + tail, Ref(1), text) == esc(c[0]) + ReplaceAll(rest, Ref(1), text)
  {
    var rest := Flat(esc, c[1..]) + tail;
    assert Flat(esc, c) + tail == esc(c[0]) + rest;
    var r := Ref(1);
    assert r != "" && r[0] == '$';
    if c[0] == '$' {
      assert esc(c[0]) == [c[0]];
      hide *;
      NotTheGroup(esc, c, tail);
      StepOver(c[0], rest, r, text);
    } else {
      assert '$' !in esc(c[0]);
      hide *;
      PassOver(esc(c[0]), rest, r, text);
    }
  }

  /** No reference in a capture, none in its escaping. */
  lemma {:induction false} FlatKept(esc: char -> string, c: string, tail: string, text: string)
    requires JsonLike(esc) && !Contains(c, Ref(1)) && tail != "" && '$' !in tail && tail[0] != '1'
    ensures ReplaceAll(Flat(esc, c) + tail, Ref(1), text) == Flat(esc, c) + tail
  {
    if c == "" {
      assert Flat(esc, c) + tail == tail;
      NothingToReplace(tail, Ref(1), text);
    } else {
      assert !HasPrefix(c, Ref(1)) && !Contains(c[1..], Ref(1));
      hide ReplaceAll, Contains, Flat, JsonLike, Ref;
      FlatKept(esc, c[1..], tail, text);
      FlatStep(esc, c, tail, text);
    }
  }

  /** A `$` that is not followed by a 1 in the capture is not followed by one in its escaping. */
  lemma NotTheGroup(esc: char -> string, c: string, tail: string)
    requires JsonLike(esc) && c != "" && c[0] == '$' && !HasPrefix(c, Ref(1)) && tail != "" && tail[0] != '1'
    ensures !HasPrefix([c[0]] + (Flat(esc, c[1..]) + tail), Ref(1))
  {
    OneDigit(1);
    var s := [c[0]] + (Flat(esc, c[1..]) + tail);
    PrefixMeans(s, Ref(1));
    PrefixMeans(c, Ref(1));
    if |c| > 1 {
      assert Flat(esc, c[1..]) == esc(c[1]) + Flat(esc, c[1..][1..]);
      assert c[1] != '1' && s[1] == esc(c[1])[0];
      assert IsDigit(c[1]) ==> esc(c[1])[0] == c[1];
    } else {
      assert Flat(esc, c[1..]) == "" && s[1] == tail[0];
    }
  }

  lemma {:induction false} NeverShorter(s: string, pat: string, text: string)
    requires 0 < |pat| <= |text|
    ensures |ReplaceAll(s, pat, text)| >= |s|
    decreases |s|
  {
    if s != "" {
      if HasPrefix(s, pat) {
        NeverShorter(s[|pat|..], pat, text);
      } else {
        NeverShorter(s[1..], pat, text);
      }
    }
  }

  /** A reference in a capture is replaced in its escaping, by something longer. */
  lemma {:induction false} FlatGrows(esc: char -> string, c: string, tail: string, text: string)
    requires JsonLike(esc) && Contains(c, Ref(1)) && tail != "" && tail[0] != '1' && |text| > 2
    ensures |ReplaceAll(Flat(esc, c) + tail, Ref(1), text)| > |Flat(esc, c) + tail|
  {
    OneDigit(1);
    PrefixMeans(c, Ref(1));
    var rest := Flat(esc, c[1..]) + tail;
    assert Flat(esc, c) + tail == esc(c[0]) + rest;
    if HasPrefix(c, Ref(1)) {
      var r := Flat(esc, c[2..]) + tail;
      assert c[1..][1..] == c[2..] && rest == esc(c[1]) + r;
      assert Flat(esc, c) + tail == Ref(1) + r;
      Hit(Ref(1), r, text);
      NeverShorter(r, Ref(1), text);
    } else {
      FlatGrows(esc, c[1..], tail, text);
      FlatStep(esc, c, tail, text);
    }
  }

  /** The two replacements on the miner's template. */
  lemma MinedSplice(whole: string, c: string, esc: char -> string)
    ensures SplicedTo(MinedText(QuotedRef(1)), [whole, c], esc, 2)
         == "{\"path\":" + (['"'] + ReplaceAll(Flat(esc, c) + "\"}", Ref(1), c))
  {
    var groups, e, q, r := [whole, c], Escaped(esc, c), QuotedRef(1), Ref(1);
    var head: string := "{\"path\":";
    OneDigit(1);
    assert SplicedTo(MinedText(q), groups, esc, 1) == MinedText(q) == head + (q + "}");
    MinedQuoted(e);
    assert e + "}" == ['"'] + (Flat(esc, c) + "\"}");
    PassOver(head, ['"'] + (Flat(esc, c) + "\"}"), r, c);
    PassOver(['"'], Flat(esc, c) + "\"}", r, c);
  }

  lemma MinedHead(x: string)
    ensures "{\"path\":" + x == "{" + (['"'] + ("path" + (['"'] + (":" + x))))
  {
  }

  /** Two quotes that begin no reference, then one that does. */
  lemma QuotedInside(a: string, b: string, c: string, d: string, i: nat, text: string)
    requires 1 <= i <= 9 && '"' !in a && '"' !in b && '"' !in c && '"' !in d
    requires b != "" && b[0] != '$' && c != "" && c[0] != '$'
    ensures var (o, q) := (['"'], QuotedRef(i));
            ReplaceAll(a + (o + (b + (o + (c + (q + d))))), q, text) == a + (o + (b + (o + (c + (text + d)))))
  {
    var q := QuotedRef(i);
    PatternQuote(i);
    assert (b + (['"'] + (c + (q + d))))[0] == b[0] && (c + (q + d))[0] == c[0];
    hide *;
    PassOver(a, ['"'] + (b + (['"'] + (c + (q + d)))), q, text);
    OtherAhead(b + (['"'] + (c + (q + d))), i);
    StepOver('"', b + (['"'] + (c + (q + d))), q, text);
    PassOver(b, ['"'] + (c + (q + d)), q, text);
    OtherAhead(c + (q + d), i);
    StepOver('"', c + (q + d), q, text);
    PassOver(c, q + d, q, text);
    Hit(q, d, text);
    NothingToReplace(d, q, text);
  }

  lemma MinedQuoted(e: string)
    ensures ReplaceAll("{\"path\":" + (QuotedRef(1) + "}"), QuotedRef(1), e) == "{\"path\":" + (e + "}")
  {
    hide *;
    MinedHead(QuotedRef(1) + "}");
    MinedHead(e + "}");
    QuotedInside("{", "path", ":", "}", 1, e);
  }

  /**
   "Quoted form: fully escaped value" holds of the miner's template exactly if the capture does not
   spell a reference to itself, or is nothing but that reference: otherwise the raw capture is
   spliced into its own escaping.
   */
  lemma MinedTemplateIff(whole: string, c: string, esc: char -> string)
    requires JsonLike(esc)
    ensures SplicedTo(MinedText(QuotedRef(1)), [whole, c], esc, 2) == MinedText(Escaped(esc, c))
            <==> c == Ref(1) || !Contains(c, Ref(1))
  {
    MinedSplice(whole, c, esc);
    var body := Flat(esc, c) + "\"}";
    assert MinedText(Escaped(esc, c)) == "{\"path\":" + (['"'] + body);
    hide SplicedTo, MinedText, Escaped;
    OneDigit(1);
    if c == Ref(1) {
      OwnReference(esc);
    } else if Contains(c, Ref(1)) {
      LongerThan(c);
      FlatGrows(esc, c, "\"}", c);
    } else {
      FlatKept(esc, c, "\"}", c);
    }
  }

  lemma OwnCapture(esc: char -> string)
    requires JsonLike(esc) && esc('a') == "a"
    ensures Flat(esc, "a$1") == "a$1" && Contains("a$1", Ref(1))
  {
    OneDigit(1);
    var c := "a$1";
    assert c[1..] == "$1" && c[1..][1..] == "1" && c[1..][1..][1..] == "" && Flat(esc, "") == "";
    assert Ref(1) == "$1" && Contains("$1", Ref(1));
    assert Flat(esc, "1") == "1" + "" && Flat(esc, "$1") == "$" + Flat(esc, "1");
    assert Flat(esc, c) == "a" + Flat(esc, "$1");
  }

  lemma OneReference(x: string, tail: string, text: string)
    requires '$' !in x && '$' !in tail
    ensures ReplaceAll(x + Ref(1) + tail, Ref(1), text) == x + text + tail
  {
    Regroup(x, Ref(1), tail);
    Regroup(x, text, tail);
    OneDigit(1);
    var r := Ref(1);
    assert r != "" && r[0] == '$';
    hide *;
    PassOver(x, r + tail, r, text);
    Hit(r, tail, text);
    NothingToReplace(tail, r, text);
  }

  lemma SelfTexts()
    ensures "a$1" == "a" + Ref(1) && '$' !in "a" && '$' !in "\"}"
    ensures "{\"path\":" + (['"'] + ("a" + "a$1" + "\"}")) == MinedText("\"aa$1\"")
    ensures ['"'] + "a$1" + ['"'] == "\"a$1\""
  {
    OneDigit(1);
  }

  /** The capture `a$1` is spliced into its own escaping. */
  lemma SplicedIntoItself(whole: string, esc: char -> string)
    requires JsonLike(esc) && esc('a') == "a"
    ensures SplicedTo(MinedText(QuotedRef(1)), [whole, "a$1"], esc, 2) == MinedText("\"aa$1\"")
    ensures MinedText(Escaped(esc, "a$1")) == MinedText("\"a$1\"")
  {
    var c := "a$1";
    OwnCapture(esc);
    assert Escaped(esc, c) == ['"'] + Flat(esc, c) + ['"'];
    hide *;
    MinedSplice(whole, c, esc);
    SelfTexts();
    OneReference("a", "\"}", c);
  }

  lemma {:induction false} LongerThan(c: string)
    requires Contains(c, Ref(1)) && c != Ref(1)
    ensures |c| > 2
  {
    OneDigit(1);
    PrefixMeans(c, Ref(1));
    if !HasPrefix(c, Ref(1)) && c[1..] != Ref(1) {
      LongerThan(c[1..]);
    }
  }

  lemma OwnReference(esc: char -> string)
    requires JsonLike(esc)
    ensures ReplaceAll(Flat(esc, Ref(1)) + "\"}", Ref(1), Ref(1)) == Flat(esc, Ref(1)) + "\"}"
  {
    OneDigit(1);
    assert Ref(1)[1..][1..] == "" && Flat(esc, "") == "";
    assert Flat(esc, Ref(1)) == esc('$') + (esc('1') + "");
    assert Flat(esc, Ref(1)) == Ref(1);
    Hit(Ref(1), "\"}", Ref(1));
    NothingToReplace("\"}", Ref(1), Ref(1));
  }

  // ------------------------------------------------------------------ reading a template

  lemma {:induction false} DigitRunStops(ds: string, rest: string)
    requires (forall i :: 0 <= i < |ds| ==> IsDigit(ds[i])) && (rest == "" || !IsDigit(rest[0]))
    ensures DigitRun(ds + rest) == |ds|
  {
    if ds == "" {
      assert ds + rest == rest;
    } else {
      assert (ds + rest)[1..] == ds[1..] + rest;
      DigitRunStops(ds[1..], rest);
    }
  }

  /** Digits that do not begin with a zero. */
  predicate GroupDigits(ds: string) {
    ds != "" && '1' <= ds[0] <= '9' && forall i :: 0 <= i < |ds| ==> '0' <= ds[i] <= '9'
  }

  lemma ReadsQuoted(ds: string, rest: string)
    requires GroupDigits(ds)
    ensures QuotedAt(['"'] + (['$'] + (ds + (['"'] + rest)))) == |ds| + 3
  {
    var tail := ['"'] + rest;
    var t := ['"'] + (['$'] + (ds + tail));
    DigitRunStops(ds[1..], tail);
    assert t[3..] == ds[1..] + tail && t[2] == ds[0] && t[2 + |ds|] == '"';
  }

  lemma ReadsBare(ds: string, rest: string)
    requires GroupDigits(ds) && (rest == "" || !IsDigit(rest[0]))
    ensures QuotedAt(['$'] + (ds + rest)) == 0 && BareAt(['$'] + (ds + rest)) == |ds| + 1
  {
    var t := ['$'] + (ds + rest);
    DigitRunStops(ds[1..], rest);
    assert t[2..] == ds[1..] + rest && t[1] == ds[0];
  }

  lemma TokensQuoted(ds: string, rest: string)
    requires GroupDigits(ds)
    ensures Tokens(['"'] + (['$'] + (ds + (['"'] + rest)))) == [Quoted(Number(ds))] + Tokens(rest)
  {
    ReadsQuoted(ds, rest);
    var t := ['"'] + (['$'] + (ds + (['"'] + rest)));
    assert t[2..|ds| + 2] == ds && t[|ds| + 3..] == rest;
    hide QuotedAt, BareAt, Number;
  }

  lemma TokensBare(ds: string, rest: string)
    requires GroupDigits(ds) && (rest == "" || !IsDigit(rest[0]))
    ensures Tokens(['$'] + (ds + rest)) == [Bare(Number(ds))] + Tokens(rest)
  {
    ReadsBare(ds, rest);
    var t := ['$'] + (ds + rest);
    assert t[1..|ds| + 1] == ds && t[|ds| + 1..] == rest;
    hide QuotedAt, BareAt, Number;
  }

  /**
   How a template is read: a reference between quotes is quoted, one that is not takes all the digits
   that follow, its number is the one its digits write, and a text that begins with neither a quote nor
   a dollar sign begins with a character of its own.
   */
  lemma TokensMean(ds: string, rest: string)
    requires GroupDigits(ds)
    ensures Tokens(['"'] + (['$'] + (ds + (['"'] + rest)))) == [Quoted(Number(ds))] + Tokens(rest)
    ensures rest == "" || !('0' <= rest[0] <= '9') ==> Tokens(['$'] + (ds + rest)) == [Bare(Number(ds))] + Tokens(rest)
    ensures rest != "" && rest[0] != '"' && rest[0] != '$' ==> Tokens(rest) == [Lit(rest[0])] + Tokens(rest[1..])
    ensures Decimal(Number(ds)) == ds
  {
    DecimalOfNumber(ds);
    hide Number, Decimal;
    TokensQuoted(ds, rest);
    if rest == "" || !IsDigit(rest[0]) {
      TokensBare(ds, rest);
    }
  }

  /** The escaping of JSON, as far as it goes for quotes and backslashes, is one of those meant. */
  lemma JsonEscapes()
    ensures JsonLike(c => if c == '"' || c == '\\' then ['\\', c] else [c])
  {
  }
}
