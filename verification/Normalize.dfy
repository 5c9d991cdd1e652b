/** The clustering key of a prompt: quoted spans, path-like tokens and numbers become placeholders. */
module Normalize {
  import opened Text

  predicate IsQuote(c: char) {
    c == '"' || c == '\'' || c == '`'
  }

  /** Quoted spans collapse to `<q>`; an unclosed quote swallows the rest. */
  function Collapse(s: string, inQuote: bool): string {
    if s == "" then ""
    else if IsQuote(s[0]) then (if inQuote then "" else "<q>") + Collapse(s[1..], !inQuote)
    else (if inQuote then "" else [s[0]]) + Collapse(s[1..], inQuote)
  }

  predicate NumberChar(c: char) {
    '0' <= c <= '9' || c == '.' || c == ','
  }

  predicate LooksNumeric(f: string) {
    (forall c :: c in f ==> NumberChar(c)) && exists c :: c in f && '0' <= c <= '9'
  }

  predicate PathLike(f: string) {
    '/' in f || '\\' in f
  }

  function Slot(f: string): string {
    if PathLike(f) then "<path>" else if LooksNumeric(f) then "<n>" else f
  }

  function Slots(fs: seq<string>): (r: seq<string>)
    ensures |r| == |fs| && forall i :: 0 <= i < |fs| ==> r[i] == Slot(fs[i])
  {
    if fs == [] then [] else [Slot(fs[0])] + Slots(fs[1..])
  }

  function Normal(p: string): string {
    Join(Slots(Fields(Collapse(Trim(p), false))), " ")
  }

  method NumericField(f: string) returns (numeric: bool)
    ensures numeric == LooksNumeric(f)
    ensures numeric <==> (forall c :: c in f ==> '0' <= c <= '9' || c == '.' || c == ',') && exists c :: c in f && '0' <= c <= '9'
  {
    var hasDigit := false;
    for i := 0 to |f|
      invariant forall c :: c in f[..i] ==> NumberChar(c)
      invariant hasDigit <==> exists k :: 0 <= k < i && '0' <= f[k] <= '9'
    {
      assert f[..i + 1] == f[..i] + [f[i]];
      assert f[i] in f[..i + 1];
      if '0' <= f[i] <= '9' {
        hasDigit := true;
      } else if f[i] != '.' && f[i] != ',' {
        assert f[i] in f && !NumberChar(f[i]);
        return false;
      }
    }
    assert f[..|f|] == f;
    if hasDigit {
      ghost var k :| 0 <= k < |f| && '0' <= f[k] <= '9';
      assert f[k] in f;
    }
    numeric := hasDigit;
  }

  lemma {:induction false} CollapseStep(a: string, b: string, inQuote: bool)
    ensures Collapse(a + b, inQuote) == Collapse(a, inQuote) + Collapse(b, QuoteAfter(a, inQuote))
  {
    if a == "" {
      assert a + b == b;
    } else {
      assert (a + b)[1..] == a[1..] + b;
      CollapseStep(a[1..], b, if IsQuote(a[0]) then !inQuote else inQuote);
    }
  }

  /** Whether a quote is open after reading `s`. */
  function QuoteAfter(s: string, inQuote: bool): bool {
    if s == "" then inQuote else QuoteAfter(s[1..], if IsQuote(s[0]) then !inQuote else inQuote)
  }

  lemma {:induction false} QuoteAfterStep(a: string, c: char, inQuote: bool)
    ensures QuoteAfter(a + [c], inQuote) == if IsQuote(c) then !QuoteAfter(a, inQuote) else QuoteAfter(a, inQuote)
  {
    if a == "" {
      assert a + [c] == [c];
    } else {
      assert (a + [c])[1..] == a[1..] + [c];
      QuoteAfterStep(a[1..], c, if IsQuote(a[0]) then !inQuote else inQuote);
    }
  }

  /** The normaliser as the store runs it: one pass with a quote flag, then the fields overwritten in place. */
  method NormalizePrompt(p: string) returns (shape: string)
    ensures shape == Normal(p)
  {
    var t := Trim(p);
    if t == "" {
      assert Fields("") == [];
      return "";
    }
    var b, inQuote := "", false;
    for i := 0 to |t|
      invariant b == Collapse(t[..i], false) && inQuote == QuoteAfter(t[..i], false)
    {
      assert t[..i + 1] == t[..i] + [t[i]];
      CollapseStep(t[..i], [t[i]], false);
      QuoteAfterStep(t[..i], t[i], false);
      assert Collapse([t[i]], inQuote) == if IsQuote(t[i]) then (if inQuote then "" else "<q>")
                                          else if inQuote then "" else [t[i]];
      if IsQuote(t[i]) {
        if !inQuote {
          inQuote := true;
          b := b + "<q>";
        } else {
          inQuote := false;
        }
      } else if !inQuote {
        b := b + [t[i]];
      }
    }
    assert t[..|t|] == t;
    var fields := Fields(b);
    ghost var original := fields;
    for i := 0 to |fields|
      invariant |fields| == |original| && fields[i..] == original[i..]
      invariant forall j :: 0 <= j < i ==> fields[j] == Slot(original[j])
    {
      var numeric := NumericField(fields[i]);
      if '/' in fields[i] || '\\' in fields[i] {
        fields := fields[i := "<path>"];
      } else if numeric {
        fields := fields[i := "<n>"];
      }
    }
    assert fields == Slots(original);
    shape := Join(fields, " ");
  }

  // ------------------------------------------------------------------ what a shape says

  /** A field with a slash or a backslash is a path, one of digits, dots and commas a number; others stay. */
  lemma SlotMeans(f: string)
    ensures var path := '/' in f || '\\' in f;
            var digit := exists c :: c in f && '0' <= c <= '9';
            var other := exists c :: c in f && !('0' <= c <= '9') && c != '.' && c != ',';
            Slot(f) == if path then "<path>" else if digit && !other then "<n>" else f
  {
  }

  predicate QuoteMark(c: char) {
    c == '"' || c == '\'' || c == '`'
  }

  predicate Plain(s: string) {
    forall c :: c in s ==> !QuoteMark(c)
  }

  lemma {:induction false} CollapsePlain(s: string, rest: string, inQuote: bool)
    requires Plain(s)
    ensures Collapse(s + rest, inQuote) == (if inQuote then "" else s) + Collapse(rest, inQuote)
  {
    if s == "" {
      assert s + rest == rest;
    } else {
      assert s[0] in s && (s + rest)[1..] == s[1..] + rest && s == [s[0]] + s[1..];
      assert forall c :: c in s[1..] ==> c in s;
      CollapsePlain(s[1..], rest, inQuote);
    }
  }

  lemma CollapseMark(q: char, rest: string, inQuote: bool)
    requires QuoteMark(q)
    ensures Collapse([q] + rest, inQuote) == (if inQuote then "" else "<q>") + Collapse(rest, !inQuote)
  {
    assert ([q] + rest)[1..] == rest;
  }

  /** A quote character outside quotes opens a span, inside it closes one. */
  lemma SpanOpens(a: string, q: char, rest: string)
    requires Plain(a) && QuoteMark(q)
    ensures Collapse(a + ([q] + rest), false) == a + ("<q>" + Collapse(rest, true))
  {
    CollapsePlain(a, [q] + rest, false);
    CollapseMark(q, rest, false);
    hide *;
  }

  lemma SpanCloses(span: string, r: char, rest: string)
    requires Plain(span) && QuoteMark(r)
    ensures Collapse(span + ([r] + rest), true) == Collapse(rest, false)
  {
    CollapsePlain(span, [r] + rest, true);
    CollapseMark(r, rest, true);
    hide *;
  }

  lemma EndsPlain(s: string, inQuote: bool)
    requires Plain(s)
    ensures Collapse(s, inQuote) == if inQuote then "" else s
  {
    CollapsePlain(s, "", inQuote);
    assert s + "" == s;
    assert Collapse("", inQuote) == "";
  }

  /**
   Outside quotes text stays. A span from one quote character to the next, whichever they are, becomes
   a placeholder, and an unclosed one swallows the rest.
   */
  lemma CollapseMeans(a: string, q: char, span: string, r: char, rest: string)
    requires Plain(a) && Plain(span) && QuoteMark(q) && QuoteMark(r)
    ensures Collapse(a, false) == a
    ensures Collapse(a + ([q] + span), false) == a + "<q>"
    ensures Collapse(a + ([q] + (span + ([r] + rest))), false) == a + ("<q>" + Collapse(rest, false))
  {
    EndsPlain(a, false);
    EndsPlain(span, true);
    SpanOpens(a, q, span);
    SpanOpens(a, q, span + ([r] + rest));
    SpanCloses(span, r, rest);
    hide *;
  }

  // ------------------------------------------------------------------ idempotence

  predicate QuoteFree(s: string) {
    forall c :: c in s ==> !IsQuote(c)
  }

  lemma {:induction false} CollapseQuoteFree(s: string, inQuote: bool)
    ensures QuoteFree(Collapse(s, inQuote))
    ensures QuoteFree(s) && !inQuote ==> Collapse(s, inQuote) == s
  {
    if s != "" {
      CollapseQuoteFree(s[1..], if IsQuote(s[0]) then !inQuote else inQuote);
      assert s == [s[0]] + s[1..];
    }
  }

  lemma SlotIsField(f: string)
    requires f != "" && SpaceFree(f) && QuoteFree(f)
    ensures Slot(f) != "" && SpaceFree(Slot(f)) && QuoteFree(Slot(f)) && Slot(Slot(f)) == Slot(f)
  {
    assert !NumberChar("<path>"[0]) && !NumberChar("<n>"[0]);
    assert '<' in "<path>" && '<' in "<n>";
  }

  lemma {:induction false} SuffixesQuoteFree(fs: seq<string>)
    requires forall f :: f in fs ==> QuoteFree(f)
    ensures QuoteFree(Suffixes(fs, " "))
    decreases |fs|
  {
    assert !IsQuote(' ');
    if fs != [] {
      assert fs[0] in fs && forall x :: x in fs[1..] ==> x in fs;
      SuffixesQuoteFree(fs[1..]);
    }
  }

  lemma JoinFieldsEnds(fs: seq<string>)
    requires fs != [] && AreFields(fs) && forall f :: f in fs ==> QuoteFree(f)
    ensures var s := Join(fs, " ");
            s != "" && Trimmed(s) && QuoteFree(s)
  {
    var f, rest := fs[0], fs[1..];
    assert f in fs && f[0] in f && f[|f| - 1] in f;
    if rest == [] {
      assert Join(fs, " ") == f;
    } else {
      var last := rest[|rest| - 1];
      assert last in fs && last[|last| - 1] in last;
      assert forall x :: x in rest ==> x in fs;
      SuffixesLast(rest, " ");
      SuffixesQuoteFree(rest);
      hide Suffixes;
    }
  }

  /** The fields a prompt is read into, after the quotes are gone. */
  function PromptFields(p: string): seq<string> {
    Fields(Collapse(Trim(p), false))
  }

  lemma PromptFieldsFacts(p: string)
    ensures AreFields(PromptFields(p)) && forall f :: f in PromptFields(p) ==> QuoteFree(f)
  {
    var b := Collapse(Trim(p), false);
    CollapseQuoteFree(Trim(p), false);
    FieldsAreFields(b, "");
  }

  lemma SlotsAreFields(fs: seq<string>)
    requires AreFields(fs) && forall f :: f in fs ==> QuoteFree(f)
    ensures AreFields(Slots(fs)) && Slots(Slots(fs)) == Slots(fs)
    ensures forall f :: f in Slots(fs) ==> QuoteFree(f)
  {
    forall i | 0 <= i < |fs|
      ensures var s := Slots(fs)[i]; s != "" && SpaceFree(s) && QuoteFree(s) && Slot(s) == s
    {
      assert fs[i] in fs;
      SlotIsField(fs[i]);
    }
  }

  /** Normalising the shape of a prompt gives the shape back: every prompt, balanced quotes or not. */
  lemma NormalIdempotent(p: string)
    ensures Normal(Normal(p)) == Normal(p)
    ensures PromptFields(Normal(p)) == Slots(PromptFields(p))
  {
    var fs := PromptFields(p);
    PromptFieldsFacts(p);
    SlotsAreFields(fs);
    var shape := Slots(fs);
    if shape != [] {
      JoinFieldsEnds(shape);
      TrimIsTrimmed(Normal(p));
      CollapseQuoteFree(Normal(p), false);
      FieldsOfJoin(shape);
    }
  }
}
