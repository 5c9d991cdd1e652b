/**
 The string operations the service takes from its standard library: trimming,
 splitting on one character, splitting into fields, and joining.
 */
module Text {

  /** White space as Unicode defines it (the set used by trimming and by fields). */
  predicate IsSpace(c: char) {
    || '\t' <= c <= '\r' || c == ' ' || c == '\U{85}' || c == '\U{A0}' || c == '\U{1680}'
    || '\U{2000}' <= c <= '\U{200A}' || c == '\U{2028}' || c == '\U{2029}'
    || c == '\U{202F}' || c == '\U{205F}' || c == '\U{3000}'
  }

  function TrimLeft(s: string): string {
    if s != "" && IsSpace(s[0]) then TrimLeft(s[1..]) else s
  }

  function TrimRight(s: string): string {
    if s != "" && IsSpace(s[|s| - 1]) then TrimRight(s[..|s| - 1]) else s
  }

  function Trim(s: string): string {
    TrimRight(TrimLeft(s))
  }

  /** No white space at either end. */
  predicate Trimmed(s: string) {
    s == "" || (!IsSpace(s[0]) && !IsSpace(s[|s| - 1]))
  }

  lemma {:induction false} TrimLeftCut(s: string)
    ensures |TrimLeft(s)| <= |s| && TrimLeft(s) == s[|s| - |TrimLeft(s)|..]
    ensures TrimLeft(s) != "" ==> !IsSpace(TrimLeft(s)[0])
  {
    if s != "" && IsSpace(s[0]) {
      TrimLeftCut(s[1..]);
    }
  }

  lemma {:induction false} TrimRightCut(s: string)
    ensures TrimRight(s) <= s
    ensures TrimRight(s) != "" ==> !IsSpace(TrimRight(s)[|TrimRight(s)| - 1])
  {
    if s != "" && IsSpace(s[|s| - 1]) {
      TrimRightCut(s[..|s| - 1]);
    }
  }

  lemma TrimIsTrimmed(s: string)
    ensures Trimmed(Trim(s))
    ensures Trimmed(s) ==> Trim(s) == s
    ensures forall c: char :: c !in s ==> c !in Trim(s)
  {
    TrimLeftCut(s);
    TrimRightCut(TrimLeft(s));
  }

  /** Leading or trailing blanks do not show after trimming. */
  lemma {:induction false} TrimLeadingBlank(s: string)
    ensures Trim(" " + s) == Trim(s)
  {
    assert (" " + s)[1..] == s;
  }

  lemma {:induction false} TrimTrailingBlank(s: string)
    ensures Trim(s + " ") == Trim(s)
  {
    if s != "" && IsSpace(s[0]) {
      assert (s + " ")[1..] == s[1..] + " ";
      TrimTrailingBlank(s[1..]);
    } else if s == "" {
      assert " "[1..] == "";
      assert TrimLeft(" ") == "";
      assert s + " " == " ";
    } else {
      assert (s + " ")[..|s|] == s;
    }
  }

  function Split(s: string, sep: char): (parts: seq<string>)
    ensures |parts| >= 1
  {
    if s == "" then [""]
    else
      var rest := Split(s[1..], sep);
      if s[0] == sep then [""] + rest else [[s[0]] + rest[0]] + rest[1..]
  }

  /** Joining puts `sep` between neighbours. */
  function Join(parts: seq<string>, sep: string): string {
    if parts == [] then "" else parts[0] + Suffixes(parts[1..], sep)
  }

  /** Every part preceded by `sep`. */
  function Suffixes(parts: seq<string>, sep: string): string {
    if parts == [] then "" else sep + parts[0] + Suffixes(parts[1..], sep)
  }

  lemma {:induction false} SuffixesConcat(a: seq<string>, b: seq<string>, sep: string)
    ensures Suffixes(a + b, sep) == Suffixes(a, sep) + Suffixes(b, sep)
  {
    if a == [] {
      assert a + b == b;
    } else {
      assert (a + b)[1..] == a[1..] + b;
      SuffixesConcat(a[1..], b, sep);
    }
  }

  /** Such a text ends like its last part. */
  lemma {:induction false} SuffixesLast(parts: seq<string>, sep: string)
    requires parts != [] && parts[|parts| - 1] != ""
    ensures var t, last := Suffixes(parts, sep), parts[|parts| - 1];
            t != "" && t[|t| - 1] == last[|last| - 1]
  {
    if |parts| > 1 {
      SuffixesLast(parts[1..], sep);
    }
  }

  lemma {:induction false} JoinAppend(parts: seq<string>, p: string, sep: string)
    requires parts != []
    ensures Join(parts + [p], sep) == Join(parts, sep) + sep + p
  {
    assert (parts + [p])[1..] == parts[1..] + [p];
    SuffixesConcat(parts[1..], [p], sep);
    assert Suffixes([p], sep) == sep + p;
  }

  lemma {:induction false} SplitHasNoSep(s: string, sep: char)
    ensures forall p :: p in Split(s, sep) ==> sep !in p
    ensures sep !in s ==> Split(s, sep) == [s]
  {
    if s != "" {
      SplitHasNoSep(s[1..], sep);
      assert [s[0]] + s[1..] == s;
    }
  }

  /** Splitting distributes over a separator. */
  lemma {:induction false} SplitConcat(a: string, b: string, sep: char)
    ensures Split(a + [sep] + b, sep) == Split(a, sep) + Split(b, sep)
  {
    var whole := a + [sep] + b;
    if a == "" {
      assert whole[1..] == b;
    } else {
      assert whole[1..] == a[1..] + [sep] + b;
      SplitConcat(a[1..], b, sep);
    }
  }

  /** Text without the separator, put in front, lands in the first part. */
  lemma {:induction false} SplitPrefix(a: string, b: string, sep: char)
    requires sep !in a
    ensures Split(a + b, sep) == [a + Split(b, sep)[0]] + Split(b, sep)[1..]
  {
    if a == "" {
      assert a + b == b && a + Split(b, sep)[0] == Split(b, sep)[0];
    } else {
      assert (a + b)[1..] == a[1..] + b;
      SplitPrefix(a[1..], b, sep);
      assert [a[0]] + (a[1..] + Split(b, sep)[0]) == a + Split(b, sep)[0];
    }
  }

  lemma SplitHead(s: string, sep: char)
    requires s != ""
    ensures var rest := Split(s[1..], sep);
            Split(s, sep) == if s[0] == sep then [""] + rest else [[s[0]] + rest[0]] + rest[1..]
  {
  }

  function Longer(parts: seq<string>, b: string): seq<string>
    requires parts != []
  {
    parts[..|parts| - 1] + [parts[|parts| - 1] + b]
  }

  lemma LongerBehind(h: string, rest: seq<string>, b: string)
    requires rest != []
    ensures [h] + Longer(rest, b) == Longer([h] + rest, b)
  {
  }

  lemma LongerFirst(c: char, rest: seq<string>, b: string)
    requires rest != []
    ensures [[c] + Longer(rest, b)[0]] + Longer(rest, b)[1..] == Longer([[c] + rest[0]] + rest[1..], b)
  {
    if |rest| == 1 {
      assert [c] + (rest[0] + b) == [c] + rest[0] + b;
    }
  }

  /** ... and put behind, in the last part. */
  lemma {:induction false} SplitSuffix(a: string, b: string, sep: char)
    requires sep !in b
    ensures var p := Split(a, sep); Split(a + b, sep) == p[..|p| - 1] + [p[|p| - 1] + b]
  {
    if a == "" {
      assert a + b == b;
      SplitHasNoSep(b, sep);
    } else {
      assert (a + b)[1..] == a[1..] + b;
      SplitSuffix(a[1..], b, sep);
      SplitHead(a, sep);
      SplitHead(a + b, sep);
      LongerBehind("", Split(a[1..], sep), b);
      LongerFirst(a[0], Split(a[1..], sep), b);
      hide Split;
    }
  }

  /** Join undoes Split. */
  lemma {:induction false} JoinOfSplit(s: string, sep: char)
    ensures Join(Split(s, sep), [sep]) == s
  {
    if s != "" {
      JoinOfSplit(s[1..], sep);
      var rest := Split(s[1..], sep);
      if s[0] == sep {
        assert ([""] + rest)[1..] == rest;
        assert Suffixes(rest, [sep]) == [sep] + rest[0] + Suffixes(rest[1..], [sep]);
      } else {
        assert ([[s[0]] + rest[0]] + rest[1..])[1..] == rest[1..];
      }
    }
  }

  /** Split undoes Join when no part holds the separator. */
  lemma {:induction false} SplitOfSuffixes(a: string, parts: seq<string>, sep: char)
    requires sep !in a && forall p :: p in parts ==> sep !in p
    ensures Split(a + Suffixes(parts, [sep]), sep) == [a] + parts
    decreases |parts|
  {
    if parts == [] {
      assert a + Suffixes(parts, [sep]) == a;
      SplitHasNoSep(a, sep);
    } else {
      SplitOfSuffixes(parts[0], parts[1..], sep);
      var rest := parts[0] + Suffixes(parts[1..], [sep]);
      assert a + Suffixes(parts, [sep]) == a + [sep] + rest;
      hide Split, Suffixes;
      SplitConcat(a, rest, sep);
      SplitHasNoSep(a, sep);
      assert [a] + parts == [a] + ([parts[0]] + parts[1..]);
    }
  }

  /** The maximal runs of characters that are not white space. */
  function Fields(s: string): seq<string> {
    FieldsFrom(s, "")
  }

  /** `word` is the run read so far. */
  function FieldsFrom(s: string, word: string): seq<string> {
    var flushed := if word == "" then [] else [word];
    if s == "" then flushed
    else if IsSpace(s[0]) then flushed + FieldsFrom(s[1..], "")
    else FieldsFrom(s[1..], word + [s[0]])
  }

  predicate SpaceFree(s: string) {
    forall c :: c in s ==> !IsSpace(c)
  }

  /** A list of fields: non-empty and free of white space. */
  predicate AreFields(fs: seq<string>) {
    forall f :: f in fs ==> f != "" && SpaceFree(f)
  }

  lemma {:induction false} FieldsAreFields(s: string, word: string)
    requires SpaceFree(word)
    ensures AreFields(FieldsFrom(s, word))
    ensures forall f, c: char :: f in FieldsFrom(s, word) && c in f ==> c in s || c in word
  {
    if s != "" {
      if IsSpace(s[0]) {
        FieldsAreFields(s[1..], "");
      } else {
        FieldsAreFields(s[1..], word + [s[0]]);
      }
    }
  }

  lemma {:induction false} FieldsOfRun(run: string, s: string, word: string)
    requires SpaceFree(run)
    ensures FieldsFrom(run + s, word) == FieldsFrom(s, word + run)
  {
    if run == "" {
      assert run + s == s && word + run == word;
    } else {
      assert (run + s)[1..] == run[1..] + s;
      assert IsSpace(run[0]) == false by { assert run[0] in run; }
      FieldsOfRun(run[1..], s, word + [run[0]]);
      assert word + [run[0]] + run[1..] == word + run;
    }
  }

  /** Fields undoes a join by single blanks. */
  lemma {:induction false} FieldsOfSuffixes(f: string, rest: seq<string>)
    requires f != "" && SpaceFree(f) && AreFields(rest)
    ensures FieldsFrom(f + Suffixes(rest, " "), "") == [f] + rest
    decreases |rest|
  {
    FieldsOfRun(f, Suffixes(rest, " "), "");
    assert "" + f == f;
    if rest != [] {
      assert rest[0] in rest && AreFields(rest[1..]);
      FieldsOfSuffixes(rest[0], rest[1..]);
      assert Suffixes(rest, " ")[1..] == rest[0] + Suffixes(rest[1..], " ");
    }
  }

  lemma FieldsOfJoin(fs: seq<string>)
    requires AreFields(fs)
    ensures Fields(Join(fs, " ")) == fs
  {
    if fs != [] {
      assert fs[0] in fs && AreFields(fs[1..]);
      FieldsOfSuffixes(fs[0], fs[1..]);
      assert [fs[0]] + fs[1..] == fs;
    }
  }

  predicate HasPrefix(s: string, p: string) {
    |p| <= |s| && s[..|p|] == p
  }

  function TrimPrefix(s: string, p: string): string {
    if HasPrefix(s, p) then s[|p|..] else s
  }

  /** A number in decimal, without leading zeros. */
  function Decimal(n: nat): (s: string)
    ensures s != "" && forall c :: c in s ==> '0' <= c <= '9'
  {
    var d := ['0' + (n % 10) as char];
    if n < 10 then d else Decimal(n / 10) + d
  }
}
