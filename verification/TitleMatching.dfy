/** When two titles are taken for the same release: by their words, type suffix and edition aside. */
module TitleMatching {
  import opened Titles

  // ---- words of letters and numbers

  /** Everything but letters and numbers separates words. */
  function SpaceOut(a: Alphabet, s: string): (r: string)
    ensures |r| == |s| && forall i | 0 <= i < |s| :: r[i] == if a.letter(s[i]) then s[i] else ' '
  {
    seq(|s|, i requires 0 <= i < |s| => if a.letter(s[i]) then s[i] else ' ')
  }

  function Words(a: Alphabet, s: string): seq<string> {
    Fields(a, SpaceOut(a, s))
  }

  lemma {:induction false} CollapseSpacedOut(a: Alphabet, s: string)
    requires Lawful(a)
    ensures Collapse(a, SpaceOut(a, s)) == Collapse(a, s)
  {
    if s != "" {
      var last := |s| - 1;
      assert SpaceOut(a, s)[..last] == SpaceOut(a, s[..last]);
      CollapseSpacedOut(a, s[..last]);
    }
  }

  lemma OneWord(a: Alphabet, w: string)
    requires w != "" && forall k | 0 <= k < |w| :: !a.space(w[k])
    ensures Fields(a, w) == [w]
  {
    FieldsOfWord(a, w, "");
    assert w + "" == w;
  }

  /** The words of `s` with one more character, which is no white space: a new word, or a longer last one. */
  function Grown(a: Alphabet, s: string, c: char): seq<string> {
    var f := Fields(a, s);
    if s == "" || a.space(s[|s| - 1]) || f == [] then f + [[c]] else f[..|f| - 1] + [f[|f| - 1] + [c]]
  }

  lemma {:induction false} FieldsGrow(a: Alphabet, s: string, c: char)
    requires !a.space(c)
    ensures Fields(a, s + [c]) == Grown(a, s, c)
    ensures s != "" && !a.space(s[|s| - 1]) ==> Fields(a, s) != []
    decreases |s|, 1
  {
    if s == "" {
      OneWord(a, [c]);
      assert s + [c] == [c];
    } else if a.space(s[0]) {
      assert (s + [c])[1..] == s[1..] + [c];
      FieldsGrow(a, s[1..], c);
    } else if WordLength(a, s) == |s| {
      OneWord(a, s);
      OneWord(a, s + [c]);
    } else {
      GrowsLater(a, s, c);
    }
  }

  lemma {:induction false} GrowsLater(a: Alphabet, s: string, c: char)
    requires !a.space(c) && s != "" && !a.space(s[0]) && WordLength(a, s) < |s|
    ensures Fields(a, s + [c]) == Grown(a, s, c)
    ensures !a.space(s[|s| - 1]) ==> Fields(a, s) != []
    decreases |s|, 0
  {
    var n := WordLength(a, s);
    var w, rest := s[..n], s[n..];
    assert s == w + rest && s + [c] == w + (rest + [c]);
    FieldsOfWord(a, w, rest);
    FieldsOfWord(a, w, rest + [c]);
    FieldsGrow(a, rest, c);
    assert rest[|rest| - 1] == s[|s| - 1];
  }

  lemma {:induction false} JoinGrows(words: seq<string>, w: string)
    requires w != "" && forall i | 0 <= i < |words| :: words[i] != ""
    ensures Join(words + [w]) == if words == [] then w else Join(words) + " " + w
  {
    if words != [] {
      assert (words + [w])[1..] == words[1..] + [w];
      JoinGrows(words[1..], w);
    }
  }

  lemma {:induction false} JoinProlongs(words: seq<string>, c: char)
    requires words != []
    ensures Join(words[..|words| - 1] + [words[|words| - 1] + [c]]) == Join(words) + [c]
  {
    var last := |words| - 1;
    if |words| > 1 {
      JoinProlongs(words[1..], c);
      assert words[1..][..last - 1] == words[..last][1..];
      assert (words[..last] + [words[last] + [c]])[1..] == words[1..][..last - 1] + [words[1..][last - 1] + [c]];
    }
  }

  function Blank(b: bool): string {
    if b then " " else ""
  }

  /** The words of the text, with a blank in front and behind if something else was there. */
  function Padded(a: Alphabet, s: string): string {
    var f := Fields(a, s);
    Blank(s != "" && !a.letter(s[0])) + Join(f) + Blank(f != [] && s != "" && !a.letter(s[|s| - 1]))
  }

  lemma PaddedByLetter(a: Alphabet, front: string, c: char)
    requires Lawful(a) && a.letter(c)
    requires front != "" ==> (a.space(front[|front| - 1]) <==> !a.letter(front[|front| - 1]))
    requires Fields(a, front) == [] ==> front == "" || (!a.letter(front[0]) && !a.letter(front[|front| - 1]))
    requires front == "" ==> Fields(a, front) == []
    ensures Padded(a, front + [c]) == Padded(a, front) + [c]
    ensures Fields(a, front + [c]) != []
  {
    FieldsGrow(a, front, c);
    if front == "" || !a.letter(front[|front| - 1]) {
      NewWordPadded(a, front, c);
    } else {
      LongerWordPadded(a, front, c);
    }
  }

  lemma PaddedAs(a: Alphabet, s: string, c: char)
    requires a.letter(c)
    ensures Padded(a, s + [c]) == Blank(s != "" && !a.letter(s[0])) + Join(Fields(a, s + [c]))
  {
    var t := s + [c];
    assert t[|t| - 1] == c;
    assert t[0] == if s == "" then c else s[0];
  }

  lemma NewWordPadded(a: Alphabet, front: string, c: char)
    requires a.letter(c) && (front == "" || !a.letter(front[|front| - 1]))
    requires Fields(a, front + [c]) == Fields(a, front) + [[c]]
    requires Fields(a, front) == [] ==> front == "" || !a.letter(front[0])
    requires front == "" ==> Fields(a, front) == []
    ensures Padded(a, front + [c]) == Padded(a, front) + [c]
  {
    var f := Fields(a, front);
    FieldsAreWords(a, front);
    JoinGrows(f, [c]);
    PaddedAs(a, front, c);
    if f == [] {
      assert Join(f) == "";
    }
  }

  lemma LongerWordPadded(a: Alphabet, front: string, c: char)
    requires a.letter(c) && front != "" && a.letter(front[|front| - 1]) && Fields(a, front) != []
    requires var f := Fields(a, front); Fields(a, front + [c]) == f[..|f| - 1] + [f[|f| - 1] + [c]]
    ensures Padded(a, front + [c]) == Padded(a, front) + [c]
  {
    var before, words := Blank(!a.letter(front[0])), Join(Fields(a, front));
    JoinProlongs(Fields(a, front), c);
    PaddedAs(a, front, c);
    assert Padded(a, front) == before + words + "";
    assert (before + words) + [c] == before + (words + [c]);
  }

  lemma PaddedByBlank(a: Alphabet, front: string)
    requires Lawful(a) && (front != "" ==> (a.space(front[|front| - 1]) <==> !a.letter(front[|front| - 1])))
    requires Fields(a, front) == [] ==> front == "" || (!a.letter(front[0]) && !a.letter(front[|front| - 1]))
    requires front == "" ==> Fields(a, front) == []
    ensures Fields(a, front + " ") == Fields(a, front)
    ensures Padded(a, front + " ")
         == Padded(a, front) + if front != "" && !a.letter(front[|front| - 1]) then "" else " "
  {
    assert (front + " ")[..|front|] == front;
    FieldsIgnoreLast(a, front + " ");
    if front != "" && a.letter(front[|front| - 1]) {
      FieldsGrow(a, front, 'a');
    }
  }

  /** The collapsed text is just that. */
  lemma {:induction false} CollapseIs(a: Alphabet, s: string)
    requires Lawful(a) && forall i | 0 <= i < |s| :: a.letter(s[i]) || s[i] == ' '
    ensures Collapse(a, s) == Padded(a, s)
    ensures Fields(a, s) == [] <==> forall i | 0 <= i < |s| :: !a.letter(s[i])
  {
    if s != "" {
      var last := |s| - 1;
      var front := s[..last];
      CollapseIs(a, front);
      assert s == front + [s[last]];
      if a.letter(s[last]) {
        PaddedByLetter(a, front, s[last]);
      } else {
        PaddedByBlank(a, front);
      }
    }
  }

  lemma StripBlanks(a: Alphabet, s: string, before: bool, after: bool)
    requires Lawful(a) && (s != "" ==> !a.space(s[0]) && !a.space(s[|s| - 1])) && (s == "" ==> !after)
    ensures Strip(a, Blank(before) + s + Blank(after)) == s
  {
    var t := Blank(before) + s + Blank(after);
    StripKeepsAll(a, s);
    if before {
      assert t[1..] == s + Blank(after);
    }
    if after {
      assert (s + " ")[..|s|] == s;
      assert !before ==> t == s + " ";
    } else {
      assert s + Blank(after) == s;
    }
  }

  /** What the comparison keeps of a text: its words, one blank apart. */
  lemma KeepsWords(a: Alphabet, s: string)
    requires Lawful(a)
    ensures Strip(a, Collapse(a, s)) == Join(Words(a, s))
  {
    var t := SpaceOut(a, s);
    CollapseSpacedOut(a, s);
    CollapseIs(a, t);
    FieldsAreWords(a, t);
    if Fields(a, t) != [] {
      JoinIsTrim(a, Fields(a, t));
    }
    StripBlanks(a, Join(Fields(a, t)), t != "" && !a.letter(t[0]), Fields(a, t) != [] && !a.letter(t[|t| - 1]));
  }

  lemma FinishIsWords(a: Alphabet, s: string)
    requires Lawful(a) && !NoLetters(a, s)
    ensures Finish(a, s) == Join(Words(a, s)) && AreWords(a, Words(a, s))
  {
    KeepsWords(a, s);
    FallsBackIff(a, s);
    FieldsAreWords(a, SpaceOut(a, s));
  }

  // ---- type suffixes

  predicate IsTypeSuffix(suffix: string) {
    suffix in [" - single", " - ep", " (single)", " (ep)", " [single]", " [ep]"]
  }

  /** Trimmed lower-case text that ends neither in a bracket nor in a type suffix, and so is compared as it stands. */
  ghost predicate IsPlain(a: Alphabet, s: string) {
    && s != "" && IsLow(a, s) && Trimmed(a, s)
    && s[|s| - 1] != ')' && s[|s| - 1] != ']' && !EndsWith(s, " - single") && !EndsWith(s, " - ep")
  }

  lemma EndsInLast(s: string, suffix: string)
    requires suffix != "" && EndsWith(s, suffix)
    ensures s != "" && s[|s| - 1] == suffix[|suffix| - 1]
  {
    assert s[|s| - |suffix|..][|suffix| - 1] == s[|s| - 1];
  }

  lemma NotDroppedAtEnd(a: Alphabet, s: string, open: char, close: char)
    requires s == "" || s[|s| - 1] != close
    ensures DropMarked(a, s, open, close) == s
  {
    if EndsWith(s, [close]) {
      EndsInLast(s, [close]);
    }
  }

  lemma PlainHasNoSuffix(a: Alphabet, s: string)
    requires IsPlain(a, s)
    ensures DropSuffix(a, s, SUFFIXES) == s
  {
    forall k | 0 <= k < |SUFFIXES|
      ensures !EndsWith(s, SUFFIXES[k])
    {
      if EndsWith(s, SUFFIXES[k]) {
        EndsInLast(s, SUFFIXES[k]);
      }
    }
    SuffixesStay(a, s, SUFFIXES);
  }

  lemma PlainIsBare(a: Alphabet, s: string)
    requires Lawful(a) && IsPlain(a, s)
    ensures Core(a, s) == s && Bare(a, s) == s && Normalized(a, s) == Finish(a, s)
  {
    StripKeepsAll(a, s);
    LowStays(a, s);
    PlainHasNoSuffix(a, s);
    NotDroppedAtEnd(a, s, '(', ')');
    NotDroppedAtEnd(a, s, '[', ']');
  }

  /** Two plain titles are taken for the same exactly when they have the same words, whatever stands between them. */
  lemma PlainTitlesMatchIff(a: Alphabet, t: string, u: string)
    requires Lawful(a) && IsPlain(a, t) && IsPlain(a, u) && !NoLetters(a, t) && !NoLetters(a, u)
    ensures Normalized(a, t) == Normalized(a, u) <==> Words(a, t) == Words(a, u)
  {
    PlainIsBare(a, t);
    PlainIsBare(a, u);
    FinishIsWords(a, t);
    FinishIsWords(a, u);
    FieldsOfJoin(a, Words(a, t));
    FieldsOfJoin(a, Words(a, u));
  }

  /** Case is ignored. */
  lemma CaseIsIgnored(a: Alphabet, t: string, u: string)
    requires Lawful(a) && LowerAll(a, t) == LowerAll(a, u)
    ensures Normalized(a, t) == Normalized(a, u)
  {
    LowerStrips(a, t);
    LowerStrips(a, u);
  }

  lemma LowTitle(a: Alphabet, title: string, s: string)
    requires Lawful(a) && LowerAll(a, title) == s && IsLow(a, s)
    ensures Normalized(a, title) == Normalized(a, s)
  {
    LowStays(a, s);
    CaseIsIgnored(a, title, s);
  }

  lemma SuffixIsAscii(suffix: string)
    requires IsTypeSuffix(suffix)
    ensures suffix in SUFFIXES && |suffix| >= 5 && suffix[0] == ' '
    ensures forall c | c in suffix :: IsAsciiLower(c) || IsBracketOrDash(c) || c == ' '
    ensures suffix[|suffix| - 1] != ' '
  {
  }

  /** No text ends in two different type suffixes. */
  lemma OneSuffix(s: string, x: string, y: string)
    requires IsTypeSuffix(x) && IsTypeSuffix(y) && EndsWith(s, x) && EndsWith(s, y)
    ensures x == y
  {
    EndsInLast(s, x);
    EndsInLast(s, y);
    assert s[|s| - 2] == x[|x| - 2] by { assert s[|s| - |x|..][|x| - 2] == s[|s| - 2]; }
    assert s[|s| - 2] == y[|y| - 2] by { assert s[|s| - |y|..][|y| - 2] == s[|s| - 2]; }
  }

  lemma {:induction false} DropsThat(a: Alphabet, s: string, suffixes: seq<string>, x: string)
    requires IsTypeSuffix(x) && x in suffixes && (forall y | y in suffixes :: IsTypeSuffix(y))
    requires EndsWith(s, x) && |s| > |x|
    ensures DropSuffix(a, s, suffixes) == Strip(a, s[..|s| - |x|])
  {
    assert suffixes == [suffixes[0]] + suffixes[1..];
    if EndsWith(s, suffixes[0]) {
      OneSuffix(s, x, suffixes[0]);
    } else {
      DropsThat(a, s, suffixes[1..], x);
    }
  }

  lemma AppendKeepsLow(a: Alphabet, s: string, t: string)
    requires IsLow(a, s) && IsLow(a, t)
    ensures IsLow(a, s + t)
  {
  }

  lemma AsciiIsLow(a: Alphabet, s: string)
    requires Lawful(a) && forall c | c in s :: IsAsciiLower(c) || IsBracketOrDash(c) || c == ' '
    ensures IsLow(a, s)
  {
  }

  /** "Comeback - Single" is the same title as "Comeback", in any case. */
  lemma TypeSuffixIsIgnored(a: Alphabet, title: string, s: string, suffix: string)
    requires Lawful(a) && IsPlain(a, s) && IsTypeSuffix(suffix) && LowerAll(a, title) == s + suffix
    ensures Normalized(a, title) == Normalized(a, s)
  {
    var t := s + suffix;
    SuffixIsAscii(suffix);
    AsciiIsLow(a, suffix);
    AppendKeepsLow(a, s, suffix);
    LowTitle(a, title, t);
    assert t[|t| - 1] == suffix[|suffix| - 1] && suffix[|suffix| - 1] in suffix;
    StripKeepsAll(a, t);
    LowStays(a, t);
    assert EndsWith(t, suffix) by { assert t[|t| - |suffix|..] == suffix; }
    DropsThat(a, t, SUFFIXES, suffix);
    assert t[..|t| - |suffix|] == s;
    StripKeepsAll(a, s);
    PlainHasNoSuffix(a, s);
    LowStays(a, s);
  }

  // ---- editions

  predicate NamesAnEdition(group: string) {
    exists m | m in ["deluxe", "remaster", "expanded", "anniversary", "edition"] :: Contains(group, m)
  }

  /** "Comeback (2011 Remaster)" and "Comeback [Deluxe]" are the same title as "Comeback", in any case. */
  lemma EditionIsIgnored(a: Alphabet, title: string, s: string, open: char, inner: string, close: char)
    requires Lawful(a) && IsPlain(a, s) && Brackets(open, close) && open !in inner
    requires NamesAnEdition([open] + inner + [close]) && IsLow(a, inner)
    requires LowerAll(a, title) == s + " " + ([open] + inner + [close])
    ensures Normalized(a, title) == Normalized(a, s)
  {
    var group := [open] + inner + [close];
    var t := s + " " + group;
    GroupIs(open, inner, close);
    AppendKeepsLow(a, s, " ");
    AppendKeepsLow(a, [open] + inner, [close]);
    AppendKeepsLow(a, s + " ", group);
    LowTitle(a, title, t);
    assert t[|t| - 1] == close && IsBracketOrDash(close);
    StripKeepsAll(a, t);
    LowStays(a, t);
    GroupEndsNoSuffix(a, t, |s| + 1, open, close);
    assert t[|s| + 1..] == group;
    LastIndexOfGroup(t, |s| + 1, open, close);
    DropsGroup(a, t, s, group, open, close);
    PlainIsBare(a, s);
    if open == '[' {
      NotDroppedAtEnd(a, t, '(', ')');
    } else {
      NotDroppedAtEnd(a, s, '[', ']');
    }
  }

  lemma GroupIs(open: char, inner: string, close: char)
    requires Brackets(open, close) && open !in inner && NamesAnEdition([open] + inner + [close])
    ensures IsGroup([open] + inner + [close], open, close)
  {
    var g := [open] + inner + [close];
    assert g[1..] == inner + [close];
    assert g[|g| - 1..] == [close];
  }

  lemma DropsGroup(a: Alphabet, t: string, s: string, group: string, open: char, close: char)
    requires Trimmed(a, s) && s != "" && a.space(' ') && t == s + " " + group && IsGroup(group, open, close)
    requires LastIndex(t, open) == |s| + 1 && EndsWith(t, [close])
    ensures DropMarked(a, t, open, close) == s
  {
    assert t[|s| + 1..] == group && t[..|s| + 1] == s + " ";
    assert (s + " ")[..|s|] == s;
    StripKeepsAll(a, s);
  }

  /** The group ends the text, so no type suffix does: none of them names an edition. */
  lemma GroupEndsNoSuffix(a: Alphabet, t: string, i: nat, open: char, close: char)
    requires i < |t| && IsGroup(t[i..], open, close) && Brackets(open, close)
    ensures DropSuffix(a, t, SUFFIXES) == t
  {
    if open == '(' {
      RoundGroupHasNoSuffix(a, t, i);
    } else {
      SquareGroupHasNoSuffix(a, t, i);
    }
  }

  lemma SquareSuffixesAreUnmarked()
    ensures !Marked("[single]") && !Marked("[ep]")
  {
    forall m | m in MARKERS
      ensures !Contains("[single]", m) && !Contains("[ep]", m)
    {
      forall i | 0 <= i <= 8
        ensures !At("[single]", m, i)
      {
        if i + |m| <= 8 {
          assert "[single]"[i..i + |m|][0] == "[single]"[i];
        }
      }
    }
  }

  lemma SquareGroupHasNoSuffix(a: Alphabet, s: string, i: nat)
    requires i < |s| && IsGroup(s[i..], '[', ']')
    ensures DropSuffix(a, s, SUFFIXES) == s
  {
    assert s[|s| - 1] == ']' by { assert s[i..][|s| - i - 1..] == [']']; }
    NoSuffixAtEnd(s, SUFFIXES[0]);
    NoSuffixAtEnd(s, SUFFIXES[1]);
    NoSuffixAtEnd(s, SUFFIXES[2]);
    NoSuffixAtEnd(s, SUFFIXES[3]);
    SquareSuffixesAreUnmarked();
    SquareSuffix(s, i, SUFFIXES[4], "[single]");
    SquareSuffix(s, i, SUFFIXES[5], "[ep]");
    SuffixesStay(a, s, SUFFIXES);
  }

  lemma LastIndexOfSquareTail(s: string, k: nat, group: string)
    requires k < |s| && s[k..] == group && group[0] == '[' && '[' !in group[1..]
    ensures LastIndex(s, '[') == k
  {
    assert s[k] == group[0];
    assert forall j | k < j < |s| :: s[j] == group[1..][j - k - 1];
  }

  lemma SquareSuffix(s: string, i: nat, suffix: string, group: string)
    requires i < |s| && IsGroup(s[i..], '[', ']') && suffix == " " + group
    requires group != "" && group[0] == '[' && '[' !in group[1..] && !Marked(group)
    ensures !EndsWith(s, suffix)
  {
    LastIndexOfGroup(s, i, '[', ']');
    if |s| >= |suffix| {
      var k := |s| - |group|;
      if s[k..] == group {
        LastIndexOfSquareTail(s, k, group);
        assert false;
      }
      assert s[|s| - |suffix|..][1..] == s[k..] && suffix[1..] == group;
    }
  }
}
