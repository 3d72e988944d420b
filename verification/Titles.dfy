/**
 Release titles, normalised for comparison across providers. The character tables are a parameter: everything is
 proved for every alphabet that obeys a few laws, which the Unicode tables do.
 */
module Titles {

  /** `letter` accepts letters and numbers, `space` white space, and `lower` is the simple lower-case mapping. */
  datatype Alphabet = Alphabet(letter: char -> bool, space: char -> bool, lower: char -> char)

  predicate IsAsciiLower(c: char) {
    'a' <= c <= 'z'
  }

  predicate IsBracketOrDash(c: char) {
    c == '(' || c == ')' || c == '[' || c == ']' || c == '-'
  }

  ghost predicate Lawful(a: Alphabet) {
    && (forall c :: a.lower(a.lower(c)) == a.lower(c))
    && (forall c :: a.letter(a.lower(c)) <==> a.letter(c))
    && (forall c :: a.space(a.lower(c)) <==> a.space(c))
    && (forall c :: a.space(c) ==> !a.letter(c))
    && (forall c :: IsAsciiLower(c) ==> a.letter(c) && a.lower(c) == c)
    && (forall c :: IsBracketOrDash(c) ==> !a.letter(c) && !a.space(c) && a.lower(c) == c)
    && a.space(' ') && a.lower(' ') == ' '
  }

  // ---- trimming, lower case, words

  function LowerAll(a: Alphabet, s: string): (r: string)
    ensures |r| == |s| && forall i | 0 <= i < |s| :: r[i] == a.lower(s[i])
  {
    seq(|s|, i requires 0 <= i < |s| => a.lower(s[i]))
  }

  function Strip(a: Alphabet, s: string): (r: string)
    ensures r == "" || (!a.space(r[0]) && !a.space(r[|r| - 1]))
    ensures |r| <= |s| && forall c | c in r :: c in s
  {
    if s == "" then ""
    else if a.space(s[0]) then Strip(a, s[1..])
    else if a.space(s[|s| - 1]) then Strip(a, s[..|s| - 1])
    else s
  }

  function WordLength(a: Alphabet, s: string): (n: nat)
    ensures n <= |s| && (forall i | 0 <= i < n :: !a.space(s[i])) && (n < |s| ==> a.space(s[n]))
  {
    if s == "" || a.space(s[0]) then 0 else 1 + WordLength(a, s[1..])
  }

  /** The words between runs of white space. */
  function Fields(a: Alphabet, s: string): seq<string>
    decreases |s|
  {
    if s == "" then []
    else if a.space(s[0]) then Fields(a, s[1..])
    else [s[..WordLength(a, s)]] + Fields(a, s[WordLength(a, s)..])
  }

  function Join(words: seq<string>): string {
    if words == [] then "" else if |words| == 1 then words[0] else words[0] + " " + Join(words[1..])
  }

  // ---- the normalisation

  const SUFFIXES: seq<string> := [" - single", " - ep", " (single)", " (ep)", " [single]", " [ep]"]
  const MARKERS: seq<string> := ["deluxe", "remaster", "expanded", "anniversary", "edition"]

  predicate EndsWith(s: string, suffix: string) {
    |s| >= |suffix| && s[|s| - |suffix|..] == suffix
  }

  /** Removes the first suffix of the list that the title ends with. */
  function DropSuffix(a: Alphabet, s: string, suffixes: seq<string>): string {
    if suffixes == [] then s
    else if EndsWith(s, suffixes[0]) && |s| > |suffixes[0]| then Strip(a, s[..|s| - |suffixes[0]|])
    else DropSuffix(a, s, suffixes[1..])
  }

  function LastIndex(s: string, c: char): (i: int)
    ensures -1 <= i < |s| && (i >= 0 ==> s[i] == c) && (forall k | i < k < |s| :: s[k] != c)
  {
    if s == "" then -1
    else if s[|s| - 1] == c then |s| - 1
    else
      var i := LastIndex(s[..|s| - 1], c);
      assert forall k | i < k < |s| - 1 :: s[..|s| - 1][k] == s[k];
      i
  }

  predicate At(s: string, m: string, i: int) {
    0 <= i <= |s| - |m| && s[i..i + |m|] == m
  }

  predicate Contains(s: string, m: string) {
    exists i | 0 <= i <= |s| :: At(s, m, i)
  }

  predicate Marked(s: string) {
    exists m | m in MARKERS :: Contains(s, m)
  }

  /** Removes a trailing bracket group that names an edition. */
  function DropMarked(a: Alphabet, s: string, open: char, close: char): string {
    var start := LastIndex(s, open);
    if start < 0 || !EndsWith(s, [close]) || !Marked(s[start..]) then s else Strip(a, s[..start])
  }

  /** Letters and numbers stay, every other run becomes one blank. */
  function Collapse(a: Alphabet, s: string): string {
    if s == "" then ""
    else
      var last := |s| - 1;
      Collapse(a, s[..last])
      + if a.letter(s[last]) then [s[last]] else if last > 0 && !a.letter(s[last - 1]) then "" else " "
  }

  /** The trimmed, lower-case title without its type suffix. */
  function Core(a: Alphabet, title: string): string {
    DropSuffix(a, LowerAll(a, Strip(a, title)), SUFFIXES)
  }

  /** The title without its type suffix and edition marker. */
  function Bare(a: Alphabet, title: string): string {
    DropMarked(a, DropMarked(a, Core(a, title), '(', ')'), '[', ']')
  }

  function Finish(a: Alphabet, s: string): string {
    var collapsed := Strip(a, Collapse(a, s));
    if collapsed != "" then collapsed else Join(Fields(a, s))
  }

  function Normalized(a: Alphabet, title: string): string {
    Finish(a, Bare(a, title))
  }

  /** Writes the title rune by rune, remembering whether the last one written was a blank. */
  method WriteCollapsed(a: Alphabet, value: string) returns (normalized: string)
    ensures normalized == Collapse(a, value)
  {
    normalized := "";
    var space := false;
    for i := 0 to |value|
      invariant normalized == Collapse(a, value[..i])
      invariant space <==> i > 0 && !a.letter(value[i - 1])
    {
      assert value[..i + 1][..i] == value[..i];
      if a.letter(value[i]) {
        normalized := normalized + [value[i]];
        space := false;
      } else if !space {
        normalized := normalized + " ";
        space := true;
      }
    }
    assert value[..|value|] == value;
  }

  method NormalizedReleaseTitle(a: Alphabet, title: string) returns (r: string)
    ensures r == Normalized(a, title)
  {
    var value := DropSuffix(a, LowerAll(a, Strip(a, title)), SUFFIXES);
    value := DropMarked(a, value, '(', ')');
    value := DropMarked(a, value, '[', ']');
    var normalized := WriteCollapsed(a, value);
    r := Strip(a, normalized);
    if r == "" {
      r := Join(Fields(a, value));
    }
  }

  // ---- shapes

  predicate NoLetters(a: Alphabet, s: string) {
    forall c | c in s :: !a.letter(c)
  }

  predicate AllSpace(a: Alphabet, s: string) {
    forall c | c in s :: a.space(c)
  }

  ghost predicate IsLow(a: Alphabet, s: string) {
    forall c | c in s :: a.lower(c) == c
  }

  lemma StripKeepsAll(a: Alphabet, s: string)
    requires s == "" || (!a.space(s[0]) && !a.space(s[|s| - 1]))
    ensures Strip(a, s) == s
  {
  }

  lemma {:induction false} StripsToNothing(a: Alphabet, s: string)
    ensures Strip(a, s) == "" <==> AllSpace(a, s)
    decreases |s|
  {
    if s != "" {
      assert s == [s[0]] + s[1..] && s == s[..|s| - 1] + [s[|s| - 1]];
      if a.space(s[0]) {
        StripsToNothing(a, s[1..]);
      } else if a.space(s[|s| - 1]) {
        StripsToNothing(a, s[..|s| - 1]);
        assert s[0] in s && s[..|s| - 1][0] == s[0];
      } else {
        assert s[0] in s;
      }
    }
  }

  lemma LowStays(a: Alphabet, s: string)
    requires IsLow(a, s)
    ensures LowerAll(a, s) == s
  {
    forall i | 0 <= i < |s|
      ensures LowerAll(a, s)[i] == s[i]
    {
      assert s[i] in s;
    }
  }

  lemma {:induction false} DropSuffixShortens(a: Alphabet, s: string, suffixes: seq<string>)
    ensures forall c | c in DropSuffix(a, s, suffixes) :: c in s
  {
    if suffixes != [] {
      DropSuffixShortens(a, s, suffixes[1..]);
    }
  }

  /** Nothing but lower-case characters of the title is left. */
  lemma BareIsLow(a: Alphabet, title: string)
    requires Lawful(a)
    ensures IsLow(a, Bare(a, title))
  {
    var low := LowerAll(a, Strip(a, title));
    LoweredIsLow(a, Strip(a, title));
    BareUses(a, title);
  }

  lemma LoweredIsLow(a: Alphabet, s: string)
    requires Lawful(a)
    ensures IsLow(a, LowerAll(a, s))
  {
    forall c | c in LowerAll(a, s)
      ensures a.lower(c) == c
    {
      var i :| 0 <= i < |s| && LowerAll(a, s)[i] == c;
    }
  }

  lemma DropMarkedShortens(a: Alphabet, s: string, open: char, close: char)
    ensures forall c | c in DropMarked(a, s, open, close) :: c in s
  {
    var start := LastIndex(s, open);
    if start >= 0 {
      assert s == s[..start] + s[start..];
    }
  }

  lemma BareUses(a: Alphabet, title: string)
    ensures forall c | c in Bare(a, title) :: c in LowerAll(a, Strip(a, title))
  {
    var low := LowerAll(a, Strip(a, title));
    var s := DropSuffix(a, low, SUFFIXES);
    DropSuffixShortens(a, low, SUFFIXES);
    DropMarkedShortens(a, s, '(', ')');
    DropMarkedShortens(a, DropMarked(a, s, '(', ')'), '[', ']');
  }

  // ---- titles that no rule shortens

  lemma {:induction false} SuffixesStay(a: Alphabet, s: string, suffixes: seq<string>)
    requires forall k | 0 <= k < |suffixes| :: !EndsWith(s, suffixes[k])
    ensures DropSuffix(a, s, suffixes) == s
  {
    if suffixes != [] {
      assert !EndsWith(s, suffixes[0]);
      forall k | 0 <= k < |suffixes[1..]|
        ensures !EndsWith(s, suffixes[1..][k])
      {
        assert suffixes[1..][k] == suffixes[k + 1];
      }
      SuffixesStay(a, s, suffixes[1..]);
    }
  }

  /** Position `i` of the text shows that it does not end with the suffix. */
  lemma NotASuffix(s: string, suffix: string, i: nat)
    requires i < |suffix| && suffix[i] !in s
    ensures !EndsWith(s, suffix)
  {
    if |s| >= |suffix| {
      var tail := s[|s| - |suffix|..];
      assert tail[i] == s[|s| - |suffix| + i];
      assert tail[i] in s;
    }
  }

  lemma NoSuffix(a: Alphabet, s: string)
    requires Lawful(a)
    requires NoLetters(a, s) || forall c | c in s :: a.letter(c) || c == ' '
    ensures DropSuffix(a, s, SUFFIXES) == s
  {
    if NoLetters(a, s) {
      assert forall c | IsAsciiLower(c) :: c !in s;
      NotASuffix(s, SUFFIXES[0], 3);
      NotASuffix(s, SUFFIXES[1], 3);
      NotASuffix(s, SUFFIXES[2], 2);
      NotASuffix(s, SUFFIXES[3], 2);
      NotASuffix(s, SUFFIXES[4], 2);
      NotASuffix(s, SUFFIXES[5], 2);
    } else {
      assert forall c | IsBracketOrDash(c) :: c !in s;
      NotASuffix(s, SUFFIXES[0], 1);
      NotASuffix(s, SUFFIXES[1], 1);
      NotASuffix(s, SUFFIXES[2], 1);
      NotASuffix(s, SUFFIXES[3], 1);
      NotASuffix(s, SUFFIXES[4], 1);
      NotASuffix(s, SUFFIXES[5], 1);
    }
    SuffixesStay(a, s, SUFFIXES);
  }

  lemma NoMarker(a: Alphabet, s: string)
    requires Lawful(a) && NoLetters(a, s)
    ensures !Marked(s)
  {
    forall m | m in MARKERS
      ensures !Contains(s, m)
    {
      assert m[0] == 'd' || m[0] == 'r' || m[0] == 'e' || m[0] == 'a';
      forall i | 0 <= i <= |s| - |m|
        ensures !At(s, m, i)
      {
        assert s[i] in s && s[i..i + |m|][0] == s[i];
      }
    }
  }

  lemma NotDropped(a: Alphabet, s: string, open: char, close: char)
    requires Lawful(a) && IsBracketOrDash(open)
    requires NoLetters(a, s) || forall c | c in s :: a.letter(c) || c == ' '
    ensures DropMarked(a, s, open, close) == s
  {
    var start := LastIndex(s, open);
    if NoLetters(a, s) && start >= 0 {
      assert forall c | c in s[start..] :: c in s;
      NoMarker(a, s[start..]);
    }
  }

  /** A trimmed low-case title of symbols, or of letters and blanks, goes through unshortened. */
  lemma BareStays(a: Alphabet, s: string)
    requires Lawful(a) && IsLow(a, s)
    requires s == "" || (!a.space(s[0]) && !a.space(s[|s| - 1]))
    requires NoLetters(a, s) || forall c | c in s :: a.letter(c) || c == ' '
    ensures Bare(a, s) == s
  {
    StripKeepsAll(a, s);
    LowStays(a, s);
    NoSuffix(a, s);
    NotDropped(a, s, '(', ')');
    NotDropped(a, s, '[', ']');
  }

  // ---- collapsing

  /** Letters and single blanks between them. */
  ghost predicate WellSpaced(a: Alphabet, s: string) {
    && (forall i | 0 <= i < |s| :: a.letter(s[i]) || s[i] == ' ')
    && (forall i | 0 < i < |s| :: a.letter(s[i]) || a.letter(s[i - 1]))
  }

  lemma {:induction false} CollapseIsWellSpaced(a: Alphabet, s: string)
    requires Lawful(a)
    ensures WellSpaced(a, Collapse(a, s)) && forall c | c in Collapse(a, s) :: c in s || c == ' '
    ensures s != "" ==>
      Collapse(a, s) != "" && (a.letter(Collapse(a, s)[|Collapse(a, s)| - 1]) <==> a.letter(s[|s| - 1]))
  {
    if s != "" {
      CollapseIsWellSpaced(a, s[..|s| - 1]);
    }
  }

  lemma {:induction false} CollapseKeepsWellSpaced(a: Alphabet, s: string)
    requires WellSpaced(a, s) && (s != "" ==> a.letter(s[0]))
    ensures Collapse(a, s) == s
  {
    if s != "" {
      var last := |s| - 1;
      CollapseKeepsWellSpaced(a, s[..last]);
      assert s == s[..last] + [s[last]];
    }
  }

  lemma {:induction false} StripKeepsWellSpaced(a: Alphabet, s: string)
    requires WellSpaced(a, s)
    ensures WellSpaced(a, Strip(a, s))
    decreases |s|
  {
    if s != "" && a.space(s[0]) {
      StripKeepsWellSpaced(a, s[1..]);
    } else if s != "" && a.space(s[|s| - 1]) {
      StripKeepsWellSpaced(a, s[..|s| - 1]);
    }
  }

  lemma {:induction false} CollapseKeepsLetters(a: Alphabet, s: string)
    requires Lawful(a)
    ensures NoLetters(a, Collapse(a, s)) <==> NoLetters(a, s)
  {
    if s != "" {
      var last := |s| - 1;
      CollapseKeepsLetters(a, s[..last]);
      assert s == s[..last] + [s[last]];
      var c := Collapse(a, s[..last]);
      assert forall x | x in c :: x in Collapse(a, s);
      if a.letter(s[last]) {
        assert s[last] in s && s[last] in Collapse(a, s);
      }
    }
  }

  /** The fallback to symbols is taken exactly for titles without letters and numbers. */
  lemma FallsBackIff(a: Alphabet, s: string)
    requires Lawful(a)
    ensures Strip(a, Collapse(a, s)) == "" <==> NoLetters(a, s)
  {
    var c := Collapse(a, s);
    CollapseIsWellSpaced(a, s);
    CollapseKeepsLetters(a, s);
    StripsToNothing(a, c);
    if NoLetters(a, s) {
      forall x | x in c
        ensures a.space(x)
      {
        var i :| 0 <= i < |c| && c[i] == x;
      }
    }
  }

  // ---- words

  ghost predicate AreWords(a: Alphabet, words: seq<string>) {
    forall i | 0 <= i < |words| :: words[i] != "" && forall k | 0 <= k < |words[i]| :: !a.space(words[i][k])
  }

  lemma {:induction false} FieldsAreWords(a: Alphabet, s: string)
    ensures AreWords(a, Fields(a, s))
    ensures forall i | 0 <= i < |Fields(a, s)| :: forall c | c in Fields(a, s)[i] :: c in s
    decreases |s|
  {
    if s != "" {
      if a.space(s[0]) {
        FieldsAreWords(a, s[1..]);
      } else {
        FieldsAreWords(a, s[WordLength(a, s)..]);
      }
    }
  }

  lemma {:induction false} WordLengthOf(a: Alphabet, w: string, rest: string)
    requires (forall k | 0 <= k < |w| :: !a.space(w[k])) && (rest == "" || a.space(rest[0]))
    ensures WordLength(a, w + rest) == |w|
  {
    if w == "" {
      assert w + rest == rest;
    } else {
      assert (w + rest)[1..] == w[1..] + rest;
      WordLengthOf(a, w[1..], rest);
    }
  }

  lemma FieldsOfWord(a: Alphabet, w: string, rest: string)
    requires w != "" && (forall k | 0 <= k < |w| :: !a.space(w[k])) && (rest == "" || a.space(rest[0]))
    ensures Fields(a, w + rest) == [w] + Fields(a, rest)
  {
    var s := w + rest;
    assert s[0] == w[0];
    WordLengthOf(a, w, rest);
    assert s[..|w|] == w && s[|w|..] == rest;
  }

  /** Joining words and splitting the text again yields the words. */
  lemma {:induction false} FieldsOfJoin(a: Alphabet, words: seq<string>)
    requires a.space(' ') && AreWords(a, words)
    ensures Fields(a, Join(words)) == words
  {
    if words != [] {
      var w, more := words[0], words[1..];
      var rest := if more == [] then "" else " " + Join(more);
      FieldsOfJoin(a, more);
      assert Join(words) == w + rest;
      FieldsOfWord(a, w, rest);
      if more != [] {
        assert rest[1..] == Join(more);
      }
      assert words == [w] + more;
    }
  }

  lemma {:induction false} JoinIsTrim(a: Alphabet, words: seq<string>)
    requires AreWords(a, words) && words != []
    ensures Join(words) != "" && !a.space(Join(words)[0]) && !a.space(Join(words)[|Join(words)| - 1])
  {
    if |words| > 1 {
      JoinIsTrim(a, words[1..]);
    }
  }

  lemma {:induction false} JoinUses(words: seq<string>, s: string)
    requires forall i | 0 <= i < |words| :: forall c | c in words[i] :: c in s
    ensures forall c | c in Join(words) :: c in s || c == ' '
  {
    if |words| > 1 {
      JoinUses(words[1..], s);
    }
  }

  // ---- the results

  lemma FinishIsStable(a: Alphabet, s: string)
    requires Lawful(a) && IsLow(a, s)
    ensures Normalized(a, Finish(a, s)) == Finish(a, s)
  {
    var y := Finish(a, s);
    FallsBackIff(a, s);
    if NoLetters(a, s) {
      FieldsAreWords(a, s);
      FieldsOfJoin(a, Fields(a, s));
      JoinUses(Fields(a, s), s);
      if Fields(a, s) != [] {
        JoinIsTrim(a, Fields(a, s));
      }
      assert NoLetters(a, y) && IsLow(a, y);
      BareStays(a, y);
      FallsBackIff(a, y);
    } else {
      var c := Collapse(a, s);
      CollapseIsWellSpaced(a, s);
      StripKeepsWellSpaced(a, c);
      assert forall x | x in y :: x in c;
      assert IsLow(a, y);
      forall x | x in y
        ensures a.letter(x) || x == ' '
      {
        var i :| 0 <= i < |y| && y[i] == x;
      }
      BareStays(a, y);
      CollapseKeepsWellSpaced(a, y);
      StripKeepsAll(a, y);
    }
  }

  /** Normalising a normalised title changes nothing. */
  lemma NormalizedIsIdempotent(a: Alphabet, title: string)
    requires Lawful(a)
    ensures Normalized(a, Normalized(a, title)) == Normalized(a, title)
  {
    BareIsLow(a, title);
    FinishIsStable(a, Bare(a, title));
  }

  lemma {:induction false} FieldsIgnoreEdges(a: Alphabet, s: string)
    ensures Fields(a, Strip(a, s)) == Fields(a, s)
    decreases |s|
  {
    if s != "" && a.space(s[0]) {
      FieldsIgnoreEdges(a, s[1..]);
    } else if s != "" && a.space(s[|s| - 1]) {
      FieldsIgnoreEdges(a, s[..|s| - 1]);
      FieldsIgnoreLast(a, s);
    }
  }

  lemma {:induction false} FieldsIgnoreLast(a: Alphabet, s: string)
    requires s != "" && a.space(s[|s| - 1])
    ensures Fields(a, s) == Fields(a, s[..|s| - 1])
    decreases |s|
  {
    var front := s[..|s| - 1];
    if a.space(s[0]) {
      if |s| > 1 {
        assert s[1..][..|s| - 2] == front[1..];
        FieldsIgnoreLast(a, s[1..]);
      }
    } else {
      var n := WordLength(a, s);
      assert n < |s|;
      FieldsOfWord(a, s[..n], s[n..]);
      assert s == s[..n] + s[n..];
      assert front == s[..n] + s[n..|s| - 1];
      FieldsIgnoreLast(a, s[n..]);
      assert s[n..][..|s| - n - 1] == s[n..|s| - 1];
      FieldsOfWord(a, s[..n], s[n..|s| - 1]);
    }
  }

  lemma LowerOfTail(a: Alphabet, s: string)
    requires s != ""
    ensures LowerAll(a, s[1..]) == LowerAll(a, s)[1..]
    ensures LowerAll(a, s[..|s| - 1]) == LowerAll(a, s)[..|s| - 1]
  {
  }

  lemma LowerKeepsEdges(a: Alphabet, s: string)
    requires Lawful(a) && s != ""
    ensures a.space(LowerAll(a, s)[0]) <==> a.space(s[0])
    ensures a.space(LowerAll(a, s)[|s| - 1]) <==> a.space(s[|s| - 1])
  {
  }

  lemma {:induction false} LowerStrips(a: Alphabet, s: string)
    requires Lawful(a)
    ensures LowerAll(a, Strip(a, s)) == Strip(a, LowerAll(a, s))
    decreases |s|
  {
    if s != "" {
      LowerOfTail(a, s);
      LowerKeepsEdges(a, s);
      if a.space(s[0]) {
        LowerStrips(a, s[1..]);
      } else if a.space(s[|s| - 1]) {
        LowerStrips(a, s[..|s| - 1]);
      }
    }
  }

  /** A title without letters and numbers normalises to its lower-case symbol words. */
  lemma SymbolTitle(a: Alphabet, title: string)
    requires Lawful(a) && NoLetters(a, title)
    ensures Normalized(a, title) == Join(Fields(a, LowerAll(a, title)))
  {
    var t := Strip(a, title);
    var low := LowerAll(a, t);
    forall c | c in low
      ensures !a.letter(c)
    {
      var i :| 0 <= i < |low| && low[i] == c;
      assert t[i] in t;
    }
    NoSuffix(a, low);
    NotDropped(a, low, '(', ')');
    NotDropped(a, low, '[', ']');
    FallsBackIff(a, low);
    LowerStrips(a, title);
    FieldsIgnoreEdges(a, LowerAll(a, title));
  }

  /** Two such titles are taken for the same exactly when their lower-case symbol words are the same. */
  lemma SymbolTitlesMatchIff(a: Alphabet, t: string, u: string)
    requires Lawful(a) && NoLetters(a, t) && NoLetters(a, u)
    ensures Normalized(a, t) == Normalized(a, u) <==> Fields(a, LowerAll(a, t)) == Fields(a, LowerAll(a, u))
  {
    SymbolTitle(a, t);
    SymbolTitle(a, u);
    FieldsAreWords(a, LowerAll(a, t));
    FieldsAreWords(a, LowerAll(a, u));
    FieldsOfJoin(a, Fields(a, LowerAll(a, t)));
    FieldsOfJoin(a, Fields(a, LowerAll(a, u)));
  }

  /** Symbols without case need no lower-casing. */
  lemma CaselessSymbolTitlesMatchIff(a: Alphabet, t: string, u: string)
    requires Lawful(a) && NoLetters(a, t) && NoLetters(a, u) && IsLow(a, t) && IsLow(a, u)
    ensures Normalized(a, t) == Normalized(a, u) <==> Fields(a, t) == Fields(a, u)
  {
    SymbolTitlesMatchIff(a, t, u);
    LowStays(a, t);
    LowStays(a, u);
  }

  /** Symbols that do have case, such as circled letters, are folded together. */
  lemma CasedSymbolsCoincide(a: Alphabet, c: char, d: char)
    requires Lawful(a) && !a.letter(c) && !a.letter(d) && !a.space(c) && a.lower(c) == a.lower(d)
    ensures Normalized(a, [c]) == Normalized(a, [d])
    ensures c != d ==> Fields(a, [c]) != Fields(a, [d])
  {
    SymbolTitlesMatchIff(a, [c], [d]);
    assert LowerAll(a, [c]) == LowerAll(a, [d]);
    assert a.space(a.lower(d)) <==> a.space(d);
    SingleField(a, c);
    SingleField(a, d);
  }

  lemma SingleField(a: Alphabet, c: char)
    requires !a.space(c)
    ensures Fields(a, [c]) == [[c]]
  {
    FieldsOfWord(a, [c], "");
    assert [c] + "" == [c];
  }

  // ---- titles that vanish

  ghost predicate Trimmed(a: Alphabet, s: string) {
    s == "" || (!a.space(s[0]) && !a.space(s[|s| - 1]))
  }

  /** The text is one bracket group from its first character to its last, and names an edition. */
  predicate IsGroup(s: string, open: char, close: char) {
    s != "" && s[0] == open && open !in s[1..] && EndsWith(s, [close]) && Marked(s)
  }

  /** Nothing, an edition in round or in square brackets, or one in square brackets before one in round ones. */
  predicate Vanishes(a: Alphabet, s: string) {
    || s == "" || IsGroup(s, '(', ')') || IsGroup(s, '[', ']')
    || exists i | 0 <= i < |s| :: EndsInGroup(a, s, i)
  }

  predicate EndsInGroup(a: Alphabet, s: string, i: int) {
    0 < i < |s| && IsGroup(s[i..], '(', ')') && IsGroup(Strip(a, s[..i]), '[', ']')
  }

  lemma LastIndexOfGroup(s: string, i: nat, open: char, close: char)
    requires i < |s| && IsGroup(s[i..], open, close)
    ensures LastIndex(s, open) == i && EndsWith(s, [close])
  {
    assert s[i..][0] == s[i];
    assert forall k | i < k < |s| :: s[k] == s[i..][1..][k - i - 1];
    assert s[i..][|s| - i - 1] == s[|s| - 1];
  }

  lemma DroppedIsTrimmed(a: Alphabet, s: string, open: char, close: char)
    requires Trimmed(a, s)
    ensures Trimmed(a, DropMarked(a, s, open, close))
  {
  }

  /** One pass over a trimmed text leaves nothing exactly when the text is one group. */
  lemma DropsAllIff(a: Alphabet, s: string, open: char, close: char)
    requires Trimmed(a, s)
    ensures DropMarked(a, s, open, close) == "" <==> s == "" || IsGroup(s, open, close)
  {
    var start := LastIndex(s, open);
    if IsGroup(s, open, close) {
      assert s[0..] == s;
      LastIndexOfGroup(s, 0, open, close);
    } else if start == 0 {
      assert s[0..] == s;
    } else if start > 0 {
      StripsToNothing(a, s[..start]);
      assert s[..start][0] == s[0];
    }
  }

  lemma CoreIsTrimmed(a: Alphabet, title: string)
    requires Lawful(a)
    ensures Trimmed(a, Core(a, title))
    ensures Core(a, title) == "" <==> AllSpace(a, title)
  {
    var t := Strip(a, title);
    StripsToNothing(a, title);
    if t != "" {
      LowerKeepsEdges(a, t);
      SuffixLeavesText(a, LowerAll(a, t), SUFFIXES);
    } else {
      DropFromNothing(a, SUFFIXES);
    }
  }

  lemma {:induction false} DropFromNothing(a: Alphabet, suffixes: seq<string>)
    ensures DropSuffix(a, "", suffixes) == ""
  {
    if suffixes != [] {
      DropFromNothing(a, suffixes[1..]);
    }
  }

  lemma {:induction false} SuffixLeavesText(a: Alphabet, s: string, suffixes: seq<string>)
    requires Trimmed(a, s) && s != ""
    ensures DropSuffix(a, s, suffixes) != "" && Trimmed(a, DropSuffix(a, s, suffixes))
  {
    if suffixes != [] {
      if EndsWith(s, suffixes[0]) && |s| > |suffixes[0]| {
        var kept := s[..|s| - |suffixes[0]|];
        StripsToNothing(a, kept);
        assert kept[0] == s[0];
      } else {
        SuffixLeavesText(a, s, suffixes[1..]);
      }
    }
  }

  lemma BothPassesDropAllIff(a: Alphabet, s: string)
    requires Trimmed(a, s)
    ensures DropMarked(a, DropMarked(a, s, '(', ')'), '[', ']') == "" <==> Vanishes(a, s)
  {
    var t := DropMarked(a, s, '(', ')');
    var start := LastIndex(s, '(');
    DropsAllIff(a, s, '(', ')');
    DroppedIsTrimmed(a, s, '(', ')');
    DropsAllIff(a, t, '[', ']');
    if i :| 0 <= i < |s| && EndsInGroup(a, s, i) {
      LastIndexOfGroup(s, i, '(', ')');
    }
    if start > 0 && EndsWith(s, [')']) && Marked(s[start..]) {
      assert forall k | 0 < k < |s| - start :: s[start..][k] == s[start + k];
      assert IsGroup(s[start..], '(', ')');
      assert IsGroup(t, '[', ']') ==> EndsInGroup(a, s, start);
    }
  }

  /**
   A normalised title is empty exactly when the title is blank, or its trimmed, lower-case, suffix-free text is one
   bracket group that names an edition, or two of them, square before round.
   */
  lemma EmptyIff(a: Alphabet, title: string)
    requires Lawful(a)
    ensures Normalized(a, title) == "" <==> Vanishes(a, Core(a, title))
    ensures Core(a, title) == "" <==> AllSpace(a, title)
  {
    CoreIsTrimmed(a, title);
    BothPassesDropAllIff(a, Core(a, title));
    DroppedIsTrimmed(a, Core(a, title), '(', ')');
    DroppedIsTrimmed(a, DropMarked(a, Core(a, title), '(', ')'), '[', ']');
    FinishOfTrimmed(a, Bare(a, title));
  }

  lemma FinishOfTrimmed(a: Alphabet, s: string)
    requires Lawful(a) && Trimmed(a, s)
    ensures Finish(a, s) == "" <==> s == ""
  {
    FallsBackIff(a, s);
    FieldsAreWords(a, s);
    if s != "" {
      assert Fields(a, s) != [];
      JoinIsTrim(a, Fields(a, s));
    }
  }

  // ---- bracketed editions, with any text around the marker

  lemma MarkersAreAscii(m: string)
    requires m in MARKERS
    ensures m != "" && forall c | c in m :: IsAsciiLower(c)
  {
  }

  predicate Brackets(open: char, close: char) {
    (open == '(' && close == ')') || (open == '[' && close == ']')
  }

  function Bracketed(open: char, before: string, m: string, after: string, close: char): string {
    [open] + before + m + after + [close]
  }

  lemma BracketedIsGroup(open: char, before: string, m: string, after: string, close: char)
    requires m in MARKERS && Brackets(open, close) && open !in before && open !in after
    ensures IsGroup(Bracketed(open, before, m, after, close), open, close)
  {
    var s := Bracketed(open, before, m, after, close);
    MarkersAreAscii(m);
    assert s[1..] == before + m + after + [close];
    assert open !in m;
    assert s == ([open] + before) + m + (after + [close]);
    assert At(s, m, 1 + |before|);
  }

  /** A suffix that names an opening bracket past the first place does not end a text that has none there. */
  lemma NoSuffixInside(s: string, suffix: string, i: nat, open: char)
    requires s != "" && 0 < i < |suffix| && suffix[i] == open && open !in s[1..]
    ensures !EndsWith(s, suffix)
  {
    if |s| >= |suffix| {
      var k := |s| - |suffix| + i;
      assert s[k] == s[1..][k - 1];
      assert s[|s| - |suffix|..][i] == s[k];
    }
  }

  lemma NoSuffixAtEnd(s: string, suffix: string)
    requires s != "" && suffix != "" && s[|s| - 1] != suffix[|suffix| - 1]
    ensures !EndsWith(s, suffix)
  {
    if |s| >= |suffix| {
      assert s[|s| - |suffix|..][|suffix| - 1] == s[|s| - 1];
    }
  }

  lemma GroupHasNoSuffix(a: Alphabet, s: string, open: char, close: char)
    requires Brackets(open, close) && IsGroup(s, open, close)
    ensures DropSuffix(a, s, SUFFIXES) == s
  {
    assert s[|s| - 1] == close by { assert s[|s| - 1..] == [close]; }
    NoSuffixAtEnd(s, SUFFIXES[0]);
    NoSuffixAtEnd(s, SUFFIXES[1]);
    if open == '(' {
      NoSuffixInside(s, SUFFIXES[2], 1, open);
      NoSuffixInside(s, SUFFIXES[3], 1, open);
      NoSuffixAtEnd(s, SUFFIXES[4]);
      NoSuffixAtEnd(s, SUFFIXES[5]);
    } else {
      NoSuffixAtEnd(s, SUFFIXES[2]);
      NoSuffixAtEnd(s, SUFFIXES[3]);
      NoSuffixInside(s, SUFFIXES[4], 1, open);
      NoSuffixInside(s, SUFFIXES[5], 1, open);
    }
    SuffixesStay(a, s, SUFFIXES);
  }

  /** A title that is one bracketed edition, such as "(2011 Remaster)" or "[Deluxe]", normalises to the empty text. */
  lemma EditionVanishes(a: Alphabet, title: string, open: char, before: string, m: string, after: string, close: char)
    requires Lawful(a) && m in MARKERS && Brackets(open, close) && open !in before && open !in after
    requires LowerAll(a, title) == Bracketed(open, before, m, after, close)
    ensures Normalized(a, title) == ""
  {
    var s := LowerAll(a, title);
    BracketedIsGroup(open, before, m, after, close);
    LowerKeepsEdges(a, title);
    assert IsBracketOrDash(open) && IsBracketOrDash(close);
    assert s[|s| - 1] == close;
    StripKeepsAll(a, title);
    GroupHasNoSuffix(a, s, open, close);
    EmptyIff(a, title);
  }

  /** Neither bracketed type suffix names an edition. */
  lemma SuffixesAreUnmarked()
    ensures !Marked("(single)") && !Marked("(ep)")
  {
    forall m | m in MARKERS
      ensures !Contains("(single)", m) && !Contains("(ep)", m)
    {
      forall i | 0 <= i <= 8
        ensures !At("(single)", m, i)
      {
        if i + |m| <= 8 {
          assert "(single)"[i..i + |m|][0] == "(single)"[i];
        }
      }
    }
  }

  /** Text that ends in a round group naming an edition does not end in a type suffix. */
  lemma RoundGroupHasNoSuffix(a: Alphabet, s: string, i: nat)
    requires i < |s| && IsGroup(s[i..], '(', ')')
    ensures DropSuffix(a, s, SUFFIXES) == s
  {
    assert s[|s| - 1] == ')' by { assert s[i..][|s| - i - 1..] == [')']; }
    NoSuffixAtEnd(s, SUFFIXES[0]);
    NoSuffixAtEnd(s, SUFFIXES[1]);
    NoSuffixAtEnd(s, SUFFIXES[4]);
    NoSuffixAtEnd(s, SUFFIXES[5]);
    SuffixesAreUnmarked();
    RoundSuffix(s, i, SUFFIXES[2], "(single)");
    RoundSuffix(s, i, SUFFIXES[3], "(ep)");
    SuffixesStay(a, s, SUFFIXES);
  }

  lemma LastIndexOfTail(s: string, k: nat, group: string)
    requires k < |s| && s[k..] == group && group[0] == '(' && '(' !in group[1..]
    ensures LastIndex(s, '(') == k
  {
    assert s[k] == group[0];
    assert forall j | k < j < |s| :: s[j] == group[1..][j - k - 1];
  }

  lemma RoundSuffix(s: string, i: nat, suffix: string, group: string)
    requires i < |s| && IsGroup(s[i..], '(', ')') && suffix == " " + group
    requires group != "" && group[0] == '(' && '(' !in group[1..] && !Marked(group)
    ensures !EndsWith(s, suffix)
  {
    LastIndexOfGroup(s, i, '(', ')');
    if |s| >= |suffix| {
      var k := |s| - |group|;
      if s[k..] == group {
        LastIndexOfTail(s, k, group);
        assert false;
      }
      assert s[|s| - |suffix|..][1..] == s[k..] && suffix[1..] == group;
    }
  }

  /** So does one in square brackets before one in round brackets, such as "[Deluxe] (Anniversary Edition)". */
  lemma TwoEditionsVanish(a: Alphabet, title: string, square: string, gap: string, round: string)
    requires Lawful(a) && IsGroup(square, '[', ']') && AllSpace(a, gap) && IsGroup(round, '(', ')')
    requires LowerAll(a, title) == square + gap + round
    ensures Normalized(a, title) == ""
  {
    var s := LowerAll(a, title);
    var i := |square| + |gap|;
    assert s[i..] == round && s[..i] == square + gap;
    assert IsBracketOrDash('[') && IsBracketOrDash(']') && IsBracketOrDash(')');
    assert square[|square| - 1] == ']' by { assert square[|square| - 1..] == [']']; }
    assert round[|round| - 1] == ')' by { assert round[|round| - 1..] == [')']; }
    assert s[0] == '[' && s[|s| - 1] == ')';
    LowerKeepsEdges(a, title);
    StripKeepsAll(a, title);
    RoundGroupHasNoSuffix(a, s, i);
    StripsTail(a, square, gap);
    assert EndsInGroup(a, s, i);
    EmptyIff(a, title);
  }

  lemma {:induction false} StripsTail(a: Alphabet, s: string, gap: string)
    requires s != "" && Trimmed(a, s) && AllSpace(a, gap)
    ensures Strip(a, s + gap) == s
    decreases |gap|
  {
    if gap == "" {
      assert s + gap == s;
      StripKeepsAll(a, s);
    } else {
      var front := gap[..|gap| - 1];
      assert (s + gap)[0] == s[0] && (s + gap)[|s + gap| - 1] == gap[|gap| - 1];
      assert gap[|gap| - 1] in gap;
      assert (s + gap)[..|s + gap| - 1] == s + front;
      StripsTail(a, s, front);
    }
  }

  // ---- alphabets

  const ASCII := Alphabet(
    c => 'a' <= c <= 'z' || '0' <= c <= '9',
    c => c == ' ' || '\t' <= c <= '\r',
    c => c)

  /** The laws can be met. */
  lemma AsciiIsLawful()
    ensures Lawful(ASCII)
  {
  }

  const CIRCLED_CAPITAL: char := '\U{24B6}'
  const CIRCLED_SMALL: char := '\U{24D0}'

  /** A table with one pair of circled letters, which have case without being letters. */
  const CIRCLED := Alphabet(ASCII.letter, ASCII.space, c => if c == CIRCLED_CAPITAL then CIRCLED_SMALL else c)

  lemma CircledIsLawful()
    ensures Lawful(CIRCLED)
  {
  }

  /** Two distinct titles, each a circled letter, are taken for the same. */
  lemma CircledLettersCoincide()
    ensures Normalized(CIRCLED, [CIRCLED_CAPITAL]) == Normalized(CIRCLED, [CIRCLED_SMALL])
    ensures Fields(CIRCLED, [CIRCLED_CAPITAL]) != Fields(CIRCLED, [CIRCLED_SMALL])
  {
    CircledIsLawful();
    CasedSymbolsCoincide(CIRCLED, CIRCLED_CAPITAL, CIRCLED_SMALL);
  }
}
