/** The release normaliser: one record per release id, with every credit that any of its records carried. */
module Normalizer {
  import opened Prelude

  datatype Credit = Credit(provider: string, providerId: string, role: string, track: string, details: string)

  /** `details` stands for the columns that only travel along. */
  datatype Release = Release(mbid: string, primaryType: string, role: string, credits: seq<Credit>, details: string)

  const NUL: string := "\0"

  function Key(c: Credit): string {
    c.provider + NUL + c.providerId + NUL + c.role + NUL + c.track
  }

  predicate Plain(s: string) {
    forall i | 0 <= i < |s| :: s[i] != '\0'
  }

  lemma CutAtNul(a: string, b: string, a': string, b': string)
    requires Plain(a) && Plain(a') && a + NUL + b == a' + NUL + b'
    ensures a == a' && b == b'
  {
    var s, t := a + NUL + b, a' + NUL + b';
    assert s[|a|] == '\0' && t[|a'|] == '\0';
    assert forall i | 0 <= i < |a| :: s[i] == a[i];
    assert forall i | 0 <= i < |a'| :: t[i] == a'[i];
    assert |a| == |a'|;
    assert a == s[..|a|] && a' == t[..|a|];
    assert b == s[|a| + 1..] && b' == t[|a| + 1..];
  }

  /** Two credits share a key exactly when provider, provider id, role and track agree, as long as none holds a NUL. */
  lemma KeyIsFaithful(c: Credit, d: Credit)
    requires Plain(c.provider) && Plain(c.providerId) && Plain(c.role)
    requires Plain(d.provider) && Plain(d.providerId) && Plain(d.role)
    ensures Key(c) == Key(d)
       <==> c.provider == d.provider && c.providerId == d.providerId && c.role == d.role && c.track == d.track
  {
    if Key(c) == Key(d) {
      var c1, d1 := c.role + NUL + c.track, d.role + NUL + d.track;
      var c2, d2 := c.providerId + NUL + c1, d.providerId + NUL + d1;
      assert Key(c) == c.provider + NUL + c2 && Key(d) == d.provider + NUL + d2;
      CutAtNul(c.provider, c2, d.provider, d2);
      CutAtNul(c.providerId, c1, d.providerId, d1);
      CutAtNul(c.role, c.track, d.role, d.track);
    }
  }

  // ---- merging credits

  function Keys(credits: seq<Credit>): set<string> {
    set c | c in credits :: Key(c)
  }

  /** The existing credits, then every incoming one whose key is new. */
  function Merge(existing: seq<Credit>, incoming: seq<Credit>): seq<Credit> {
    if incoming == [] then existing
    else
      var last := incoming[|incoming| - 1];
      var m := Merge(existing, incoming[..|incoming| - 1]);
      if Key(last) in Keys(m) then m else m + [last]
  }

  lemma {:induction false} MergeUnites(existing: seq<Credit>, incoming: seq<Credit>)
    ensures Keys(Merge(existing, incoming)) == Keys(existing) + Keys(incoming)
    ensures existing <= Merge(existing, incoming)
  {
    if incoming != [] {
      var last := incoming[|incoming| - 1];
      var front := incoming[..|incoming| - 1];
      MergeUnites(existing, front);
      KeysOneMore(Merge(existing, front), last);
      KeysOneMore(front, last);
      assert incoming == front + [last];
    }
  }

  lemma KeysOneMore(credits: seq<Credit>, c: Credit)
    ensures Keys(credits + [c]) == Keys(credits) + {Key(c)}
  {
  }

  lemma {:induction false} MergeNothingNew(existing: seq<Credit>, incoming: seq<Credit>)
    requires Keys(incoming) <= Keys(existing)
    ensures Merge(existing, incoming) == existing
  {
    if incoming != [] {
      var front := incoming[..|incoming| - 1];
      assert Keys(front) <= Keys(incoming);
      assert Key(incoming[|incoming| - 1]) in Keys(incoming);
      MergeNothingNew(existing, front);
    }
  }

  method MergeReleaseCredits(existing: seq<Credit>, incoming: seq<Credit>) returns (merged: seq<Credit>)
    ensures merged == Merge(existing, incoming)
    ensures Keys(merged) == Keys(existing) + Keys(incoming)
  {
    MergeUnites(existing, incoming);
    if |incoming| == 0 {
      return existing;
    }
    merged := existing;
    var seen := Keys(existing);
    for i := 0 to |incoming|
      invariant merged == Merge(existing, incoming[..i]) && seen == Keys(merged)
    {
      var key := Key(incoming[i]);
      assert incoming[..i + 1][..i] == incoming[..i];
      if key !in seen {
        seen := seen + {key};
        merged := merged + [incoming[i]];
      }
    }
    assert incoming[..|incoming|] == incoming;
  }

  // ---- normalising

  predicate Eligible(r: Release) {
    (r.primaryType == "Album" || r.primaryType == "EP" || r.primaryType == "Single") && r.mbid != ""
  }

  function Lower(c: char): char {
    if 'A' <= c <= 'Z' then c - 'A' + 'a' else c
  }

  function LowerAll(s: string): string {
    seq(|s|, i requires 0 <= i < |s| => Lower(s[i]))
  }

  predicate Featured(r: Release) {
    LowerAll(Trim(r.role)) == "featured"
  }

  /** The distinct ids of the eligible records, in the order of their first appearance. */
  function Mbids(input: seq<Release>): seq<string> {
    if input == [] then []
    else
      var last := input[|input| - 1];
      var m := Mbids(input[..|input| - 1]);
      if Eligible(last) && last.mbid !in m then m + [last.mbid] else m
  }

  /** The eligible records of one id, in order. */
  function Group(input: seq<Release>, m: string): seq<Release> {
    if input == [] then []
    else
      var last := input[|input| - 1];
      Group(input[..|input| - 1], m) + if Eligible(last) && last.mbid == m then [last] else []
  }

  function Flags(g: seq<Release>): (r: seq<bool>)
    ensures |r| == |g| && forall i | 0 <= i < |g| :: r[i] == Featured(g[i])
  {
    seq(|g|, i requires 0 <= i < |g| => Featured(g[i]))
  }

  /** Position `k` holds the first `false`, or is 0 when there is none. */
  ghost predicate FirstFalse(flags: seq<bool>, k: nat) {
    && k < |flags| && (forall j | 0 <= j < k :: flags[j])
    && (flags[k] ==> k == 0 && forall j | 0 <= j < |flags| :: flags[j])
  }

  function Pick(flags: seq<bool>): (k: nat)
    requires flags != []
    ensures FirstFalse(flags, k)
  {
    if |flags| == 1 then 0
    else
      var last := |flags| - 1;
      var k := Pick(flags[..last]);
      assert forall j | 0 <= j < last :: flags[..last][j] == flags[j];
      if flags[k] && !flags[last] then last else k
  }

  /** The first record that is not featured, or the first if all are. */
  function Base(g: seq<Release>): Release
    requires g != []
  {
    g[Pick(Flags(g))]
  }

  function AllCredits(g: seq<Release>): seq<Credit>
    requires g != []
  {
    if |g| == 1 then g[0].credits else Merge(AllCredits(g[..|g| - 1]), g[|g| - 1].credits)
  }

  function Collapse(g: seq<Release>): Release
    requires g != []
  {
    Base(g).(credits := AllCredits(g))
  }

  lemma {:induction false} GroupsExist(input: seq<Release>, m: string)
    ensures m in Mbids(input) <==> Group(input, m) != []
    ensures forall r :: r in Group(input, m) <==> r in input && Eligible(r) && r.mbid == m
  {
    if input != [] {
      var front := input[..|input| - 1];
      assert input == front + [input[|input| - 1]];
      GroupsExist(front, m);
    }
  }

  lemma {:induction false} MbidsAreDistinct(input: seq<Release>)
    ensures forall i, j | 0 <= i < j < |Mbids(input)| :: Mbids(input)[i] != Mbids(input)[j]
  {
    if input != [] {
      MbidsAreDistinct(input[..|input| - 1]);
    }
  }

  /** The independent description: one collapsed record per id, in order of first appearance. */
  ghost predicate IsNormalized(input: seq<Release>, output: seq<Release>) {
    && |output| == |Mbids(input)|
    && forall i | 0 <= i < |output| ::
         Group(input, Mbids(input)[i]) != [] && output[i] == Collapse(Group(input, Mbids(input)[i]))
  }

  lemma OneMore(input: seq<Release>, n: nat)
    requires n < |input|
    ensures var r := input[n];
            && Mbids(input[..n + 1])
                 == Mbids(input[..n]) + (if Eligible(r) && r.mbid !in Mbids(input[..n]) then [r.mbid] else [])
            && forall m :: Group(input[..n + 1], m)
                 == Group(input[..n], m) + if Eligible(r) && r.mbid == m then [r] else []
  {
    assert input[..n + 1][..n] == input[..n];
  }

  ghost predicate IsIndex(seen: map<string, nat>, ids: seq<string>) {
    && (forall m | m in seen :: seen[m] < |ids| && ids[seen[m]] == m)
    && (forall i | 0 <= i < |ids| :: ids[i] in seen)
  }

  lemma CollapseOneMore(g: seq<Release>, r: Release)
    requires g != []
    ensures var b := Base(g);
            Collapse(g + [r]) == (if Featured(b) && !Featured(r) then r else b).(
              credits := Merge(AllCredits(g), r.credits))
  {
    assert (g + [r])[..|g|] == g;
    assert Flags(g + [r])[..|g|] == Flags(g);
  }

  lemma Skipped(input: seq<Release>, n: nat, output: seq<Release>)
    requires n < |input| && !Eligible(input[n]) && IsNormalized(input[..n], output)
    ensures Mbids(input[..n + 1]) == Mbids(input[..n]) && IsNormalized(input[..n + 1], output)
  {
    OneMore(input, n);
    assert forall m :: Group(input[..n + 1], m) == Group(input[..n], m);
  }

  lemma Appended(input: seq<Release>, n: nat, output: seq<Release>)
    requires n < |input| && Eligible(input[n]) && input[n].mbid !in Mbids(input[..n])
    requires IsNormalized(input[..n], output)
    ensures Mbids(input[..n + 1]) == Mbids(input[..n]) + [input[n].mbid]
    ensures IsNormalized(input[..n + 1], output + [input[n]])
  {
    OneMore(input, n);
    GroupsExist(input[..n], input[n].mbid);
    var ids := Mbids(input[..n + 1]);
    var longer := output + [input[n]];
    forall i | 0 <= i < |longer|
      ensures Group(input[..n + 1], ids[i]) != [] && longer[i] == Collapse(Group(input[..n + 1], ids[i]))
    {
      if i < |output| {
        assert ids[i] in Mbids(input[..n]);
        assert Group(input[..n + 1], ids[i]) == Group(input[..n], ids[i]);
      }
    }
  }

  lemma Replaced(input: seq<Release>, n: nat, output: seq<Release>, index: nat)
    requires n < |input| && Eligible(input[n]) && IsNormalized(input[..n], output)
    requires index < |output| && Mbids(input[..n])[index] == input[n].mbid
    ensures Mbids(input[..n + 1]) == Mbids(input[..n])
    ensures var g := Group(input[..n], input[n].mbid);
            g != [] && output[index] == Collapse(g)
            && IsNormalized(input[..n + 1], output[index := Collapse(g + [input[n]])])
  {
    OneMore(input, n);
    MbidsAreDistinct(input[..n]);
    var ids := Mbids(input[..n]);
    assert ids[index] in ids;
    var updated := output[index := Collapse(Group(input[..n], input[n].mbid) + [input[n]])];
    forall i | 0 <= i < |updated|
      ensures Group(input[..n + 1], ids[i]) != [] && updated[i] == Collapse(Group(input[..n + 1], ids[i]))
    {
      if i != index {
        assert ids[i] != ids[index];
        assert Group(input[..n + 1], ids[i]) == Group(input[..n], ids[i]);
      }
    }
  }

  method Normalize(input: seq<Release>) returns (output: seq<Release>)
    ensures IsNormalized(input, output)
  {
    var seen: map<string, nat> := map[];
    output := [];
    for i := 0 to |input|
      invariant IsNormalized(input[..i], output) && IsIndex(seen, Mbids(input[..i]))
    {
      var release := input[i];
      if !Eligible(release) {
        Skipped(input, i, output);
      } else if release.mbid in seen {
        var index := seen[release.mbid];
        Replaced(input, i, output, index);
        var kept := output[index];
        var credits := MergeReleaseCredits(kept.credits, release.credits);
        CollapseOneMore(Group(input[..i], release.mbid), release);
        if Featured(kept) && !Featured(release) {
          var again := MergeReleaseCredits(credits, release.credits);
          MergeNothingNew(credits, release.credits);
          output := output[index := release.(credits := again)];
        } else {
          output := output[index := kept.(credits := credits)];
        }
      } else {
        Appended(input, i, output);
        seen := seen[release.mbid := |output|];
        output := output + [release];
      }
    }
    assert input[..|input|] == input;
  }

  // ---- what normalising achieves

  /** A credit key of any of the records. */
  ghost predicate Carries(g: seq<Release>, key: string) {
    exists r | r in g :: key in Keys(r.credits)
  }

  lemma CarriesOneMore(g: seq<Release>, r: Release, key: string)
    ensures Carries(g + [r], key) <==> Carries(g, key) || key in Keys(r.credits)
  {
    if Carries(g, key) {
      var x :| x in g && key in Keys(x.credits);
      assert x in g + [r];
    }
    assert r in g + [r];
  }

  lemma {:induction false} AllCreditsUnites(g: seq<Release>, key: string)
    requires g != []
    ensures key in Keys(AllCredits(g)) <==> Carries(g, key)
  {
    var n := |g| - 1;
    CarriesOneMore(g[..n], g[n], key);
    assert g == g[..n] + [g[n]];
    if n > 0 {
      AllCreditsUnites(g[..n], key);
      MergeUnites(AllCredits(g[..n]), g[n].credits);
    }
  }

  /**
   The output lists each eligible id once, in order of first appearance; each record is the first one of its id that
   is not featured (else the first), and carries a credit key exactly when some input record of that id did.
   */
  lemma NormalizedRecords(input: seq<Release>, output: seq<Release>, i: nat) returns (k: nat)
    requires IsNormalized(input, output) && i < |output|
    ensures var m := output[i].mbid;
            && m == Mbids(input)[i]
            && (forall j | 0 <= j < |output| && j != i :: output[j].mbid != m)
            && k < |Group(input, m)| && FirstFalse(Flags(Group(input, m)), k)
            && output[i] == Group(input, m)[k].(credits := output[i].credits)
            && forall key :: key in Keys(output[i].credits)
                 <==> exists r | r in input :: Eligible(r) && r.mbid == m && key in Keys(r.credits)
  {
    NormalizedIds(input, output);
    MbidsAreDistinct(input);
    var m := Mbids(input)[i];
    var g := Group(input, m);
    GroupsExist(input, m);
    k := Pick(Flags(g));
    forall key
      ensures key in Keys(output[i].credits)
         <==> exists r | r in input :: Eligible(r) && r.mbid == m && key in Keys(r.credits)
    {
      AllCreditsUnites(g, key);
    }
  }

  lemma NormalizedIds(input: seq<Release>, output: seq<Release>)
    requires IsNormalized(input, output)
    ensures forall i | 0 <= i < |output| :: output[i].mbid == Mbids(input)[i] && Eligible(output[i])
  {
    forall i | 0 <= i < |output|
      ensures output[i].mbid == Mbids(input)[i] && Eligible(output[i])
    {
      var g := Group(input, Mbids(input)[i]);
      GroupsExist(input, Mbids(input)[i]);
      assert g[Pick(Flags(g))] in g;
    }
  }

  ghost predicate AlreadyNormal(s: seq<Release>) {
    && (forall i | 0 <= i < |s| :: Eligible(s[i]))
    && (forall i, j | 0 <= i < j < |s| :: s[i].mbid != s[j].mbid)
  }

  lemma {:induction false} NormalStays(s: seq<Release>)
    requires AlreadyNormal(s)
    ensures |Mbids(s)| == |s| && forall i | 0 <= i < |s| :: Mbids(s)[i] == s[i].mbid && Group(s, s[i].mbid) == [s[i]]
  {
    if s != [] {
      var n := |s| - 1;
      var front := s[..n];
      NormalStays(front);
      var m := s[n].mbid;
      assert forall i | 0 <= i < n :: Mbids(front)[i] == front[i].mbid && front[i] == s[i];
      assert m !in Mbids(front);
      GroupsExist(front, m);
      assert Group(s, m) == Group(front, m) + [s[n]];
    }
  }

  /** Normalising twice is normalising once. */
  lemma NormalizeIsIdempotent(input: seq<Release>, output: seq<Release>, again: seq<Release>)
    requires IsNormalized(input, output) && IsNormalized(output, again)
    ensures again == output
  {
    NormalizedIds(input, output);
    MbidsAreDistinct(input);
    NormalStays(output);
    forall i | 0 <= i < |output|
      ensures again[i] == output[i]
    {
      assert Group(output, Mbids(output)[i]) == [output[i]];
    }
  }

  // ---- what is kept

  /** Every album, EP and single with an id is kept, under its id, and nothing else is. */
  lemma WhatIsKept(input: seq<Release>, output: seq<Release>, m: string)
    requires IsNormalized(input, output)
    ensures (exists o | o in output :: o.mbid == m)
       <==> m != "" && exists r | r in input :: r.mbid == m && r.primaryType in {"Album", "EP", "Single"}
  {
    NormalizedIds(input, output);
    GroupsExist(input, m);
    if m in Mbids(input) {
      var i :| 0 <= i < |Mbids(input)| && Mbids(input)[i] == m;
      assert output[i] in output && output[i].mbid == m;
      var r := Group(input, m)[0];
      assert r in Group(input, m);
    }
    if r :| r in input && r.mbid == m && m != "" && r.primaryType in {"Album", "EP", "Single"} {
      assert Eligible(r);
      assert r in Group(input, m);
    }
    if o :| o in output && o.mbid == m {
      var i :| 0 <= i < |output| && output[i] == o;
    }
  }

  predicate SameLetter(c: char, lower: char, upper: char) {
    c == lower || c == upper
  }

  /** The text is the word "featured", in any case. */
  predicate SaysFeatured(s: string) {
    && |s| == 8
    && SameLetter(s[0], 'f', 'F') && SameLetter(s[1], 'e', 'E') && SameLetter(s[2], 'a', 'A')
    && SameLetter(s[3], 't', 'T') && SameLetter(s[4], 'u', 'U') && SameLetter(s[5], 'r', 'R')
    && SameLetter(s[6], 'e', 'E') && SameLetter(s[7], 'd', 'D')
  }

  lemma LowerLetters()
    ensures Lower('F') == 'f' && Lower('E') == 'e' && Lower('A') == 'a' && Lower('T') == 't'
    ensures Lower('U') == 'u' && Lower('R') == 'r' && Lower('D') == 'd'
    ensures forall c | 'a' <= c <= 'z' :: Lower(c) == c
  {
  }

  lemma FeaturedInAnyCase(s: string)
    requires SaysFeatured(s)
    ensures LowerAll(s) == "featured" && !IsSpace(s[0]) && !IsSpace(s[7])
  {
    LowerLetters();
    assert LowerAll(s) == ['f', 'e', 'a', 't', 'u', 'r', 'e', 'd'];
    assert "featured" == ['f', 'e', 'a', 't', 'u', 'r', 'e', 'd'];
  }

  /** The role is read without regard to case and surrounding white space. */
  lemma RoleIsRead(r: Release, before: string, role: string, after: string)
    requires (forall c | c in before :: IsSpace(c)) && (forall c | c in after :: IsSpace(c))
    requires SaysFeatured(role) && r.role == before + role + after
    ensures Featured(r)
  {
    FeaturedInAnyCase(role);
    TrimPadded(before, role, after);
  }

  lemma TrimPadded(before: string, s: string, after: string)
    requires (forall c | c in before :: IsSpace(c)) && (forall c | c in after :: IsSpace(c))
    requires s != "" && !IsSpace(s[0]) && !IsSpace(s[|s| - 1])
    ensures Trim(before + s + after) == s
  {
    var t := before + s + after;
    var i, j := TextStart(t, 0), TextEnd(t, |t|);
    assert forall k | 0 <= k < |before| :: t[k] == before[k] && t[k] in before;
    assert t[|before|] == s[0] && t[|before| + |s| - 1] == s[|s| - 1];
    assert forall k | |before| + |s| <= k < |t| :: t[k] == after[k - |before| - |s|] && t[k] in after;
    assert i == |before| && j == |before| + |s|;
    assert t[i..j] == s;
  }

  /** A record credited as primary, or without a role, is not passed over. */
  lemma PrimaryIsNotFeatured(r: Release)
    requires r.role == "primary" || r.role == "guest" || r.role == ""
    ensures !Featured(r)
  {
    if r.role == "" {
      assert Trim(r.role) == "";
    } else {
      TrimPadded("", r.role, "");
      assert "" + r.role + "" == r.role;
      assert LowerAll(r.role)[0] == Lower(r.role[0]);
    }
  }
}
