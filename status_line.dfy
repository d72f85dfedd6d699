/**
 * Reading the ahead/behind counts out of `git status --porcelain=v2 --branch`.
 * The source runs `re.search(r"#\sbranch\.ab\s\+(\d+)\s-(\d+)", status)`:
 * the leftmost place where the pattern matches wins, and both counts are
 * 0 when it matches nowhere.
 */
module StatusLine {
  import opened Wrappers
  import opened Decimal

  datatype AheadBehind = AheadBehind(ahead: nat, behind: nat)

  /** Python's `\s` on text: the characters for which `str.isspace()` holds. */
  predicate IsSpace(c: char)
  {
    || '\t' <= c <= '\r'
    || '\U{1C}' <= c <= '\U{1F}'
    || c == ' '
    || c == '\U{85}'
    || c == '\U{A0}'
    || c == '\U{1680}'
    || '\U{2000}' <= c <= '\U{200A}'
    || c == '\U{2028}'
    || c == '\U{2029}'
    || c == '\U{202F}'
    || c == '\U{205F}'
    || c == '\U{3000}'
  }

  /** Number of leading digits of `s` (what a greedy `\d+` takes). */
  function LeadingDigits(s: string): (n: nat)
    ensures n <= |s|
    ensures forall i :: 0 <= i < n ==> IsDigit(s[i])
    ensures n == |s| || !IsDigit(s[n])
  {
    if |s| > 0 && IsDigit(s[0]) then 1 + LeadingDigits(s[1..]) else 0
  }

  /** `#\sbranch\.ab\s\+`: the fixed part of the pattern, 13 characters. */
  predicate StartsCountsHeader(t: string)
  {
    |t| >= 13 && t[0] == '#' && IsSpace(t[1]) && t[2..11] == "branch.ab" && IsSpace(t[11]) && t[12] == '+'
  }

  /**
   * `(\d+)\s-(\d+)` at the start of `u`. Each `\d+` is followed by something
   * that is not a digit (a space, or the end of the pattern), so backtracking
   * never shortens a run: the only candidate match is the greedy one.
   */
  function MatchCounts(u: string): Option<AheadBehind>
  {
    var n1 := LeadingDigits(u);
    if n1 > 0 && n1 + 2 <= |u| && IsSpace(u[n1]) && u[n1 + 1] == '-' then
      var v := u[n1 + 2..];
      var n2 := LeadingDigits(v);
      if n2 > 0 then Some(AheadBehind(DigitsValue(u[..n1]), DigitsValue(v[..n2]))) else None
    else None
  }

  /** The whole pattern anchored at the start of `t`. */
  function MatchPrefix(t: string): Option<AheadBehind>
  {
    if StartsCountsHeader(t) then MatchCounts(t[13..]) else None
  }

  /** The pattern anchored at position `p` of `s`. */
  function MatchAt(s: string, p: nat): Option<AheadBehind>
    requires p <= |s|
  {
    MatchPrefix(s[p..])
  }

  /**
   * `re.search` from position `p`: the leftmost position where the pattern
   * matches, or `|s| + 1` when it matches nowhere.
   */
  function FirstMatchFrom(s: string, p: nat): (q: nat)
    requires p <= |s|
    ensures p <= q <= |s| + 1
    ensures q <= |s| ==> MatchAt(s, q).Some?
    ensures forall q' :: p <= q' < q && q' <= |s| ==> MatchAt(s, q').None?
    decreases |s| - p
  {
    if MatchAt(s, p).Some? then p
    else if p == |s| then |s| + 1
    else FirstMatchFrom(s, p + 1)
  }

  /** Scanning from position `p` on: the counts at the first match, or 0 and 0 when there is none. */
  function SearchFrom(s: string, p: nat): AheadBehind
    requires p <= |s|
    decreases |s| - p
  {
    match MatchAt(s, p)
    case Some(counts) => counts
    case None => if p == |s| then AheadBehind(0, 0) else SearchFrom(s, p + 1)
  }

  /** Lines 182-190: the counts of the first match, or 0 and 0 when there is none. */
  function ParseAheadBehind(status: string): AheadBehind
  {
    SearchFrom(status, 0)
  }

  /** The scan yields the counts at the position `FirstMatchFrom` finds. */
  lemma {:induction false} SearchFromFirstMatch(s: string, p: nat)
    requires p <= |s|
    ensures var q := FirstMatchFrom(s, p);
      SearchFrom(s, p) == if q <= |s| then MatchAt(s, q).value else AheadBehind(0, 0)
    decreases |s| - p
  {
    if MatchAt(s, p).None? && p < |s| {
      SearchFromFirstMatch(s, p + 1);
    }
  }

  /**
   * The counts come from the leftmost place where the pattern matches, at or
   * before any place where it matches; with no match anywhere they are 0 and 0.
   */
  lemma ParseIsLeftmostMatch(status: string)
    ensures (forall q :: 0 <= q <= |status| ==> MatchAt(status, q).None?) ==> ParseAheadBehind(status) == AheadBehind(0, 0)
    ensures forall q :: 0 <= q <= |status| && MatchAt(status, q).Some? ==>
      (exists p :: 0 <= p <= q && MatchAt(status, p) == Some(ParseAheadBehind(status))
        && forall p' :: 0 <= p' < p ==> MatchAt(status, p').None?)
  {
    SearchFromFirstMatch(status, 0);
    var p := FirstMatchFrom(status, 0);
    if p <= |status| {
      assert MatchAt(status, p) == Some(ParseAheadBehind(status));
    }
  }

  /**
   * A counts header whose three `\s` are the character `sp`. Git writes it
   * with plain spaces; any other whitespace character matches the pattern
   * just as well.
   */
  function SpacedHeader(sp: char, ahead: nat, behind: nat): string
  {
    "#" + [sp] + "branch.ab" + [sp] + "+" + NatToString(ahead) + [sp] + "-" + NatToString(behind)
  }

  /** The branch tracking header line as git writes it. */
  function HeaderLine(ahead: nat, behind: nat): string
  {
    SpacedHeader(' ', ahead, behind)
  }

  /**
   * No `#` of the text starts the word `branch.ab`: the pattern cannot match
   * at a `#` that is followed by something else, nor at one too close to the
   * end to be followed by the word at all.
   */
  predicate NoCountsHeader(text: string)
  {
    forall q :: 0 <= q < |text| && text[q] == '#' && q + 11 <= |text| ==> text[q + 2..q + 11] != "branch.ab"
  }

  /** A greedy digit run stops exactly where the digits stop. */
  lemma LeadingDigitsExact(a: string, x: string)
    requires AllDigits(a)
    requires x == [] || !IsDigit(x[0])
    ensures LeadingDigits(a + x) == |a|
  {
    assert forall i :: 0 <= i < |a| ==> (a + x)[i] == a[i];
    assert |x| > 0 ==> (a + x)[|a|] == x[0];
  }

  /** The counts part of a header line is read back as the counts. */
  lemma CountsMatch(sp: char, ahead: nat, behind: nat, rest: string)
    requires IsSpace(sp)
    requires rest == [] || !IsDigit(rest[0])
    ensures MatchCounts(NatToString(ahead) + [sp] + "-" + NatToString(behind) + rest) == Some(AheadBehind(ahead, behind))
  {
    DigitRunsMatch(sp, NatToString(ahead), NatToString(behind), rest);
    DigitsValueOfNatToString(ahead);
    DigitsValueOfNatToString(behind);
  }

  /** Two digit runs separated by a whitespace character and a minus match with their values. */
  lemma DigitRunsMatch(sp: char, a: string, b: string, rest: string)
    requires IsSpace(sp)
    requires |a| > 0 && |b| > 0 && AllDigits(a) && AllDigits(b)
    requires rest == [] || !IsDigit(rest[0])
    ensures MatchCounts(a + [sp] + "-" + b + rest) == Some(AheadBehind(DigitsValue(a), DigitsValue(b)))
  {
    var v := b + rest;
    var u := a + [sp] + "-" + b + rest;
    SplitAround(sp, a, v, u);
    LeadingDigitsExact(a, [sp] + "-" + v);
    LeadingDigitsExact(b, rest);
    assert v[..|b|] == b;
    MatchCountsAt(u, |a|, |b|);
  }

  /** Where the pieces of `a + [sp] + "-" + v` sit. */
  lemma SplitAround(sp: char, a: string, v: string, u: string)
    requires u == a + [sp] + "-" + v
    ensures u == a + ([sp] + "-" + v)
    ensures u[..|a|] == a && u[|a| + 2..] == v && u[|a|] == sp && u[|a| + 1] == '-'
  {
  }

  /** `MatchCounts` when the first run has `n1` digits and the second `n2`. */
  lemma MatchCountsAt(u: string, n1: nat, n2: nat)
    requires 0 < n1 && n1 + 2 <= |u| && LeadingDigits(u) == n1
    requires IsSpace(u[n1]) && u[n1 + 1] == '-'
    requires 0 < n2 && LeadingDigits(u[n1 + 2..]) == n2
    ensures MatchCounts(u) == Some(AheadBehind(DigitsValue(u[..n1]), DigitsValue(u[n1 + 2..][..n2])))
  {
  }

  /** The pattern matches at the start of a counts header that no digit follows. */
  lemma HeaderMatches(sp: char, ahead: nat, behind: nat, rest: string)
    requires IsSpace(sp)
    requires rest == [] || !IsDigit(rest[0])
    ensures MatchPrefix(SpacedHeader(sp, ahead, behind) + rest) == Some(AheadBehind(ahead, behind))
  {
    var u := NatToString(ahead) + [sp] + "-" + NatToString(behind) + rest;
    var fixed := "#" + [sp] + "branch.ab" + [sp] + "+";
    var t := fixed + u;
    assert SpacedHeader(sp, ahead, behind) + rest == t;
    assert |fixed| == 13 && t[13..] == u;
    assert t[2..11] == fixed[2..11] == "branch.ab";
    assert StartsCountsHeader(t);
    CountsMatch(sp, ahead, behind, rest);
  }

  /**
   * When the pattern matches at the start of `rest` and the text before it
   * holds no counts header, the search finds that match: a `#` before it is
   * either followed by something other than `branch.ab`, or is so close that
   * the `#` of `rest` would have to be the `\s` or a letter of `branch.ab`.
   */
  lemma ParsesFirstMatch(before: string, rest: string)
    requires NoCountsHeader(before)
    requires MatchPrefix(rest).Some?
    ensures ParseAheadBehind(before + rest) == MatchPrefix(rest).value
  {
    var s := before + rest;
    var p := |before|;
    assert rest[0] == '#' && rest[2..11] == "branch.ab";
    forall q | 0 <= q < p
      ensures MatchAt(s, q).None?
    {
      if s[q] == '#' {
        assert before[q] == '#';
        if q + 11 <= |before| {
          assert s[q + 2..q + 11] == before[q + 2..q + 11];
          assert s[q..][2..11] == s[q + 2..q + 11];
        } else {
          assert s[p] == '#';
          if q + 1 == p {
            assert s[q..][1] == '#';
          } else {
            assert s[q..][2..11][p - q - 2] == '#';
          }
        }
      }
    }
    assert s[p..] == rest;
    assert MatchAt(s, p) == MatchPrefix(rest);
    assert FirstMatchFrom(s, 0) == p;
    SearchFromFirstMatch(s, 0);
  }

  /** The header line, with the text before it holding no other counts header, yields exactly its counts. */
  lemma ParsesHeaderLine(before: string, ahead: nat, behind: nat, after: string)
    requires NoCountsHeader(before)
    requires after == [] || !IsDigit(after[0])
    ensures ParseAheadBehind(before + HeaderLine(ahead, behind) + after) == AheadBehind(ahead, behind)
  {
    var rest := HeaderLine(ahead, behind) + after;
    HeaderMatches(' ', ahead, behind, after);
    ParsesFirstMatch(before, rest);
    assert before + HeaderLine(ahead, behind) + after == before + rest;
  }

  /** Line 186 on `# branch.ab +3 -5`: ahead 3, behind 5. */
  lemma ParsesExampleHeader()
    ensures ParseAheadBehind("# branch.ab +3 -5") == AheadBehind(3, 5)
  {
    assert NatToString(3) == "3" && NatToString(5) == "5";
    assert "" + HeaderLine(3, 5) + "" == "# branch.ab +3 -5";
    ParsesHeaderLine("", 3, 5, "");
  }

  /**
   * A status without a counts header (a branch with no upstream, whose
   * `# branch.oid` and `# branch.head` lines name other words) yields
   * ahead = behind = 0.
   */
  lemma NoHeaderMeansZero(status: string)
    requires NoCountsHeader(status)
    ensures ParseAheadBehind(status) == AheadBehind(0, 0)
  {
    forall q | 0 <= q <= |status|
      ensures MatchAt(status, q).None?
    {
      if q + 11 <= |status| && status[q] == '#' {
        assert status[q..][2..11] == status[q + 2..q + 11];
      }
    }
    SearchFromFirstMatch(status, 0);
  }

  /**
   * The header lines git writes for a branch with no upstream,
   * `# branch.oid <oid>` and `# branch.head <head>`, carry no counts when the
   * branch name holds no counts header itself: ahead = behind = 0. A `#` in
   * the name is harmless unless `branch.ab` follows it.
   */
  lemma NoUpstreamMeansZero(oid: string, head: string)
    requires '#' !in oid && NoCountsHeader(head)
    ensures ParseAheadBehind("# branch.oid " + oid + "\n# branch.head " + head + "\n") == AheadBehind(0, 0)
  {
    var first := "# branch.oid " + oid + "\n";
    var second := "# branch.head " + head + "\n";
    var status := first + second;
    assert status == "# branch.oid " + oid + "\n# branch.head " + head + "\n";
    forall q | 0 <= q < |status| && status[q] == '#' && q + 11 <= |status|
      ensures status[q + 2..q + 11] != "branch.ab"
    {
      if q < |first| {
        assert status[q + 2..q + 11][7] == first[9];
      } else if q == |first| {
        assert status[q + 2..q + 11][7] == second[9];
      } else {
        // a `#` of the branch name: either the name goes on with something
        // other than `branch.ab`, or the closing newline falls inside the word
        var j := q - |first| - 14;
        assert head[j] == '#';
        if j + 11 <= |head| {
          assert status[q + 2..q + 11] == head[j + 2..j + 11];
        } else {
          assert status[q + 2..q + 11][8] == '\n';
        }
      }
    }
    NoHeaderMeansZero(status);
  }

  /**
   * The pattern is not anchored to the start of a line, and `\s` takes a
   * no-break space, which git allows in a branch name: a branch named
   * `x#<nbsp>branch.ab<nbsp>+1<nbsp>-2` puts counts into its own
   * `# branch.head` line, and since that line comes first they win over the
   * real header.
   */
  lemma BranchNameInjectsCounts(oid: string, ahead: nat, behind: nat, realAhead: nat, realBehind: nat)
    requires '#' !in oid
    ensures ParseAheadBehind("# branch.oid " + oid + "\n# branch.head x" + SpacedHeader('\U{A0}', ahead, behind)
                             + "\n" + HeaderLine(realAhead, realBehind)) == AheadBehind(ahead, behind)
  {
    var before := "# branch.oid " + oid + "\n# branch.head x";
    var after := "\n" + HeaderLine(realAhead, realBehind);
    var rest := SpacedHeader('\U{A0}', ahead, behind) + after;
    HeadLinesHaveNoHeader(oid);
    HeaderMatches('\U{A0}', ahead, behind, after);
    ParsesFirstMatch(before, rest);
    NewlineBetween(before, SpacedHeader('\U{A0}', ahead, behind), HeaderLine(realAhead, realBehind));
  }

  /** Regrouping `a + b + "\n" + c`. */
  lemma NewlineBetween(a: string, b: string, c: string)
    ensures a + b + "\n" + c == a + (b + ("\n" + c))
  {
  }

  /** The `# branch.oid` line and the start of a `# branch.head x...` line hold no counts header. */
  lemma HeadLinesHaveNoHeader(oid: string)
    requires '#' !in oid
    ensures NoCountsHeader("# branch.oid " + oid + "\n# branch.head x")
  {
    var first := "# branch.oid " + oid + "\n";
    var before := first + "# branch.head x";
    assert before == "# branch.oid " + oid + "\n# branch.head x";
    forall q | 0 <= q < |before| && before[q] == '#' && q + 11 <= |before|
      ensures before[q + 2..q + 11] != "branch.ab"
    {
      assert before[q + 2..q + 11][7] == before[q + 9];
      if q < |first| {
        assert before[q + 9] == first[9];
      } else {
        assert before[q + 9] == "# branch.head x"[9];
      }
    }
  }

  /**
   * An upstream whose name ends in `#` does not hide the counts header that
   * follows it: the `#` is too close to the header to start a match.
   */
  lemma ParsesAfterHashInUpstream(ahead: nat, behind: nat)
    ensures ParseAheadBehind("# branch.upstream origin/issue#7\n" + HeaderLine(ahead, behind)) == AheadBehind(ahead, behind)
  {
    var before := "# branch.upstream origin/issue#7\n";
    forall q | 0 <= q < |before| && before[q] == '#' && q + 11 <= |before|
      ensures before[q + 2..q + 11] != "branch.ab"
    {
      assert before[q + 2..q + 11][7] == before[q + 9];
    }
    assert before + HeaderLine(ahead, behind) + "" == before + HeaderLine(ahead, behind);
    ParsesHeaderLine(before, ahead, behind, "");
  }
}
