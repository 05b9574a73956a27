/** The pure helpers of the storefront: URL slugs, text truncation, tax and
    shipping. */
module Utils {
  import opened Ascii
  import opened Seqs

  // ---------------------------------------------------------------------------
  // generateSlug: lowercase, trim, drop [^\w\s-], collapse [\s_-]+ to "-",
  // strip leading and trailing dashes.
  // ---------------------------------------------------------------------------

  /** Removes the longest prefix whose characters all satisfy `p`. */
  function TrimStartWhile(s: string, p: char -> bool): (r: string)
    ensures |r| <= |s| && r == s[|s| - |r|..]
    ensures r == [] || !p(r[0])
    ensures forall i :: 0 <= i < |s| - |r| ==> p(s[i])
  {
    if s != [] && p(s[0]) then TrimStartWhile(s[1..], p) else s
  }

  /** Removes the longest suffix whose characters all satisfy `p`. */
  function TrimEndWhile(s: string, p: char -> bool): (r: string)
    ensures |r| <= |s| && r == s[..|r|]
    ensures r == [] || !p(r[|r| - 1])
    ensures forall i :: |r| <= i < |s| ==> p(s[i])
  {
    if s != [] && p(s[|s| - 1]) then TrimEndWhile(s[..|s| - 1], p) else s
  }

  /** `trim()`: white space removed from both ends. */
  function Trim(s: string): string
  {
    TrimEndWhile(TrimStartWhile(s, IsSpace), IsSpace)
  }

  /** The class `[\w\s-]` of characters a slug source may keep. */
  predicate IsKept(c: char) { IsWordChar(c) || IsSpace(c) || c == '-' }

  /** The class `[\s_-]` of separator characters. */
  predicate IsSeparator(c: char) { IsSpace(c) || c == '_' || c == '-' }

  predicate IsDash(c: char) { c == '-' }

  /** The characters that may appear in a generated slug. */
  predicate IsSlugChar(c: char) { IsLowerLetter(c) || IsDigit(c) || c == '-' }

  /** `replace(/[^\w\s-]/g, '')`. */
  function DropDisallowed(s: string): string
  {
    Filter(s, IsKept)
  }

  /** Each maximal run of characters of the class `sep` becomes one dash. */
  function CollapseRuns(s: string, sep: char -> bool): string
    decreases |s|
  {
    if s == [] then []
    else if sep(s[0]) then
      var rest := TrimStartWhile(s, sep);
      assert |rest| == |s| ==> rest == s;
      "-" + CollapseRuns(rest, sep)
    else
      [s[0]] + CollapseRuns(s[1..], sep)
  }

  /** `replace(/[\s_-]+/g, '-')`. */
  function CollapseSeparators(s: string): string
  {
    CollapseRuns(s, IsSeparator)
  }

  /** `replace(/^-+|-+$/g, '')`. */
  function StripDashes(s: string): string
  {
    TrimEndWhile(TrimStartWhile(s, IsDash), IsDash)
  }

  /** `generateSlug(text)`: only lower-case ASCII letters, digits and dashes, no
      dash at either end and never two dashes in a row. */
  function GenerateSlug(text: string): (slug: string)
    ensures forall i :: 0 <= i < |slug| ==> IsSlugChar(slug[i])
    ensures slug == [] || (slug[0] != '-' && slug[|slug| - 1] != '-')
    ensures NoDoubleDash(slug)
  {
    StagesMakeSlug(text);
    StripDashes(CollapseSeparators(DropDisallowed(Trim(Lower(text)))))
  }

  /** No two dashes stand next to each other. */
  ghost predicate NoDoubleDash(s: string)
  {
    forall i, j :: 0 <= i && j == i + 1 && j < |s| ==> !(s[i] == '-' && s[j] == '-')
  }

  ghost predicate AllSlugChars(s: string)
  {
    forall i :: 0 <= i < |s| ==> IsSlugChar(s[i])
  }

  /** A well-formed slug: lower-case letters, digits and single inner dashes. */
  ghost predicate IsSlug(s: string)
  {
    && AllSlugChars(s)
    && (s == [] || (s[0] != '-' && s[|s| - 1] != '-'))
    && NoDoubleDash(s)
  }

  /** Trimming keeps a string free of capitals. */
  lemma TrimKeepsNoUpper(s: string)
    requires NoUpper(s)
    ensures NoUpper(Trim(s))
  {
    TrimStartKeepsNoUpper(s, IsSpace);
    TrimEndKeepsNoUpper(TrimStartWhile(s, IsSpace), IsSpace);
  }

  /** Removing a prefix keeps a string free of capitals. */
  lemma TrimStartKeepsNoUpper(s: string, p: char -> bool)
    requires NoUpper(s)
    ensures NoUpper(TrimStartWhile(s, p))
  {
    var r := TrimStartWhile(s, p);
    forall i | 0 <= i < |r| ensures !IsUpper(r[i]) {
      assert r[i] == s[|s| - |r| + i];
    }
  }

  /** Removing a suffix keeps a string free of capitals. */
  lemma TrimEndKeepsNoUpper(s: string, p: char -> bool)
    requires NoUpper(s)
    ensures NoUpper(TrimEndWhile(s, p))
  {
    var r := TrimEndWhile(s, p);
    forall i | 0 <= i < |r| ensures !IsUpper(r[i]) {
      assert r[i] == s[i];
    }
  }

  /** After dropping, every character is kept-class and not a capital. */
  lemma DropLeavesSlugSource(s: string)
    requires NoUpper(s)
    ensures forall i :: 0 <= i < |DropDisallowed(s)| ==>
      IsKept(DropDisallowed(s)[i]) && !IsUpper(DropDisallowed(s)[i])
  {
    var r := DropDisallowed(s);
    forall i | 0 <= i < |r| ensures IsKept(r[i]) && !IsUpper(r[i]) {
      FilterMembership(s, IsKept, r[i]);
    }
  }

  /** The collapse never leaves two dashes in a row, and its result starts with
      a dash exactly when the input starts with a separator (for any separator
      class that contains the dash). */
  lemma {:induction false} CollapseShape(s: string, sep: char -> bool)
    requires sep('-')
    ensures NoDoubleDash(CollapseRuns(s, sep))
    ensures (CollapseRuns(s, sep) != [] && CollapseRuns(s, sep)[0] == '-') <==> (s != [] && sep(s[0]))
    decreases |s|
  {
    if s != [] {
      if sep(s[0]) {
        var rest := TrimStartWhile(s, sep);
        assert |rest| == |s| ==> rest == s;
        CollapseShape(rest, sep);
        PrependKeepsNoDoubleDash('-', CollapseRuns(rest, sep));
      } else {
        CollapseShape(s[1..], sep);
        PrependKeepsNoDoubleDash(s[0], CollapseRuns(s[1..], sep));
      }
    }
  }

  /** A character put in front of a string without double dashes adds none,
      unless both it and the string's first character are dashes. */
  lemma PrependKeepsNoDoubleDash(x: char, c: string)
    requires NoDoubleDash(c) && (x != '-' || c == [] || c[0] != '-')
    ensures NoDoubleDash([x] + c)
  {
    var r := [x] + c;
    assert forall i :: 0 <= i < |c| ==> r[i + 1] == c[i];
  }

  /** When every character outside the separator class is a slug character,
      the collapse yields slug characters only. */
  lemma {:induction false} CollapseGivesSlugChars(s: string, sep: char -> bool)
    requires forall i :: 0 <= i < |s| && !sep(s[i]) ==> IsSlugChar(s[i])
    ensures AllSlugChars(CollapseRuns(s, sep))
    decreases |s|
  {
    if s != [] {
      if sep(s[0]) {
        var rest := TrimStartWhile(s, sep);
        assert |rest| == |s| ==> rest == s;
        assert forall i :: 0 <= i < |rest| ==> rest[i] == s[|s| - |rest| + i];
        CollapseGivesSlugChars(rest, sep);
      } else {
        assert forall i :: 0 <= i < |s| - 1 ==> s[1..][i] == s[i + 1];
        CollapseGivesSlugChars(s[1..], sep);
      }
    }
  }

  /** Any slice of a string of slug characters without double dashes is one too. */
  lemma SliceStaysClean(s: string, a: nat, b: nat)
    requires a <= b <= |s|
    requires AllSlugChars(s) && NoDoubleDash(s)
    ensures AllSlugChars(s[a..b]) && NoDoubleDash(s[a..b])
  {
    var r := s[a..b];
    assert forall i :: 0 <= i < |r| ==> r[i] == s[a + i];
  }

  /** Stripping edge dashes from slug characters without double dashes gives a slug. */
  lemma StripGivesSlug(s: string)
    requires AllSlugChars(s) && NoDoubleDash(s)
    ensures IsSlug(StripDashes(s))
  {
    var front := TrimStartWhile(s, IsDash);
    SliceStaysClean(s, |s| - |front|, |s|);
    var r := TrimEndWhile(front, IsDash);
    SliceStaysClean(front, 0, |r|);
    assert r != [] ==> r[0] == front[0] && !IsDash(front[0]) && !IsDash(r[|r| - 1]);
  }

  /** The five stages of generateSlug, composed, produce a slug. */
  lemma StagesMakeSlug(text: string)
    ensures IsSlug(StripDashes(CollapseSeparators(DropDisallowed(Trim(Lower(text))))))
  {
    var lowered := Lower(text);
    assert NoUpper(lowered);
    TrimKeepsNoUpper(lowered);
    var kept := DropDisallowed(Trim(lowered));
    DropLeavesSlugSource(Trim(lowered));
    forall i | 0 <= i < |kept| && !IsSeparator(kept[i]) ensures IsSlugChar(kept[i]) {
      PlainKeptIsSlugChar(kept[i]);
    }
    CollapseGivesSlugChars(kept, IsSeparator);
    CollapseShape(kept, IsSeparator);
    StripGivesSlug(CollapseSeparators(kept));
  }

  /** A kept character that is neither a capital nor a separator is a slug character. */
  lemma PlainKeptIsSlugChar(c: char)
    requires IsKept(c) && !IsUpper(c) && !IsSeparator(c)
    ensures IsSlugChar(c)
  {
  }

  /** A separator run that starts a string is skipped entirely by TrimStartWhile. */
  lemma {:induction false} SkipRun(w: string, v: string, sep: char -> bool)
    requires forall i :: 0 <= i < |w| ==> sep(w[i])
    requires v == [] || !sep(v[0])
    ensures TrimStartWhile(w + v, sep) == v
  {
    if w != [] {
      assert (w + v)[1..] == w[1..] + v;
      SkipRun(w[1..], v, sep);
    } else {
      assert w + v == v;
    }
  }

  /** A character outside the separator class is copied by the collapse. */
  lemma CollapsePlainStep(x: char, t: string, sep: char -> bool)
    requires !sep(x)
    ensures CollapseRuns([x] + t, sep) == [x] + CollapseRuns(t, sep)
  {
    assert ([x] + t)[1..] == t;
  }

  /** Collapsing leaves a separator-free prefix in place. */
  lemma {:induction false} CollapsePlainPrefix(u: string, t: string, sep: char -> bool)
    requires forall i :: 0 <= i < |u| ==> !sep(u[i])
    ensures CollapseRuns(u + t, sep) == u + CollapseRuns(t, sep)
  {
    if u == [] {
      assert u + t == t;
    } else {
      var x, rest := u[0], u[1..];
      assert u == [x] + rest;
      ConsConcat(x, rest, t);
      ConsConcat(x, rest, CollapseRuns(t, sep));
      CollapsePlainStep(x, rest + t, sep);
      CollapsePlainPrefix(rest, t, sep);
    }
  }


  /** A string whose only separators are single dashes passes the collapse unchanged. */
  lemma {:induction false} CollapseKeepsSingleDashes(s: string, sep: char -> bool)
    requires forall i :: 0 <= i < |s| ==> s[i] == '-' || !sep(s[i])
    requires forall i :: 0 <= i < |s| - 1 ==> !(s[i] == '-' && s[i + 1] == '-')
    ensures CollapseRuns(s, sep) == s
  {
    if s != [] {
      var x, t := s[0], s[1..];
      assert s == [x] + t;
      if sep(x) {
        assert t == [] || !sep(t[0]);
        CollapseLeadingRun([x], t, sep);
      } else {
        CollapsePlainStep(x, t, sep);
      }
      CollapseKeepsSingleDashes(t, sep);
    }
  }

  /** A string with no white space at either end is its own trim. */
  lemma TrimOfUnpadded(s: string)
    requires s == [] || (!IsSpace(s[0]) && !IsSpace(s[|s| - 1]))
    ensures Trim(s) == s
  {
  }

  /** A string with no dash at either end passes StripDashes unchanged. */
  lemma StripOfUndashed(s: string)
    requires s == [] || (s[0] != '-' && s[|s| - 1] != '-')
    ensures StripDashes(s) == s
  {
    assert TrimStartWhile(s, IsDash) == s;
    assert TrimEndWhile(s, IsDash) == s;
  }

  /** Every slug is a fixed point of GenerateSlug. */
  lemma SlugIsFixedPoint(s: string)
    requires IsSlug(s)
    ensures GenerateSlug(s) == s
  {
    LowerOfLower(s);
    TrimOfUnpadded(s);
    assert forall i :: 0 <= i < |s| ==> IsKept(s[i]);
    FilterAllPass(s, IsKept);
    assert DropDisallowed(s) == s;
    forall i | 0 <= i < |s| ensures s[i] == '-' || !IsSeparator(s[i]) {
      SlugCharIsNoSeparator(s[i]);
    }
    CollapseKeepsSingleDashes(s, IsSeparator);
    StripOfUndashed(s);
  }

  /** A slug character other than the dash is no separator. */
  lemma SlugCharIsNoSeparator(c: char)
    requires IsSlugChar(c)
    ensures c == '-' || !IsSeparator(c)
  {
  }

  /** generateSlug is idempotent. */
  lemma GenerateSlugIdempotent(text: string)
    ensures GenerateSlug(GenerateSlug(text)) == GenerateSlug(text)
  {
    SlugIsFixedPoint(GenerateSlug(text));
  }

  /** A lower-case letter or digit is kept, is no separator and no capital. */
  lemma AlnumIsPlain(c: char)
    requires IsLowerLetter(c) || IsDigit(c)
    ensures IsKept(c) && !IsSpace(c) && !IsSeparator(c) && !IsUpper(c) && c != '-'
  {
  }

  /** A separator is kept and is no capital. */
  lemma SeparatorIsKept(c: char)
    requires IsSeparator(c)
    ensures IsKept(c) && !IsUpper(c)
  {
  }

  /** Between two alphanumeric words, any run of white space, underscores and
      dashes becomes exactly one dash. */
  lemma SeparatorRunBecomesOneDash(u: string, w: string, v: string)
    requires u != [] && v != [] && w != []
    requires forall i :: 0 <= i < |u| ==> IsLowerLetter(u[i]) || IsDigit(u[i])
    requires forall i :: 0 <= i < |v| ==> IsLowerLetter(v[i]) || IsDigit(v[i])
    requires forall i :: 0 <= i < |w| ==> IsSeparator(w[i])
    ensures GenerateSlug(u + w + v) == u + "-" + v
  {
    RunSurvivesCleaning(u, w, v);
    RunCollapsesToOneDash(u, w, v);
  }

  /** The first three stages leave a run between alphanumeric words untouched. */
  lemma RunSurvivesCleaning(u: string, w: string, v: string)
    requires u != [] && v != []
    requires forall i :: 0 <= i < |u| ==> IsLowerLetter(u[i]) || IsDigit(u[i])
    requires forall i :: 0 <= i < |v| ==> IsLowerLetter(v[i]) || IsDigit(v[i])
    requires forall i :: 0 <= i < |w| ==> IsSeparator(w[i])
    ensures DropDisallowed(Trim(Lower(u + w + v))) == u + w + v
  {
    var s := u + w + v;
    WordsAroundRunAreKept(u, w, v);
    LowerOfLower(s);
    TrimOfUnpadded(s);
    FilterAllPass(s, IsKept);
  }

  /** The last two stages turn the run between alphanumeric words into one dash. */
  lemma RunCollapsesToOneDash(u: string, w: string, v: string)
    requires u != [] && v != [] && w != []
    requires forall i :: 0 <= i < |u| ==> IsLowerLetter(u[i]) || IsDigit(u[i])
    requires forall i :: 0 <= i < |v| ==> IsLowerLetter(v[i]) || IsDigit(v[i])
    requires forall i :: 0 <= i < |w| ==> IsSeparator(w[i])
    ensures StripDashes(CollapseSeparators(u + w + v)) == u + "-" + v
  {
    var r := u + "-" + v;
    assert u + w + v == u + (w + v) && r == u + ("-" + v);
    assert r[0] == u[0] && r[|r| - 1] == v[|v| - 1];
    AlnumAreNoSeparators(u);
    AlnumAreNoSeparators(v);
    SeparatorRunBecomesOneDashCollapse(u, w, v, IsSeparator);
    AlnumIsPlain(u[0]);
    AlnumIsPlain(v[|v| - 1]);
    StripOfUndashed(r);
  }

  /** The character facts SeparatorRunBecomesOneDash needs about its input. */
  lemma WordsAroundRunAreKept(u: string, w: string, v: string)
    requires u != [] && v != []
    requires forall i :: 0 <= i < |u| ==> IsLowerLetter(u[i]) || IsDigit(u[i])
    requires forall i :: 0 <= i < |v| ==> IsLowerLetter(v[i]) || IsDigit(v[i])
    requires forall i :: 0 <= i < |w| ==> IsSeparator(w[i])
    ensures var s := u + w + v;
      && (forall i :: 0 <= i < |s| ==> IsKept(s[i]) && !IsUpper(s[i]))
      && NoUpper(s)
      && !IsSpace(s[0]) && !IsSpace(s[|s| - 1])
  {
    var s := u + w + v;
    forall i | 0 <= i < |s| ensures IsKept(s[i]) && !IsUpper(s[i]) {
      if i < |u| {
        assert s[i] == u[i];
        AlnumIsPlain(u[i]);
      } else if i < |u| + |w| {
        assert s[i] == w[i - |u|];
        SeparatorIsKept(w[i - |u|]);
      } else {
        assert s[i] == v[i - |u| - |w|];
        AlnumIsPlain(v[i - |u| - |w|]);
      }
    }
    assert NoUpper(s);
    assert s[0] == u[0] && s[|s| - 1] == v[|v| - 1];
    AlnumIsPlain(u[0]);
    AlnumIsPlain(v[|v| - 1]);
  }

  /** Letters and digits are no separators. */
  lemma AlnumAreNoSeparators(s: string)
    requires forall i :: 0 <= i < |s| ==> IsLowerLetter(s[i]) || IsDigit(s[i])
    ensures forall i :: 0 <= i < |s| ==> !IsSeparator(s[i])
  {
    forall i | 0 <= i < |s| ensures !IsSeparator(s[i]) { AlnumIsPlain(s[i]); }
  }

  /** Between separator-free pieces, a non-empty separator run becomes one dash. */
  lemma SeparatorRunBecomesOneDashCollapse(u: string, w: string, v: string, sep: char -> bool)
    requires w != []
    requires forall i :: 0 <= i < |u| ==> !sep(u[i])
    requires forall i :: 0 <= i < |v| ==> !sep(v[i])
    requires forall i :: 0 <= i < |w| ==> sep(w[i])
    ensures CollapseRuns(u + (w + v), sep) == u + ("-" + v)
  {
    CollapsePlainPrefix(u, w + v, sep);
    CollapseLeadingRun(w, v, sep);
    CollapseOfPlain(v, sep);
  }

  /** A string without separators passes the collapse unchanged. */
  lemma CollapseOfPlain(v: string, sep: char -> bool)
    requires forall i :: 0 <= i < |v| ==> !sep(v[i])
    ensures CollapseRuns(v, sep) == v
  {
    CollapsePlainPrefix(v, [], sep);
    assert v + [] == v;
  }

  /** A leading run of separators turns into one dash. */
  lemma CollapseLeadingRun(w: string, v: string, sep: char -> bool)
    requires w != []
    requires forall i :: 0 <= i < |w| ==> sep(w[i])
    requires v == [] || !sep(v[0])
    ensures CollapseRuns(w + v, sep) == "-" + CollapseRuns(v, sep)
  {
    SkipRun(w, v, sep);
    assert (w + v)[0] == w[0];
  }

  /** The example from the catalogue's categories: "Carpets & Rugs" becomes
      "carpets-rugs" (the ampersand is dropped, the two spaces become one dash). */
  lemma SlugOfCarpetsAndRugs()
    ensures GenerateSlug("Carpets & Rugs") == "carpets-rugs"
  {
    CarpetsLowered();
    CarpetsTrimmed();
    CarpetsKept();
    CarpetsCollapsed();
    StripOfUndashed("carpets-rugs");
  }

  lemma CarpetsLowered()
    ensures Lower("Carpets & Rugs") == "carpets & rugs"
  {
  }

  lemma CarpetsTrimmed()
    ensures Trim("carpets & rugs") == "carpets & rugs"
  {
    TrimOfUnpadded("carpets & rugs");
  }

  lemma CarpetsKept()
    ensures DropDisallowed("carpets & rugs") == "carpets  rugs"
  {
    LettersAndSpacesAreKept("carpets ");
    LettersAndSpacesAreKept(" rugs");
    assert !IsKept('&');
    DropOneDisallowed("carpets ", '&', " rugs");
    assert "carpets " + ['&'] + " rugs" == "carpets & rugs";
    assert "carpets " + " rugs" == "carpets  rugs";
  }

  /** Lower-case letters and blanks all belong to `[\w\s-]`. */
  lemma LettersAndSpacesAreKept(s: string)
    requires forall i :: 0 <= i < |s| ==> IsLowerLetter(s[i]) || s[i] == ' '
    ensures forall i :: 0 <= i < |s| ==> IsKept(s[i])
  {
    forall i | 0 <= i < |s| ensures IsKept(s[i]) {
      if s[i] != ' ' { AlnumIsPlain(s[i]); }
    }
  }

  /** Dropping removes exactly the one disallowed character between kept ones. */
  lemma DropOneDisallowed(a: string, c: char, b: string)
    requires forall i :: 0 <= i < |a| ==> IsKept(a[i])
    requires forall i :: 0 <= i < |b| ==> IsKept(b[i])
    requires !IsKept(c)
    ensures DropDisallowed(a + [c] + b) == a + b
  {
    FilterConcat(a + [c], b, IsKept);
    FilterConcat(a, [c], IsKept);
    FilterAllPass(a, IsKept);
    FilterAllPass(b, IsKept);
    assert Filter([c], IsKept) == [];
  }

  lemma CarpetsCollapsed()
    ensures CollapseSeparators("carpets  rugs") == "carpets-rugs"
  {
    CarpetsPieces();
    SeparatorRunBecomesOneDashCollapse("carpets", "  ", "rugs", IsSeparator);
    assert "carpets" + ("  " + "rugs") == "carpets  rugs";
    assert "carpets" + ("-" + "rugs") == "carpets-rugs";
  }

  lemma CarpetsPieces()
    ensures forall i :: 0 <= i < |"carpets"| ==> !IsSeparator("carpets"[i])
    ensures forall i :: 0 <= i < |"rugs"| ==> !IsSeparator("rugs"[i])
    ensures forall i :: 0 <= i < |"  "| ==> IsSeparator("  "[i])
  {
    AlnumAreNoSeparators("carpets");
    AlnumAreNoSeparators("rugs");
  }

  // ---------------------------------------------------------------------------
  // truncateText
  // ---------------------------------------------------------------------------

  /** An index clamped into [0, n], as `substring` clamps its arguments. */
  function Clamp(i: int, n: nat): (c: nat)
    ensures c <= n
    ensures 0 <= i <= n ==> c == i
  {
    if i < 0 then 0 else if i > n then n else i
  }

  /** `s.substring(start, end)`: both indices clamped to the string, and swapped
      when the first exceeds the second. */
  function Substring(s: string, start: int, end: int): string
  {
    var a, b := Clamp(start, |s|), Clamp(end, |s|);
    if a <= b then s[a..b] else s[b..a]
  }

  /** `truncateText(text, length)`: the text itself when it fits, otherwise its
      first `length` characters (none when `length` is negative) and "...". */
  function TruncateText(text: string, length: int): (r: string)
    ensures |text| <= length ==> r == text
    ensures |text| > length ==>
      var n := if length < 0 then 0 else length;
      |r| == n + 3 && r[..n] == text[..n] && r[n..] == "..."
  {
    if |text| <= length then text else Substring(text, 0, length) + "..."
  }

  /** Truncating an already-truncated text changes nothing. */
  lemma TruncateIdempotent(text: string, length: int)
    ensures TruncateText(TruncateText(text, length), length) == TruncateText(text, length)
  {
    var r := TruncateText(text, length);
    if |text| > length {
      var n := if length < 0 then 0 else length;
      assert r == r[..n] + r[n..];
    }
  }

  // ---------------------------------------------------------------------------
  // calculateTax and calculateShipping
  // ---------------------------------------------------------------------------

  /** The tax rate used when none is given. */
  const DefaultTaxRate: real := 0.1

  /** `calculateTax(subtotal, taxRate = 0.1)`. */
  function CalculateTax(subtotal: real, taxRate: real := DefaultTaxRate): (tax: real)
    ensures subtotal >= 0.0 && taxRate >= 0.0 ==> tax >= 0.0
  {
    subtotal * taxRate
  }

  /** With the default rate, the tax is a tenth of the subtotal. */
  lemma DefaultTaxIsOneTenth(subtotal: real)
    ensures CalculateTax(subtotal) * 10.0 == subtotal
  {
  }

  /** Tax on a sum is the sum of the taxes. */
  lemma TaxIsAdditive(a: real, b: real, rate: real)
    ensures CalculateTax(a + b, rate) == CalculateTax(a, rate) + CalculateTax(b, rate)
  {
  }

  const BaseShipping: real := 10.0
  const WeightMultiplier: real := 0.5

  /** `calculateShipping(weight = 0, country = 'US')`: ten plus half the weight,
      doubled for any country but the US. */
  function CalculateShipping(weight: real := 0.0, country: string := "US"): (cost: real)
    ensures country == "US" ==> cost == 10.0 + weight / 2.0
    ensures country != "US" ==> cost == 20.0 + weight
    ensures weight >= 0.0 ==> cost >= BaseShipping
  {
    var internationalMultiplier := if country == "US" then 1.0 else 2.0;
    (BaseShipping + weight * WeightMultiplier) * internationalMultiplier
  }

  /** The defaults give the base charge. */
  lemma ShippingDefaults()
    ensures CalculateShipping() == 10.0
  {
  }

  /** Outside the US the charge is exactly twice the domestic one. */
  lemma InternationalShippingDoubles(weight: real, country: string)
    requires country != "US"
    ensures CalculateShipping(weight, country) == 2.0 * CalculateShipping(weight, "US")
  {
  }

  /** Heavier parcels never cost less. */
  lemma ShippingMonotone(w1: real, w2: real, country: string)
    requires w1 <= w2
    ensures CalculateShipping(w1, country) <= CalculateShipping(w2, country)
  {
  }
}
