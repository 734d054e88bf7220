/**
 * The Python string operations the parser relies on, restricted to ASCII:
 * `lower`, `upper`, `title`, `strip`, `startswith`, `in`, `split`, `join`,
 * `replace` and slicing past the end.
 */
module PyStrings {
  import opened Wrappers

  predicate IsUpper(c: char) { 'A' <= c <= 'Z' }
  predicate IsLower(c: char) { 'a' <= c <= 'z' }
  /** In ASCII the cased characters are exactly the letters. */
  predicate IsLetter(c: char) { IsUpper(c) || IsLower(c) }

  /** Python's whitespace among the ASCII characters (`str.isspace`). */
  predicate IsSpace(c: char) {
    c == ' ' || 9 <= c as int <= 13 || 28 <= c as int <= 31
  }

  function LowerChar(c: char): (r: char)
    ensures !IsUpper(r) && (IsLetter(c) <==> IsLetter(r))
  {
    if IsUpper(c) then (c as int + 32) as char else c
  }

  function UpperChar(c: char): (r: char)
    ensures !IsLower(r) && (IsLetter(c) <==> IsLetter(r))
  {
    if IsLower(c) then (c as int - 32) as char else c
  }

  function Lower(s: string): string
  {
    seq(|s|, i requires 0 <= i < |s| => LowerChar(s[i]))
  }

  function Upper(s: string): string
  {
    seq(|s|, i requires 0 <= i < |s| => UpperChar(s[i]))
  }

  /**
   * `str.title()` as CPython scans it: a cased character is upper-cased when
   * the character before it is not cased and lower-cased otherwise; every
   * other character is kept and resets the flag.
   */
  function TitleFrom(s: string, prevCased: bool): string
  {
    if s == [] then []
    else if IsLetter(s[0]) then
      [if prevCased then LowerChar(s[0]) else UpperChar(s[0])] + TitleFrom(s[1..], true)
    else [s[0]] + TitleFrom(s[1..], false)
  }

  function Title(s: string): string { TitleFrom(s, false) }

  lemma {:induction false} TitleFromAt(s: string, prevCased: bool, i: nat)
    requires i < |s|
    ensures |TitleFrom(s, prevCased)| == |s|
    ensures TitleFrom(s, prevCased)[i] ==
      if !IsLetter(s[i]) then s[i]
      else if (if i == 0 then prevCased else IsLetter(s[i - 1])) then LowerChar(s[i])
      else UpperChar(s[i])
  {
    if i == 0 {
      TitleFromLength(s[1..], IsLetter(s[0]));
    } else {
      TitleFromAt(s[1..], IsLetter(s[0]), i - 1);
    }
  }

  lemma {:induction false} TitleFromLength(s: string, prevCased: bool)
    ensures |TitleFrom(s, prevCased)| == |s|
  {
    if s != [] {
      TitleFromLength(s[1..], IsLetter(s[0]));
    }
  }

  /**
   * The characterisation of `title()`: same length, every letter is upper-cased
   * exactly when the character before it is not a letter, everything else kept.
   */
  lemma TitleAt(s: string, i: nat)
    requires i < |s|
    ensures |Title(s)| == |s|
    ensures Title(s)[i] ==
      if !IsLetter(s[i]) then s[i]
      else if i > 0 && IsLetter(s[i - 1]) then LowerChar(s[i])
      else UpperChar(s[i])
  {
    TitleFromAt(s, false, i);
  }

  /** Casing a title-cased string ignores how it was title-cased. */
  lemma LowerTitle(s: string)
    ensures Lower(Title(s)) == Lower(s)
    ensures Upper(Title(s)) == Upper(s)
  {
    TitleFromLength(s, false);
    forall i | 0 <= i < |s|
      ensures Lower(Title(s))[i] == Lower(s)[i] && Upper(Title(s))[i] == Upper(s)[i]
    {
      TitleAt(s, i);
    }
  }

  /** Title-casing and upper-casing ignore how the input was cased, so lower-casing first changes nothing. */
  lemma CaseAfterLower(s: string)
    ensures Title(Lower(s)) == Title(s)
    ensures Upper(Lower(s)) == Upper(s)
  {
    TitleFromLength(s, false);
    TitleFromLength(Lower(s), false);
    forall i | 0 <= i < |s|
      ensures Title(Lower(s))[i] == Title(s)[i] && Upper(Lower(s))[i] == Upper(s)[i]
    {
      TitleAt(s, i);
      TitleAt(Lower(s), i);
    }
  }

  function TrimStart(s: string): string
  {
    if s != [] && IsSpace(s[0]) then TrimStart(s[1..]) else s
  }

  function TrimEnd(s: string): string
  {
    if s != [] && IsSpace(s[|s| - 1]) then TrimEnd(s[..|s| - 1]) else s
  }

  /** `str.strip()`: whitespace removed from both ends. */
  function Strip(s: string): string
  {
    TrimEnd(TrimStart(s))
  }

  lemma {:induction false} TrimStartSpec(s: string)
    ensures var r := TrimStart(s); |r| <= |s| && r == s[|s| - |r|..]
    ensures var r := TrimStart(s); r != [] ==> !IsSpace(r[0])
    ensures var r := TrimStart(s); forall i :: 0 <= i < |s| - |r| ==> IsSpace(s[i])
  {
    if s != [] && IsSpace(s[0]) {
      var t := s[1..];
      TrimStartSpec(t);
      var r := TrimStart(t);
      assert TrimStart(s) == r;
      assert t[|t| - |r|..] == s[|s| - |r|..];
      forall i | 0 <= i < |s| - |r| ensures IsSpace(s[i]) {
        if i > 0 { assert s[i] == t[i - 1]; }
      }
    }
  }

  lemma {:induction false} TrimEndSpec(s: string)
    ensures var r := TrimEnd(s); |r| <= |s| && r == s[..|r|]
    ensures var r := TrimEnd(s); r != [] ==> !IsSpace(r[|r| - 1])
    ensures var r := TrimEnd(s); forall i :: |r| <= i < |s| ==> IsSpace(s[i])
  {
    if s != [] && IsSpace(s[|s| - 1]) {
      var t := s[..|s| - 1];
      TrimEndSpec(t);
      var r := TrimEnd(t);
      assert TrimEnd(s) == r;
      assert t[..|r|] == s[..|r|];
      forall i | |r| <= i < |s| ensures IsSpace(s[i]) {
        if i < |s| - 1 { assert s[i] == t[i]; }
      }
    }
  }

  /** `strip()` leaves a piece of the string that neither starts nor ends with whitespace, and only whitespace was removed. */
  lemma StripSpec(s: string)
    ensures var r := Strip(s);
      exists a, b ::
        && 0 <= a <= b <= |s| && r == s[a..b]
        && (forall i :: 0 <= i < a ==> IsSpace(s[i]))
        && (forall i :: b <= i < |s| ==> IsSpace(s[i]))
    ensures var r := Strip(s); r != [] ==> !IsSpace(r[0]) && !IsSpace(r[|r| - 1])
  {
    var t := TrimStart(s);
    TrimStartSpec(s);
    TrimEndSpec(t);
    var a := |s| - |t|;
    var b := a + |TrimEnd(t)|;
    assert Strip(s) == s[a..b];
    forall i | b <= i < |s| ensures IsSpace(s[i]) {
      assert s[i] == t[i - a];
    }
  }

  /** `s[n:]` for `n >= 0`: empty once `n` passes the end. */
  function Drop(s: string, n: nat): (r: string)
    ensures |r| == if n <= |s| then |s| - n else 0
  {
    if n <= |s| then s[n..] else []
  }

  predicate StartsWith(s: string, p: string) {
    |p| <= |s| && s[..|p|] == p
  }

  predicate OccursAt(s: string, p: string, j: nat) {
    j + |p| <= |s| && s[j..j + |p|] == p
  }

  /** `s.find(p)`: the first position at which `p` occurs, if any. */
  function Find(s: string, p: string): (r: Option<nat>)
    ensures r.Some? ==> OccursAt(s, p, r.value)
  {
    if |s| < |p| then None
    else if StartsWith(s, p) then Some(0)
    else
      match Find(s[1..], p)
      case None => None
      case Some(i) => Some(i + 1)
  }

  /** `find` returns the first occurrence, and nothing exactly when there is none. */
  lemma {:induction false} FindSpec(s: string, p: string)
    ensures Find(s, p).Some? ==> forall j :: 0 <= j < Find(s, p).value ==> !OccursAt(s, p, j)
    ensures Find(s, p).None? ==> forall j :: 0 <= j ==> !OccursAt(s, p, j)
  {
    if |s| >= |p| && !StartsWith(s, p) {
      FindSpec(s[1..], p);
      assert forall j :: 1 <= j ==> OccursAt(s, p, j) == OccursAt(s[1..], p, j - 1);
    }
  }

  lemma {:induction false} FindNone(s: string, p: string)
    requires |p| > 0 && forall j :: 0 <= j ==> !OccursAt(s, p, j)
    ensures Find(s, p).None?
    decreases |s|
  {
    if |s| >= |p| {
      assert !OccursAt(s, p, 0);
      forall j | 0 <= j ensures !OccursAt(s[1..], p, j) {
        assert !OccursAt(s, p, j + 1);
      }
      FindNone(s[1..], p);
    }
  }

  /** Python's `p in s` for strings. */
  predicate Contains(s: string, p: string) { Find(s, p).Some? }

  /** `s.split(sep)` for a non-empty separator: the pieces between the non-overlapping occurrences, left to right. */
  function Split(s: string, sep: string): (r: seq<string>)
    requires |sep| > 0
    ensures |r| >= 1
    decreases |s|
  {
    match Find(s, sep)
    case None => [s]
    case Some(i) => [s[..i]] + Split(s[i + |sep|..], sep)
  }

  /** `sep.join(parts)`. */
  function Join(sep: string, parts: seq<string>): string
  {
    if |parts| == 0 then []
    else if |parts| == 1 then parts[0]
    else parts[0] + sep + Join(sep, parts[1..])
  }

  function Last<T>(s: seq<T>): T requires |s| > 0 { s[|s| - 1] }
  function AllButLast<T>(s: seq<T>): seq<T> requires |s| > 0 { s[..|s| - 1] }

  /**
   * `s.replace(pat, rep)` as CPython scans: at each position an occurrence of
   * `pat` is replaced and skipped over, otherwise one character is copied.
   */
  function Replace(s: string, pat: string, rep: string): string
    requires |pat| > 0
    decreases |s|
  {
    if s == [] then []
    else if StartsWith(s, pat) then rep + Replace(s[|pat|..], pat, rep)
    else [s[0]] + Replace(s[1..], pat, rep)
  }

  lemma JoinCons(sep: string, a: string, rest: seq<string>)
    requires |rest| > 0
    ensures Join(sep, [a] + rest) == a + sep + Join(sep, rest)
  {
    assert ([a] + rest)[1..] == rest;
  }

  lemma FindShift(s: string, p: string)
    requires s != [] && !StartsWith(s, p)
    ensures Find(s, p) == match Find(s[1..], p) case None => None case Some(i) => Some(i + 1)
  {
    if |s| < |p| {
      assert |s[1..]| < |p|;
    }
  }

  /** Splitting a string that does not start with the separator: its first character joins the first piece. */
  lemma SplitShift(s: string, sep: string)
    requires |sep| > 0 && s != [] && !StartsWith(s, sep)
    ensures Split(s, sep) == [[s[0]] + Split(s[1..], sep)[0]] + Split(s[1..], sep)[1..]
  {
    var t := s[1..];
    FindShift(s, sep);
    match Find(t, sep)
    case None =>
      assert [s[0]] + t == s;
    case Some(i) =>
      assert t[i + |sep|..] == s[i + 1 + |sep|..];
      assert [s[0]] + t[..i] == s[..i + 1];
  }

  lemma JoinShift(sep: string, c: char, parts: seq<string>)
    requires |parts| > 0
    ensures Join(sep, [[c] + parts[0]] + parts[1..]) == [c] + Join(sep, parts)
  {
    if |parts| > 1 {
      JoinCons(sep, [c] + parts[0], parts[1..]);
      JoinCons(sep, parts[0], parts[1..]);
      assert [parts[0]] + parts[1..] == parts;
    }
  }

  lemma SplitAtStart(s: string, sep: string)
    requires |sep| > 0 && StartsWith(s, sep)
    ensures Split(s, sep) == [[]] + Split(s[|sep|..], sep)
  {
    assert Find(s, sep) == Some(0);
  }

  /** The scan-and-replace agrees with `rep.join(s.split(pat))`: every non-overlapping occurrence, leftmost first. */
  lemma {:induction false} ReplaceIsJoinSplit(s: string, pat: string, rep: string)
    requires |pat| > 0
    ensures Replace(s, pat, rep) == Join(rep, Split(s, pat))
    decreases |s|
  {
    if s == [] {
      assert Find(s, pat) == None;
    } else if StartsWith(s, pat) {
      ReplaceIsJoinSplit(s[|pat|..], pat, rep);
      SplitAtStart(s, pat);
      JoinCons(rep, [], Split(s[|pat|..], pat));
    } else {
      ReplaceIsJoinSplit(s[1..], pat, rep);
      SplitShift(s, pat);
      JoinShift(rep, s[0], Split(s[1..], pat));
    }
  }

  /** A string with no occurrence of the pattern comes back unchanged. */
  lemma ReplaceAbsent(s: string, pat: string, rep: string)
    requires |pat| > 0 && !Contains(s, pat)
    ensures Replace(s, pat, rep) == s
  {
    ReplaceIsJoinSplit(s, pat, rep);
  }
}
