/**
 * The free-text segmenter of `parse_html`: a three-phase line classifier that
 * recovers the overview, developer, platform, censorship and language of a
 * thread from the lines of its first post, followed by the fallback that
 * replaces a missing or short overview.
 */
module Segmenter {
  import opened Wrappers
  import opened PyStrings

  /** The overview labels in priority order: the first one that prefixes the line wins. */
  const LineKeys: seq<string> := [
    "overview:", "overiew:", "- overview -", "-about-", "overview :", "* game overview", "<plot>",
    "=about=", "about the game:", "about this game collection:", "about this game:", "about the site:",
    "about:", "dev's intro:", "description:", "review:", "welcome:", "from the dev team:", "game info:",
    "game guide:", "story overview: ", "synopsis:", "=speechoice", "synopsis", "description",
    "story gameplay", "the story:", "about this game", "about the game", "basic plot", "plot:", "plot",
    "about", "overview", "story:", "story -", "story"]

  /** Scanning (0 in the source), expecting the overview on the next line (1), overview just captured (2). */
  datatype Phase = Scanning | ExpectContinuation | Captured

  /** The five fields the segmenter fills; each starts as `None`. */
  datatype Fields = Fields(
    overview: Option<string>,
    developer: Option<string>,
    platform: Option<string>,
    censorship: Option<string>,
    language: Option<string>)

  datatype Seg = Seg(phase: Phase, fields: Fields)

  datatype ParseError =
    | OverviewNotText   // `" ".join([None, ...])` raises a TypeError
    | FallbackRanOff    // the fallback walk passes the last node of the document

  const Start := Seg(Scanning, Fields(None, None, None, None, None))

  /** The first label, from index `k` on, that prefixes `low`. */
  function FirstKeyFrom(low: string, k: nat): (r: Option<nat>)
    requires k <= |LineKeys|
    ensures r.Some? ==> k <= r.value < |LineKeys| && StartsWith(low, LineKeys[r.value])
    ensures r.Some? ==> forall i :: k <= i < r.value ==> !StartsWith(low, LineKeys[i])
    ensures r.None? ==> forall i :: k <= i < |LineKeys| ==> !StartsWith(low, LineKeys[i])
    decreases |LineKeys| - k
  {
    if k == |LineKeys| then None
    else if StartsWith(low, LineKeys[k]) then Some(k)
    else FirstKeyFrom(low, k + 1)
  }

  function FirstKey(low: string): Option<nat> { FirstKeyFrom(low, 0) }

  /** The line as it is matched: lower-cased, then stripped. */
  function Folded(chunk: string): string { Strip(Lower(chunk)) }

  /** How `str.format` renders an optional string. */
  function Show(o: Option<string>): string { if o.Some? then o.value else "None" }

  /**
   * The direct labels, tried only in the scanning phase on a line that matched
   * no overview label.
   */
  function Labelled(f: Fields, chunk: string, low: string): Fields
  {
    if StartsWith(low, "developer:") then f.(developer := Some(Strip(Drop(chunk, 11))))
    else if StartsWith(low, "platform:") then f.(platform := Some(Strip(Drop(chunk, 10))))
    else if StartsWith(low, "censorship:") then f.(censorship := Some(Strip(Drop(chunk, 12))))
    else if StartsWith(low, "language:") then f.(language := Some(Strip(Drop(chunk, 10))))
    else f
  }

  /**
   * An inline developer marker: the folded line is split on `sep`, the last
   * piece becomes the developer and the other pieces, rejoined with
   * "developer: ", are appended to the overview, which must already be text.
   */
  function SplitDeveloper(f: Fields, low: string, sep: string): Result<Fields, ParseError>
    requires |sep| > 0
  {
    var parts := Split(low, sep);
    match f.overview
    case None => Err(OverviewNotText)
    case Some(o) =>
      Ok(f.(developer := Some(Last(parts)), overview := Some(o + " " + Join("developer: ", AllButLast(parts)))))
  }

  function Then(r: Result<Fields, ParseError>, phase: Phase): Result<Seg, ParseError>
  {
    match r
    case Ok(f) => Ok(Seg(phase, f))
    case Err(e) => Err(e)
  }

  /** A line in the scanning phase: an overview label, else a direct label. */
  function ScanLine(f: Fields, chunk: string, low: string): Result<Seg, ParseError>
  {
    match FirstKey(low)
    case Some(j) =>
      var lklen := |LineKeys[j]| + 1;
      if |low| > lklen + 1 then
        var rest := Strip(Drop(chunk, lklen));
        var o := if f.overview.Some? && |f.overview.value| > 3 then f.overview.value + " " + rest else rest;
        Ok(Seg(Captured, f.(overview := Some(o))))
      else Ok(Seg(ExpectContinuation, f))
    case None => Ok(Seg(Scanning, Labelled(f, chunk, low)))
  }

  /** The line after a bare overview label. */
  function ContinueLine(f: Fields, chunk: string, low: string): Result<Seg, ParseError>
  {
    if Contains(low, "developer:") then
      if StartsWith(low, "developer:") then Ok(Seg(Scanning, f.(developer := Some(Strip(Drop(chunk, 11))))))
      else Then(SplitDeveloper(f, low, "developer:"), Scanning)
    else Ok(Seg(Captured, f.(overview := Some(Strip(chunk)))))
  }

  /** The one line looked at after the overview was captured. */
  function CapturedLine(f: Fields, chunk: string, low: string): Result<Seg, ParseError>
  {
    if |chunk| > 5 then
      if Contains(low, "developer:") then
        if StartsWith(low, "developer:") then Ok(Seg(Scanning, f.(developer := Some(Strip(Drop(chunk, 11))))))
        else Then(SplitDeveloper(f, low, "developer: "), Scanning)
      else Ok(Seg(Scanning, f.(overview := Some(Show(f.overview) + " " + Strip(chunk)))))
    else Ok(Seg(Scanning, f))
  }

  /** One line of the segmenter. */
  function Step(s: Seg, chunk: string): Result<Seg, ParseError>
  {
    var low := Folded(chunk);
    match s.phase
    case Scanning => ScanLine(s.fields, chunk, low)
    case ExpectContinuation => ContinueLine(s.fields, chunk, low)
    case Captured => CapturedLine(s.fields, chunk, low)
  }

  /** The segmenter over a whole sequence of lines; the first error aborts it. */
  function Run(lines: seq<string>): Result<Seg, ParseError>
  {
    if lines == [] then Ok(Start)
    else
      match Run(lines[..|lines| - 1])
      case Err(e) => Err(e)
      case Ok(s) => Step(s, lines[|lines| - 1])
  }

  function Segmented(lines: seq<string>): Result<Fields, ParseError>
  {
    match Run(lines)
    case Ok(s) => Ok(s.fields)
    case Err(e) => Err(e)
  }

  lemma {:induction false} RunErrorSticks(lines: seq<string>, n: nat)
    requires n <= |lines| && Run(lines[..n]).Err?
    ensures Run(lines) == Run(lines[..n])
    decreases |lines|
  {
    if n < |lines| {
      var init := lines[..|lines| - 1];
      assert init[..n] == lines[..n];
      RunErrorSticks(init, n);
    } else {
      assert lines[..n] == lines;
    }
  }

  /** The inner loop over the labels, left at the first label that prefixes the folded line. */
  method MatchLineKey(chunklow: string) returns (hit: Option<nat>)
    ensures hit == FirstKey(chunklow)
  {
    var k := 0;
    while k < |LineKeys|
      invariant 0 <= k <= |LineKeys|
      invariant FirstKey(chunklow) == FirstKeyFrom(chunklow, k)
    {
      var linekey := LineKeys[k];
      if StartsWith(chunklow, linekey) {
        return Some(k);
      }
      k := k + 1;
    }
    return None;
  }

  /** The loop of `parse_html` over the lines of the post. */
  method Segment(textchunks: seq<string>) returns (r: Result<Fields, ParseError>)
    ensures r == Segmented(textchunks)
  {
    var phase := Scanning;
    var overview, developer, platform, censorship, language: Option<string> := None, None, None, None, None;
    for n := 0 to |textchunks|
      invariant Run(textchunks[..n]) == Ok(Seg(phase, Fields(overview, developer, platform, censorship, language)))
    {
      ghost var before := Seg(phase, Fields(overview, developer, platform, censorship, language));
      var chunk := textchunks[n];
      var chunklow := Strip(Lower(chunk));
      assert textchunks[..n + 1][..n] == textchunks[..n];
      assert Run(textchunks[..n + 1]) == Step(before, chunk);
      if phase == Scanning {
        var hit := MatchLineKey(chunklow);
        if hit.Some? {
          var lklen := |LineKeys[hit.value]| + 1;
          if |chunklow| > lklen + 1 {
            var rest := Strip(Drop(chunk, lklen));
            if overview.Some? && |overview.value| > 3 {
              overview := Some(overview.value + " " + rest);
            } else {
              overview := Some(rest);
            }
            phase := Captured;
          } else {
            phase := ExpectContinuation;
          }
          continue;
        }
      }
      if phase == ExpectContinuation {
        if Contains(chunklow, "developer:") {
          if StartsWith(chunklow, "developer:") {
            developer := Some(Strip(Drop(chunk, 11)));
            phase := Scanning;
          } else {
            var parts := Split(chunklow, "developer:");
            developer := Some(Last(parts));
            if overview.None? {
              r := Err(OverviewNotText);
              RunErrorSticks(textchunks, n + 1);
              return;
            }
            overview := Some(overview.value + " " + Join("developer: ", AllButLast(parts)));
            phase := Scanning;
          }
        } else {
          overview := Some(Strip(chunk));
          phase := Captured;
        }
      } else if phase == Captured {
        if |chunk| > 5 {
          if Contains(chunklow, "developer:") {
            if StartsWith(chunklow, "developer:") {
              developer := Some(Strip(Drop(chunk, 11)));
            } else {
              var parts := Split(chunklow, "developer: ");
              developer := Some(Last(parts));
              if overview.None? {
                r := Err(OverviewNotText);
                RunErrorSticks(textchunks, n + 1);
                return;
              }
              overview := Some(overview.value + " " + Join("developer: ", AllButLast(parts)));
            }
          } else {
            overview := Some(Show(overview) + " " + Strip(chunk));
          }
        }
        phase := Scanning;
      } else if StartsWith(chunklow, "developer:") {
        developer := Some(Strip(Drop(chunk, 11)));
      } else if StartsWith(chunklow, "platform:") {
        platform := Some(Strip(Drop(chunk, 10)));
      } else if StartsWith(chunklow, "censorship:") {
        censorship := Some(Strip(Drop(chunk, 12)));
      } else if StartsWith(chunklow, "language:") {
        language := Some(Strip(Drop(chunk, 10)));
      }
    }
    assert textchunks[..|textchunks|] == textchunks;
    r := Ok(Fields(overview, developer, platform, censorship, language));
  }

  /** The first lines of the post and the texts the fallback walk would meet, after the segmenter. */
  predicate NeedsFallback(o: Option<string>) {
    o.None? || o.value == "" || |o.value| < 10
  }

  /** The first non-empty text, if any. */
  function FirstNonEmpty(texts: seq<string>): (r: Option<string>)
    ensures r.Some? ==> r.value != [] && exists i :: 0 <= i < |texts| && texts[i] == r.value && forall j :: 0 <= j < i ==> texts[j] == []
    ensures r.None? ==> forall i :: 0 <= i < |texts| ==> texts[i] == []
  {
    if texts == [] then None
    else if texts[0] != [] then
      Some(texts[0])
    else
      var r := FirstNonEmpty(texts[1..]);
      assert r.Some? ==> exists i :: 1 <= i < |texts| && texts[i] == r.value && forall j :: 0 <= j < i ==> texts[j] == [] by {
        if r.Some? {
          var i :| 0 <= i < |texts[1..]| && texts[1..][i] == r.value && forall j :: 0 <= j < i ==> texts[1..][j] == [];
          assert texts[i + 1] == r.value;
          assert forall j :: 0 <= j < i + 1 ==> texts[j] == [] by {
            forall j | 0 <= j < i + 1 ensures texts[j] == [] {
              if j > 0 { assert texts[j] == texts[1..][j - 1]; }
            }
          }
        }
      }
      r
  }

  /**
   * The walk forward from the fallback marker, given as the texts of the
   * nodes it visits: the first non-empty one is taken; running past the last
   * node is the error the source raises there.
   */
  method FallbackWalk(texts: seq<string>) returns (r: Option<string>)
    ensures r == FirstNonEmpty(texts)
  {
    var i := 0;
    while true
      invariant 0 <= i <= |texts|
      invariant FirstNonEmpty(texts) == FirstNonEmpty(texts[i..])
      decreases |texts| - i
    {
      if i == |texts| {
        return None;
      }
      var bt := texts[i];
      if bt == [] {
        assert texts[i..][1..] == texts[i + 1..];
        i := i + 1;
      } else {
        return Some(bt);
      }
    }
  }

  /** The segmenter followed by the fallback for a missing or short overview. */
  function Body(lines: seq<string>, texts: seq<string>): Result<Fields, ParseError>
  {
    match Segmented(lines)
    case Err(e) => Err(e)
    case Ok(f) =>
      if !NeedsFallback(f.overview) then Ok(f)
      else
        match FirstNonEmpty(texts)
        case None => Err(FallbackRanOff)
        case Some(t) => Ok(f.(overview := Some(t)))
  }

  method ParseBody(lines: seq<string>, texts: seq<string>) returns (r: Result<Fields, ParseError>)
    ensures r == Body(lines, texts)
  {
    r := Segment(lines);
    if r.Ok? && NeedsFallback(r.value.overview) {
      var bt := FallbackWalk(texts);
      if bt.None? {
        r := Err(FallbackRanOff);
      } else {
        r := Ok(r.value.(overview := bt));
      }
    }
  }

  /** After the fallback the overview is always text: kept when it was long enough, else the first non-empty text. */
  lemma BodyOverview(lines: seq<string>, texts: seq<string>)
    requires Segmented(lines).Ok?
    ensures Body(lines, texts).Ok? ==> Body(lines, texts).value.overview.Some?
    ensures !NeedsFallback(Segmented(lines).value.overview) ==> Body(lines, texts) == Segmented(lines)
    ensures NeedsFallback(Segmented(lines).value.overview) ==>
      (Body(lines, texts).Err? <==> forall i :: 0 <= i < |texts| ==> texts[i] == [])
    ensures Body(lines, texts).Ok? ==>
      Body(lines, texts).value == Segmented(lines).value.(overview := Body(lines, texts).value.overview)
  {
  }

  // ----- properties of the line classifier -----

  /** In the captured phase the overview is always text. */
  predicate Consistent(s: Seg) {
    s.phase == Captured ==> s.fields.overview.Some?
  }

  lemma StepConsistent(s: Seg, chunk: string)
    requires Consistent(s) && Step(s, chunk).Ok?
    ensures Consistent(Step(s, chunk).value)
  {
    var low := Folded(chunk);
    match s.phase
    case Scanning =>
      if FirstKey(low).None? {
        assert Step(s, chunk).value.phase == Scanning;
      }
    case ExpectContinuation =>
    case Captured =>
      assert Step(s, chunk).value.phase == Scanning;
  }

  /** Every state the segmenter reaches is consistent, so lines 200 and 202 never see an overview that is `None`. */
  lemma {:induction false} RunConsistent(lines: seq<string>)
    requires Run(lines).Ok?
    ensures Consistent(Run(lines).value)
  {
    if lines != [] {
      RunConsistent(lines[..|lines| - 1]);
      StepConsistent(Run(lines[..|lines| - 1]).value, lines[|lines| - 1]);
    }
  }

  /** The only failure: an inline marker while expecting the overview, before any overview text exists. */
  lemma StepFailsExactly(s: Seg, chunk: string)
    requires Consistent(s)
    ensures Step(s, chunk).Err? <==>
      s.phase == ExpectContinuation && s.fields.overview.None? &&
      Contains(Folded(chunk), "developer:") && !StartsWith(Folded(chunk), "developer:")
  {
  }

  /** A matching label with a long enough remainder captures the raw remainder at the label's length plus one. */
  lemma LabelWithText(s: Seg, chunk: string, j: nat)
    requires s.phase == Scanning && FirstKey(Folded(chunk)) == Some(j)
    requires |Folded(chunk)| > |LineKeys[j]| + 2
    ensures Step(s, chunk).Ok? && Step(s, chunk).value.phase == Captured
    ensures var o := s.fields.overview; var rest := Strip(Drop(chunk, |LineKeys[j]| + 1));
      Step(s, chunk).value.fields ==
        s.fields.(overview := Some(if o.Some? && |o.value| > 3 then o.value + " " + rest else rest))
  {
  }

  /** A matching label with too short a remainder changes no field and waits for the next line. */
  lemma LabelAlone(s: Seg, chunk: string, j: nat)
    requires s.phase == Scanning && FirstKey(Folded(chunk)) == Some(j)
    requires |Folded(chunk)| <= |LineKeys[j]| + 2
    ensures Step(s, chunk) == Ok(Seg(ExpectContinuation, s.fields))
  {
  }

  /** The line after a bare label is consumed whatever its length, blank lines included. */
  lemma ContinuationConsumed(s: Seg, chunk: string)
    requires s.phase == ExpectContinuation && Step(s, chunk).Ok?
    ensures !Contains(Folded(chunk), "developer:") ==>
      Step(s, chunk).value == Seg(Captured, s.fields.(overview := Some(Strip(chunk))))
    ensures StartsWith(Folded(chunk), "developer:") ==>
      Step(s, chunk).value == Seg(Scanning, s.fields.(developer := Some(Strip(Drop(chunk, 11)))))
    ensures Contains(Folded(chunk), "developer:") ==>
      Step(s, chunk).value.phase == Scanning &&
      Step(s, chunk).value.fields.developer.Some? &&
      Step(s, chunk).value.fields.(developer := s.fields.developer, overview := s.fields.overview) == s.fields
  {
  }

  /**
   * After a capture one line is looked at, and only a line longer than five
   * characters changes a field: a developer label sets the developer, and a
   * line without the marker is appended to the overview as `str.format`
   * renders it.
   */
  lemma CapturedOneLine(s: Seg, chunk: string)
    requires s.phase == Captured && Step(s, chunk).Ok?
    ensures Step(s, chunk).value.phase == Scanning
    ensures |chunk| <= 5 ==> Step(s, chunk).value.fields == s.fields
    ensures |chunk| > 5 && StartsWith(Folded(chunk), "developer:") ==>
      Step(s, chunk).value.fields == s.fields.(developer := Some(Strip(Drop(chunk, 11))))
    ensures |chunk| > 5 && !Contains(Folded(chunk), "developer:") ==>
      Step(s, chunk).value.fields == s.fields.(overview := Some(Show(s.fields.overview) + " " + Strip(chunk)))
    ensures Step(s, chunk).value.fields.(developer := s.fields.developer, overview := s.fields.overview) == s.fields
  {
    var low := Folded(chunk);
    if |chunk| > 5 && Contains(low, "developer:") && !StartsWith(low, "developer:") {
      assert Step(s, chunk) == Then(SplitDeveloper(s.fields, low, "developer: "), Scanning);
    }
  }

  /**
   * The four direct labels start with different letters, so at most one
   * applies: it sets its own field to the stripped text after it, the overview
   * is never touched, and a line with none of them changes nothing.
   */
  lemma LabelledSpec(f: Fields, chunk: string, low: string)
    ensures var r := Labelled(f, chunk, low);
      && (StartsWith(low, "developer:") ==> r == f.(developer := Some(Strip(Drop(chunk, 11)))))
      && (StartsWith(low, "platform:") ==> r == f.(platform := Some(Strip(Drop(chunk, 10)))))
      && (StartsWith(low, "censorship:") ==> r == f.(censorship := Some(Strip(Drop(chunk, 12)))))
      && (StartsWith(low, "language:") ==> r == f.(language := Some(Strip(Drop(chunk, 10)))))
      && r.overview == f.overview
      && ((!StartsWith(low, "developer:") && !StartsWith(low, "platform:") &&
           !StartsWith(low, "censorship:") && !StartsWith(low, "language:")) ==> r == f)
  {
    if low != [] {
      var c := low[0];
      assert StartsWith(low, "developer:") ==> c == low[..10][0] == 'd';
      assert StartsWith(low, "platform:") ==> c == low[..9][0] == 'p';
      assert StartsWith(low, "censorship:") ==> c == low[..11][0] == 'c';
    }
  }

  /** The direct labels: only in the scanning phase on a line no overview label matches; the later line wins. */
  lemma DirectLabels(s: Seg, chunk: string)
    requires s.phase == Scanning && FirstKey(Folded(chunk)) == None
    ensures Step(s, chunk) == Ok(Seg(Scanning, Labelled(s.fields, chunk, Folded(chunk))))
  {
  }

  /**
   * An inline developer marker after a label or a capture: the developer is
   * the last piece of the folded line, lower-cased and not stripped; after a
   * capture the line is split on "developer: ", with its trailing space. The
   * pieces before it are appended to the overview, which fails while the
   * overview is still `None`.
   */
  lemma InlineDeveloper(s: Seg, chunk: string)
    requires s.phase == ExpectContinuation || (s.phase == Captured && |chunk| > 5)
    requires Contains(Folded(chunk), "developer:") && !StartsWith(Folded(chunk), "developer:")
    ensures var sep := if s.phase == ExpectContinuation then "developer:" else "developer: ";
      var parts := Split(Folded(chunk), sep);
      && (s.fields.overview.None? ==> Step(s, chunk) == Err(OverviewNotText))
      && (s.fields.overview.Some? ==>
            Step(s, chunk) == Ok(Seg(Scanning, s.fields.(
              developer := Some(Last(parts)),
              overview := Some(s.fields.overview.value + " " + Join("developer: ", AllButLast(parts)))))))
  {
    var low := Folded(chunk);
    if s.phase == Captured {
      assert Step(s, chunk) == Then(SplitDeveloper(s.fields, low, "developer: "), Scanning);
    }
  }
}
