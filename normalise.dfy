/**
 * The field normalisers of `parse_html`: tag-name casing and the ordered tag
 * dictionary, the image-url `/thumb/` rewrite, and the download-link filter.
 * The document selections that feed them are given as sequences.
 */
module Normalise {
  import opened Wrappers
  import opened PyStrings

  // ---------------------------------------------------------------- tag casing

  /** The lower-cased tag names that are shown fully upper-cased. */
  const Acronyms: set<string> := {"2dcg", "3dcg", "bdsm", "ntr", "pov", "rpg"}

  /** The displayed name of a tag: its title-cased text, upper-cased when it is an acronym. */
  function TagName(text: string): string {
    var title := Title(text);
    if Lower(title) in Acronyms then Upper(title) else title
  }

  lemma LowerUpper(s: string)
    ensures Lower(Upper(s)) == Lower(s)
  {
    assert |Lower(Upper(s))| == |Lower(s)|;
    forall i | 0 <= i < |s| ensures Lower(Upper(s))[i] == Lower(s)[i] { }
  }

  /** Whether a tag is an acronym is decided on its text, and casing never changes the lower-cased name. */
  lemma TagCasing(text: string)
    ensures TagName(text) == if Lower(text) in Acronyms then Upper(text) else Title(text)
    ensures Lower(TagName(text)) == Lower(text)
    ensures |TagName(text)| == |text|
  {
    LowerTitle(text);
    TitleFromLength(text, false);
    if Lower(text) in Acronyms {
      LowerUpper(text);
    }
  }

  /** Tag names ignore how the tag text was cased: texts that agree lower-cased get the same name. */
  lemma TagNameCaseInsensitive(a: string, b: string)
    requires Lower(a) == Lower(b)
    ensures TagName(a) == TagName(b)
  {
    TagCasing(a);
    TagCasing(b);
    CaseAfterLower(a);
    CaseAfterLower(b);
  }

  /** An acronym tag is upper-cased. */
  lemma TagNameAcronym()
    ensures TagName("bdsm") == "BDSM"
  {
    TagCasing("bdsm");
    assert Lower("bdsm") == "bdsm";
    assert Upper("bdsm") == "BDSM";
  }

  /** Any other tag is title-cased. */
  lemma TagNameWord()
    ensures TagName("story") == "Story"
  {
    TagCasing("story");
    assert Lower("story") == "story";
    assert "story" !in Acronyms by { assert "story"[0] != "bdsm"[0]; }
    assert Title("story") == "Story" by {
      assert TitleFrom("y", true) == "y";
      assert TitleFrom("ry", true) == "ry";
      assert TitleFrom("ory", true) == "ory";
      assert TitleFrom("tory", true) == "tory";
    }
  }

  // ---------------------------------------------------------- the tag dictionary

  /** A Python dict from tag name to url: its entries in insertion order. */
  type TagDict = seq<(string, string)>

  function Keys(d: TagDict): seq<string> {
    seq(|d|, i requires 0 <= i < |d| => d[i].0)
  }

  predicate Distinct<T(==)>(s: seq<T>) {
    forall i, j :: 0 <= i < j < |s| ==> s[i] != s[j]
  }

  /** `d[k]` on the dict. */
  function Lookup(d: TagDict, k: string): Option<string> {
    if d == [] then None
    else if d[0].0 == k then Some(d[0].1)
    else Lookup(d[1..], k)
  }

  /** `d[k] = v`: an existing key keeps its position and takes the new value, a new key goes last. */
  function Put(d: TagDict, k: string, v: string): TagDict {
    if d == [] then [(k, v)]
    else if d[0].0 == k then [(k, v)] + d[1..]
    else [d[0]] + Put(d[1..], k, v)
  }

  /** The display names of the tags, in document order. */
  function Names(tags: seq<(string, string)>): seq<string> {
    seq(|tags|, i requires 0 <= i < |tags| => TagName(tags[i].0))
  }

  /** The dict built from the (text, href) pairs of the tag links, in order. */
  function Tags(tags: seq<(string, string)>): TagDict
    decreases |tags|
  {
    if tags == [] then []
    else
      var n := |tags| - 1;
      Put(Tags(tags[..n]), TagName(tags[n].0), tags[n].1)
  }

  /** Reference definitions: the names in order of first occurrence, and the url of the last tag with a name. */
  function Dedup(s: seq<string>): seq<string>
    decreases |s|
  {
    if s == [] then []
    else
      var n := |s| - 1;
      var p := Dedup(s[..n]);
      if s[n] in p then p else p + [s[n]]
  }

  function LastUrl(tags: seq<(string, string)>, k: string): (r: Option<string>)
    ensures r.Some? <==> k in Names(tags)
    decreases |tags|
  {
    if tags == [] then None
    else
      var n := |tags| - 1;
      assert Names(tags) == Names(tags[..n]) + [TagName(tags[n].0)];
      if TagName(tags[n].0) == k then Some(tags[n].1) else LastUrl(tags[..n], k)
  }

  /** The tag loop of `parse_html`, assigning into the dict one tag at a time. */
  method CollectTags(tags: seq<(string, string)>) returns (d: TagDict)
    ensures d == Tags(tags)
  {
    d := [];
    for i := 0 to |tags|
      invariant d == Tags(tags[..i])
    {
      assert tags[..i + 1][..i] == tags[..i];
      d := Put(d, TagName(tags[i].0), tags[i].1);
    }
    assert tags[..|tags|] == tags;
  }

  lemma {:induction false} PutLookup(d: TagDict, k: string, v: string, k2: string)
    ensures Lookup(Put(d, k, v), k2) == if k2 == k then Some(v) else Lookup(d, k2)
    decreases |d|
  {
    if d != [] && d[0].0 != k {
      PutLookup(d[1..], k, v, k2);
      assert Put(d, k, v)[1..] == Put(d[1..], k, v);
    }
  }

  lemma {:induction false} PutKeys(d: TagDict, k: string, v: string)
    ensures Keys(Put(d, k, v)) == if k in Keys(d) then Keys(d) else Keys(d) + [k]
    decreases |d|
  {
    if d == [] {
    } else if d[0].0 == k {
      assert Keys(d)[0] == k;
      assert Keys(Put(d, k, v)) == Keys(d);
    } else {
      PutKeys(d[1..], k, v);
      assert Keys(d) == [d[0].0] + Keys(d[1..]);
      assert Keys(Put(d, k, v)) == [d[0].0] + Keys(Put(d[1..], k, v));
    }
  }

  /** The dict's keys are the display names in order of first occurrence. */
  lemma {:induction false} TagsKeys(tags: seq<(string, string)>)
    ensures Keys(Tags(tags)) == Dedup(Names(tags))
    decreases |tags|
  {
    if tags != [] {
      var n := |tags| - 1;
      TagsKeys(tags[..n]);
      PutKeys(Tags(tags[..n]), TagName(tags[n].0), tags[n].1);
      assert Names(tags)[..n] == Names(tags[..n]);
    }
  }

  /** A repeated name keeps the url of its last occurrence. */
  lemma {:induction false} TagsLookup(tags: seq<(string, string)>, k: string)
    ensures Lookup(Tags(tags), k) == LastUrl(tags, k)
    decreases |tags|
  {
    if tags != [] {
      var n := |tags| - 1;
      TagsLookup(tags[..n], k);
      PutLookup(Tags(tags[..n]), TagName(tags[n].0), tags[n].1, k);
    }
  }

  /** Deduplication keeps every element, once. */
  lemma {:induction false} DedupSpec(s: seq<string>)
    ensures Distinct(Dedup(s))
    ensures forall x :: x in Dedup(s) <==> x in s
    decreases |s|
  {
    if s != [] {
      var n := |s| - 1;
      DedupSpec(s[..n]);
      assert s == s[..n] + [s[n]];
    }
  }

  /** Each display name occurs once in the dict, and a name is a key iff some tag has it. */
  lemma TagsDistinct(tags: seq<(string, string)>)
    ensures Distinct(Keys(Tags(tags)))
    ensures forall k :: k in Keys(Tags(tags)) <==> k in Names(tags)
  {
    TagsKeys(tags);
    DedupSpec(Names(tags));
  }

  // -------------------------------------------------------------------- images

  /** The image url with each non-overlapping `/thumb/`, from the left, replaced by `/`. */
  function ThumbRewrite(url: string): string { Replace(url, "/thumb/", "/") }

  /** The rewrite cuts the url at every `/thumb/` and rejoins the pieces with `/`. */
  lemma ThumbRewritePieces(url: string)
    ensures ThumbRewrite(url) == Join("/", Split(url, "/thumb/"))
    ensures forall i :: 0 <= i < |Split(url, "/thumb/")| ==> !Contains(Split(url, "/thumb/")[i], "/thumb/")
  {
    ReplaceIsJoinSplit(url, "/thumb/", "/");
    SplitPiecesFree(url, "/thumb/");
  }

  lemma ThumbRewriteAbsent(url: string)
    requires !Contains(url, "/thumb/")
    ensures ThumbRewrite(url) == url
  {
    ReplaceAbsent(url, "/thumb/", "/");
  }

  /** Removing one `/thumb/` can bring two halves of another together. */
  lemma ThumbRewriteNested()
    ensures ThumbRewrite("/thumb/thumb/") == "/thumb/"
  {
    var u := "/thumb/thumb/";
    assert StartsWith(u, "/thumb/");
    assert u[7..] == "thumb/";
    assert !Contains("thumb/", "/thumb/") by { FindSpec("thumb/", "/thumb/"); }
    ReplaceAbsent("thumb/", "/thumb/", "/");
  }

  /** The rewritten url can contain `/thumb/` again, so the rewrite is not idempotent. */
  lemma ThumbRewriteNotIdempotent()
    ensures ThumbRewrite(ThumbRewrite("/thumb/thumb/")) == "/"
  {
    ThumbRewriteNested();
    assert StartsWith("/thumb/", "/thumb/");
    assert ("/thumb/")[7..] == [];
  }

  /** A piece of a split never contains the separator. */
  lemma {:induction false} SplitPiecesFree(s: string, sep: string)
    requires |sep| > 0
    ensures forall i :: 0 <= i < |Split(s, sep)| ==> !Contains(Split(s, sep)[i], sep)
    decreases |s|
  {
    FindSpec(s, sep);
    match Find(s, sep)
    case None =>
      assert Split(s, sep) == [s];
    case Some(j) =>
      var head := s[..j];
      SplitPiecesFree(s[j + |sep|..], sep);
      assert Split(s, sep) == [head] + Split(s[j + |sep|..], sep);
      forall m | 0 <= m ensures !OccursAt(head, sep, m) {
        if m + |sep| <= j {
          assert !OccursAt(s, sep, m);
          assert head[m..m + |sep|] == s[m..m + |sep|];
        }
      }
      FindNone(head, sep);
  }

  /** The image loop: (alt, rewritten url) pairs in document order, and the set of rewritten urls. */
  function Images(images: seq<(string, string)>): seq<(string, string)> {
    seq(|images|, i requires 0 <= i < |images| => (images[i].0, ThumbRewrite(images[i].1)))
  }

  function ImageLinks(images: seq<(string, string)>): set<string> {
    set i | 0 <= i < |images| :: ThumbRewrite(images[i].1)
  }

  method CollectImages(images: seq<(string, string)>) returns (list: seq<(string, string)>, imagelinks: set<string>)
    ensures list == Images(images)
    ensures imagelinks == ImageLinks(images)
  {
    list := [];
    imagelinks := {};
    for i := 0 to |images|
      invariant list == Images(images[..i])
      invariant imagelinks == ImageLinks(images[..i])
    {
      var imgurl := ThumbRewrite(images[i].1);
      list := list + [(images[i].0, imgurl)];
      imagelinks := imagelinks + {imgurl};
      assert ImageLinks(images[..i + 1]) == ImageLinks(images[..i]) + {imgurl} by {
        assert forall k :: 0 <= k < i ==> images[..i + 1][k] == images[..i][k];
      }
    }
    assert images[..|images|] == images;
  }

  /** Every collected url is the rewrite of an image href, and every rewritten href was collected. */
  lemma ImageLinksSpec(images: seq<(string, string)>, url: string)
    ensures url in ImageLinks(images) <==> exists i :: 0 <= i < |images| && Images(images)[i].1 == url
  {
    if url in ImageLinks(images) {
      var i :| 0 <= i < |images| && ThumbRewrite(images[i].1) == url;
      assert Images(images)[i].1 == url;
    }
  }

  // ------------------------------------------------------------- download links

  /** Links into the forum itself are not downloads. */
  const ForumPrefix := "https://f95zone.com/index.php"

  predicate KeepLink(href: string, imagelinks: set<string>) {
    href !in imagelinks && !StartsWith(href, ForumPrefix)
  }

  /** The kept hrefs, in order; a link without an `href` attribute is skipped. */
  function KeptLinks(hrefs: seq<Option<string>>, imagelinks: set<string>): seq<string>
    decreases |hrefs|
  {
    if hrefs == [] then []
    else
      var n := |hrefs| - 1;
      var rest := KeptLinks(hrefs[..n], imagelinks);
      if hrefs[n].Some? && KeepLink(hrefs[n].value, imagelinks) then rest + [hrefs[n].value] else rest
  }

  /** The download-link loop. */
  method CollectDownloadLinks(hrefs: seq<Option<string>>, imagelinks: set<string>) returns (links: seq<string>)
    ensures links == KeptLinks(hrefs, imagelinks)
  {
    links := [];
    for i := 0 to |hrefs|
      invariant links == KeptLinks(hrefs[..i], imagelinks)
    {
      assert hrefs[..i + 1][..i] == hrefs[..i];
      match hrefs[i]
      case None =>
      case Some(downloadlink) =>
        if downloadlink !in imagelinks && !StartsWith(downloadlink, ForumPrefix) {
          links := links + [downloadlink];
        }
    }
    assert hrefs[..|hrefs|] == hrefs;
  }

  /** A link is kept iff some href is that link, is not an image url and is not a forum page. */
  lemma {:induction false} KeptLinksMember(hrefs: seq<Option<string>>, imagelinks: set<string>, x: string)
    ensures x in KeptLinks(hrefs, imagelinks) <==>
      KeepLink(x, imagelinks) && exists i :: 0 <= i < |hrefs| && hrefs[i] == Some(x)
    decreases |hrefs|
  {
    if hrefs != [] {
      var n := |hrefs| - 1;
      KeptLinksMember(hrefs[..n], imagelinks, x);
      if exists i :: 0 <= i < n && hrefs[..n][i] == Some(x) {
        var i :| 0 <= i < n && hrefs[..n][i] == Some(x);
        assert hrefs[i] == Some(x);
      }
      if exists i :: 0 <= i < |hrefs| && hrefs[i] == Some(x) {
        var i :| 0 <= i < |hrefs| && hrefs[i] == Some(x);
        if i < n { assert hrefs[..n][i] == Some(x); }
      }
    }
  }

  /** Filtering distributes over concatenation, so the kept links stay in document order. */
  lemma {:induction false} KeptLinksAppend(a: seq<Option<string>>, b: seq<Option<string>>, imagelinks: set<string>)
    ensures KeptLinks(a + b, imagelinks) == KeptLinks(a, imagelinks) + KeptLinks(b, imagelinks)
    decreases |b|
  {
    if b == [] {
      assert a + b == a;
    } else {
      var n := |b| - 1;
      KeptLinksAppend(a, b[..n], imagelinks);
      assert (a + b)[..|a + b| - 1] == a + b[..n];
    }
  }
}
