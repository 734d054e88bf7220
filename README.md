# f95 thread importer, modelled in Dafny

The f95 scraper reads saved forum thread pages and loads them into an SQLite
database. This project models two of its parts and proves properties of them:

- the body-text segmenter of `parse_html` and its field normalisers:
  - the line classifier that finds overview, developer, platform, censorship
    and language in the thread's first post;
  - the fallback for a missing or short overview;
  - tag-name casing;
  - the image-url `/thumb/` rewrite;
  - the download-link filter;
- `insert_thread`, the upsert engine, over an in-memory database whose tables
  have the keys and unique constraints of `f95_models.py`:
  - resolve-or-create of users, tags, links, images, developers, platforms
    and languages;
  - creation or partial refresh of the thread row;
  - insert-if-absent of the junction rows.

Modules, one per file:

- `Wrappers` (wrappers.dfy): `Option` and `Result`.
- `PyStrings` (strings.dfy): the Python `str` operations the parser uses,
  restricted to ASCII: `lower`, `upper`, `title`, `strip`, `startswith`, `in`,
  `split`, `join`, `replace`, and slices that run past the end.
- `Segmenter` (segmenter.dfy): the three-phase line classifier.
  - The classifier is a method (`Segment`) with the source's loop and state
    variables.
  - It is proved equal to a step function folded over the lines (`Step`,
    `Run`).
  - Lemmas about `Step` state each transition.
  - `ParseBody` adds the fallback.
- `LabelOrder` (labels.dfy): the ordering of the 37 overview labels. No label
  has an earlier one as a prefix, so every label can be selected.
- `Normalise` (normalise.dfy): tag casing and the ordered tag dictionary, the
  image loop and the download-link loop. Each loop is a method proved against
  a function, and the function against a reference definition.
- `Schema` (schema.dfy): the tables.
  - An entity table maps surrogate ids to rows, plus a unique index from the
    natural key to the id, plus the next id.
  - A junction table is an entity table keyed by the (thread id, related id)
    pair.
  - `Db.Valid` states the unique constraints and referential integrity.
- `Importer` (importer.dfy): `insert_thread`.
  - `Import` states the database after one call as a value.
  - `Store` is a class with one field per table. `Store.InsertThread` performs
    the same updates in place, loop by loop, and is proved to reach `Import`.
  - The lemmas about `Import` cover: validity is preserved, nothing is
    deleted, one row per key, repeat imports are idempotent, and only the
    mutable columns of an existing thread change.
- `ThreadKwargs` (thread_kwargs.dfy): the keyword arguments of the new-thread
  constructor call (see Findings).

Inputs that the source takes from BeautifulSoup are given to the model as
sequences:

- the body lines;
- the (text, href) pairs of the tag links;
- the (alt, href) pairs of the images;
- the optional hrefs of the candidate download links;
- the texts the fallback walk meets.

The parsed thread reaches `insert_thread` as an explicit `Record`, not as a
dictionary.

### A label line that also names the developer

One might expect a line "About the game: X developer: Y" to give overview "X"
and developer "Y". The label branch (pageparse.py:155-163) never looks for an
inline developer marker: it keeps the whole remainder "X developer: Y" as the
overview and leaves the developer unset. Only the continuation line of a bare
label (pageparse.py:173-190) and the line after a capture
(pageparse.py:191-203) are split on the marker.
`LabelOrder.AboutTheGameInline` proves this for every such line.

## Model

| member | source | states |
|---|---|---|
| PyStrings.StripSpec | pageparse.py:151 | `strip()` returns a contiguous piece of the line; only whitespace was removed from either end, and the result neither starts nor ends with whitespace |
| PyStrings.TitleAt | pageparse.py:97 | `title()` keeps the length; a letter is upper-cased exactly when the character before it is not a letter, lower-cased otherwise; other characters are kept |
| PyStrings.LowerTitle | pageparse.py:99 | lower- or upper-casing a title-cased string gives the same as casing the original |
| PyStrings.FindSpec | pageparse.py:174 | `sep in s` is decided by the first occurrence: a found index is an occurrence with none before it; no result means no occurrence anywhere |
| PyStrings.CaseAfterLower | pageparse.py:97-100 | title- and upper-casing give the same result on a string and on its lower-cased form |
| PyStrings.ReplaceIsJoinSplit | pageparse.py:236 | `s.replace(p, r)` equals `r.join(s.split(p))` |
| PyStrings.ReplaceAbsent | pageparse.py:236 | replacing a pattern that does not occur leaves the string unchanged |
| Segmenter.FirstKeyFrom | pageparse.py:153-155 | the result is the first label, in list order, that prefixes the folded line; no result means no label prefixes it |
| Segmenter.MatchLineKey | pageparse.py:153-168 | the inner label loop stops at the first label that prefixes the folded line, or finds none |
| Segmenter.Step | pageparse.py:150-211 | one pass of the loop body: the line is folded and handled by the current phase (0 scanning, 1 expecting a continuation, 2 captured); each transition is stated by `LabelWithText`, `LabelAlone`, `DirectLabels`, `ContinuationConsumed`, `InlineDeveloper`, `CapturedOneLine` and `StepFailsExactly` |
| Segmenter.ScanLine | pageparse.py:154-169 | phase 0: the first matching overview label, else the direct labels; stated by `LabelWithText`, `LabelAlone` and `DirectLabels` |
| Segmenter.ContinueLine | pageparse.py:173-190 | phase 1: the line after a bare label; stated by `ContinuationConsumed`, `InlineDeveloper` and `StepFailsExactly` |
| Segmenter.CapturedLine | pageparse.py:191-203 | phase 2: the one line after a capture; stated by `CapturedOneLine` and `InlineDeveloper` |
| Segmenter.Labelled | pageparse.py:204-211 | the developer/platform/censorship/language labels; stated by `LabelledSpec` and `DirectLabels` |
| Segmenter.SplitDeveloper | pageparse.py:178-183 | the split on an inline developer marker and the join back onto the overview; stated by `InlineDeveloper` and `StepFailsExactly` |
| Segmenter.Run | pageparse.py:150-211 | `Step` folded over the lines from the all-`None` start, stopping at the first error; `Segment` is proved to compute it, `RunErrorSticks` and `RunConsistent` state its properties |
| Segmenter.Body | pageparse.py:213-228 | the segmented fields followed by the fallback; stated by `ParseBody` and `BodyOverview` |
| Segmenter.Segment | pageparse.py:138-211 | the loop over the lines, blank lines included, gives the same fields as folding `Step` over the lines from the all-`None` start, and stops at the first join onto a `None` overview |
| Segmenter.RunErrorSticks | pageparse.py:182 | once a prefix of the lines fails, the whole run fails with that error |
| Segmenter.LabelWithText | pageparse.py:155-163 | scanning, a matched label whose folded line is longer than len(label)+2 moves to state 2; the overview becomes the raw line from len(label)+1, stripped, appended after a space when the overview is already text longer than 3 |
| Segmenter.LabelAlone | pageparse.py:164-167 | scanning, a matched label with a shorter line changes no field and moves to state 1 |
| Segmenter.ContinuationConsumed | pageparse.py:172-190 | state 1 consumes the next line whatever its length; without "developer:" it moves to state 2 with the overview replaced by the stripped line; a line starting with "developer:" sets the developer to the raw line from character 11, stripped, and returns to state 0 with nothing else changed; with the marker anywhere it sets the developer, changes nothing but developer and overview, and returns to state 0 |
| Segmenter.CapturedOneLine | pageparse.py:191-203 | state 2 consumes exactly one line and returns to state 0; a line of at most 5 characters changes nothing; a longer line starting with "developer:" sets the developer to the raw line from character 11, stripped; a longer line without the marker appends a space and the stripped line to the overview as `str.format` renders it; only developer and overview can change |
| Segmenter.InlineDeveloper | pageparse.py:177-182 | an inline marker makes the developer the last piece of the folded line, lower-cased and not stripped; the split is on "developer:" in state 1 and "developer: " in state 2; the earlier pieces are joined back onto the overview; a `None` overview is the error |
| Segmenter.DirectLabels | pageparse.py:204-211 | scanning, a line that matches no overview label stays in state 0 and its fields are given by the direct labels |
| Segmenter.LabelledSpec | pageparse.py:204-211 | at most one direct label applies: a developer/platform/censorship/language prefix sets that field to the raw line minus 11/10/12/10 characters, stripped; the overview is never touched; a line with none of the prefixes changes nothing |
| Segmenter.StepConsistent | pageparse.py:161-163 | every step keeps the invariant that the overview is text while in state 2 |
| Segmenter.RunConsistent | pageparse.py:196-202 | every reachable state keeps that invariant, so the join and the format in state 2 never see a `None` overview |
| Segmenter.StepFailsExactly | pageparse.py:177-182 | from a consistent state a step fails iff: state 1, no overview yet, and the folded line contains "developer:" without starting with it |
| Segmenter.FirstNonEmpty | pageparse.py:215-227 | the result is the first non-empty text, with only empty texts before it; no result means every text is empty |
| Segmenter.FallbackWalk | pageparse.py:216-227 | the walk returns the first non-empty text, or runs off the end |
| Segmenter.ParseBody | pageparse.py:138-228 | the segmenter followed by the fallback equals `Body`: the segmented fields, with the overview replaced only when the trigger fires |
| Segmenter.BodyOverview | pageparse.py:214-228 | after the fallback the overview is always text; an overview of at least 10 characters is kept; when the trigger fires the parse fails iff every walked text is empty; no other field changes |
| LabelOrder.LabelsUnshadowed | pageparse.py:142-147 | no overview label has an earlier label as a prefix |
| LabelOrder.KeyNotShadowed | pageparse.py:142-147 | each single label has no earlier label as a prefix |
| LabelOrder.LabelFolds | pageparse.py:142-151 | every label but "story overview: " is already lower-case and stripped, so a line equal to it folds to it |
| LabelOrder.LabelReachable | pageparse.py:151-158 | under first-match-wins every label is selected by some body line: the label itself, or, for "story overview: ", the label followed by text |
| LabelOrder.Label20Reachable | pageparse.py:151-158 | the line "story overview: x" folds to itself and selects "story overview: " |
| LabelOrder.Label20NeedsText | pageparse.py:151 | no line folds to "story overview: " itself, since a stripped line never ends in a space |
| LabelOrder.AboutTheGameInline | pageparse.py:155-163 | a line "About the game: X developer: Y" selects the "about the game:" label; the overview becomes "X developer: Y" and the developer is unchanged |
| Normalise.TagName | pageparse.py:97-100 | the display name of a tag; stated by `TagCasing` and `TagNameCaseInsensitive` |
| Normalise.TagNameCaseInsensitive | pageparse.py:97-100 | two tag texts that agree when lower-cased get the same display name |
| Normalise.TagCasing | pageparse.py:97-100 | a tag name is the title-casing of its text, upper-cased iff the lower-cased text is one of 2dcg, 3dcg, bdsm, ntr, pov, rpg; it keeps the text's length and lower-case form |
| Normalise.TagNameAcronym | pageparse.py:98-100 | "bdsm" is shown as "BDSM" |
| Normalise.TagNameWord | pageparse.py:97 | "story" is shown as "Story" |
| Normalise.Put | pageparse.py:101 | `d[k] = v` on an insertion-ordered dict; stated by `PutLookup` and `PutKeys` |
| Normalise.Tags | pageparse.py:93-101 | the tag dict after the loop; stated by `TagsKeys`, `TagsLookup` and `TagsDistinct` |
| Normalise.CollectTags | pageparse.py:93-101 | the tag loop builds the dict `Tags` by assigning each display name its href in turn |
| Normalise.PutLookup | pageparse.py:101 | after `d[k] = v`, `d[k]` is `v` and every other key keeps its value |
| Normalise.PutKeys | pageparse.py:101 | `d[k] = v` keeps the key order, and a new key goes last |
| Normalise.TagsKeys | pageparse.py:94-101 | the dict's keys are the display names in order of first occurrence |
| Normalise.TagsLookup | pageparse.py:94-101 | each name maps to the href of its last occurrence |
| Normalise.TagsDistinct | pageparse.py:94-101 | each display name occurs once as a key, and a name is a key iff some tag has it |
| Normalise.LastUrl | pageparse.py:101 | a name has a last href iff it is one of the display names |
| Normalise.ThumbRewrite | pageparse.py:236 | the image-url rewrite; stated by `ThumbRewritePieces`, `ThumbRewriteAbsent`, `ThumbRewriteNested` and `ThumbRewriteNotIdempotent` |
| Normalise.ThumbRewritePieces | pageparse.py:236 | the rewrite cuts the url at every non-overlapping `/thumb/`, from the left, and rejoins the pieces, none of which contains `/thumb/`, with `/` |
| Normalise.ThumbRewriteAbsent | pageparse.py:236 | a url without `/thumb/` is unchanged |
| Normalise.ThumbRewriteNested | pageparse.py:236 | "/thumb/thumb/" is rewritten to "/thumb/" |
| Normalise.ThumbRewriteNotIdempotent | pageparse.py:236 | rewriting that result again gives "/", so the rewrite is not idempotent |
| Normalise.Images | pageparse.py:233-237 | the (alt, rewritten href) list; `CollectImages` is proved to compute it |
| Normalise.ImageLinks | pageparse.py:238 | the set of rewritten hrefs; stated by `ImageLinksSpec` |
| Normalise.KeptLinks | pageparse.py:247-251 | the download links kept by the filter; stated by `KeptLinksMember` and `KeptLinksAppend` |
| Normalise.CollectImages | pageparse.py:230-238 | the image loop yields (alt, rewritten href) in document order, and the set of rewritten hrefs |
| Normalise.ImageLinksSpec | pageparse.py:237-238 | a url is in the image-url set iff some collected image has it |
| Normalise.CollectDownloadLinks | pageparse.py:241-251 | the link loop yields exactly `KeptLinks`; a link without an href is skipped |
| Normalise.KeptLinksMember | pageparse.py:247-251 | a url is kept iff it is some link's href, is not an image url and does not start with `https://f95zone.com/index.php` |
| Normalise.KeptLinksAppend | pageparse.py:246-251 | filtering distributes over concatenation, so the kept links are an in-order subsequence of the hrefs |
| Schema.EmptyTable | f95_models.py:21-69 | a new table is empty and satisfies its key constraints |
| Schema.UniqueKey | f95_models.py:31-46 | in a valid table two rows with the same natural key are the same row (unique name/url) |
| Schema.EmptyDb | f95_models.py:21-126 | the empty database satisfies every unique constraint and foreign key |
| Importer.Resolve | pageparse.py:310-317 | the lookup-or-create of one keyed row; stated by `ResolveSpec`, `ResolveIndex` and `ResolveAgain` |
| Importer.ResolveAll | pageparse.py:280-289 | one lookup-or-create per list item, in order; stated by `ResolveAllSpec`, `ResolveAllKeys`, `ResolveAllIds`, `ResolveAllCount`, `ResolveAllPresent` and `ResolveAllAgain` |
| Importer.ResolveUser | pageparse.py:272-279 | the user lookup by id, where a missing id never matches; stated by `ResolveUserFound` and `ResolveUserSpec` |
| Importer.Merge | pageparse.py:338-344 | the refresh of an existing thread; stated by `MergeSpec` |
| Importer.NewThread | pageparse.py:348 | the new thread row; stated by `NewThreadSpec` |
| Importer.ResolveEntities | pageparse.py:272-333 | all lookups of one record; stated by `ResolveEntitiesSpec` and `EntitiesAgain` |
| Importer.ThreadAfter | pageparse.py:334-351 | the thread table after the merge or creation; stated by `ImportThread` and `ImportKeepsThreads` |
| Importer.LinkAll | pageparse.py:352-359 | insert-if-absent of one junction row per id; stated by `LinkJoins` and `JoinsAfter` |
| Importer.Import | pageparse.py:260-376 | the database after one call; stated by `ImportValid`, `ImportKeeps`, `ImportThread`, `ImportIdempotent` and the other `Import` lemmas, and reached by `Store.InsertThread` |
| Importer.ResolveSpec | pageparse.py:310-317 | a lookup-or-create keeps the table valid; an existing row is reused and the table is untouched; otherwise exactly one row with a fresh id is added; the key then maps to the returned id |
| Importer.ResolveIndex | pageparse.py:310-317 | the indexed keys grow by exactly the resolved key, and old keys keep their ids |
| Importer.ResolveAllSpec | pageparse.py:280-289 | resolving a list keeps the table valid, only adds rows, and returns one id per item |
| Importer.ResolveAllKeys | pageparse.py:280-289 | the indexed keys grow by exactly the list's keys |
| Importer.ResolveAllIds | pageparse.py:280-289 | each returned id is the row of its item's key in the final table |
| Importer.ResolveAllCount | pageparse.py:280-289 | exactly one row is added per distinct key not already present; duplicates add nothing |
| Importer.ResolveAllPresent | pageparse.py:280-289 | a list whose keys are all present changes nothing |
| Importer.ResolveAllAgain | pageparse.py:280-289 | resolving the same list again returns the same table and the same ids |
| Importer.ResolveAgain | pageparse.py:310-317 | resolving the same key again changes nothing |
| Importer.ResolveUserFound | pageparse.py:272-279 | the user row exists afterwards; a given id is the user's id; an existing user is reused untouched |
| Importer.ResolveUserSpec | pageparse.py:272-279 | old users are kept; without a known id exactly one user is added, at a fresh id when the id is `None` |
| Importer.MergeSpec | pageparse.py:335-347 | an existing thread gets edited, views, votes, likes, pages, version and rating from the record, and keeps every other column |
| Importer.NewThreadSpec | pageparse.py:348-351 | a new thread holds the record's columns and the resolved user, developer, platform and language ids |
| Importer.ResolveEntitiesSpec | pageparse.py:272-333 | the lookups keep every table valid, delete nothing, and return ids of existing rows |
| Importer.JoinsAfter | pageparse.py:352-375 | junction rows added for an existing thread and existing related rows keep every junction reference valid |
| Importer.LinkJoins | pageparse.py:352-375 | linking the thread to the ids resolved from a list keeps the junction references valid |
| Importer.ImportRefs | pageparse.py:260-351 | after the import every thread names an existing user, developer, platform and language |
| Importer.ImportJoins | pageparse.py:352-375 | after the import every junction row names an existing thread and related row |
| Importer.ImportValid | pageparse.py:260-376 | the import keeps every unique constraint and foreign key |
| Importer.ImportKeeps | pageparse.py:272-333 | no entity row is deleted or changed; the prefix table is untouched |
| Importer.ImportKeepsJunctions | pageparse.py:352-375 | no junction row is deleted or changed; thread prefixes are untouched |
| Importer.ImportKeepsThreads | pageparse.py:334-351 | no thread is deleted, the imported thread exists afterwards, and no other thread changes |
| Importer.ImportLinks | pageparse.py:280-375 | every tag, link and image of the record has its row, the thread has its junction row to it, and developer, platform and language are indexed |
| Importer.ImportCounts | pageparse.py:280-309 | the tag, link and image tables grow by exactly the number of distinct new keys |
| Importer.ImportThread | pageparse.py:334-351 | an existing thread gets only the mutable columns and keeps its user/developer/platform/language ids; a new thread has id = the record's id, the record's columns and the ids of the resolved rows: the user id `ResolveUser` returns (the record's id when it has one, a user row under an id not used before when it has none) and the developer's existing row when one has the record's name |
| Importer.EntitiesAgain | pageparse.py:272-333 | with a known user id, a second lookup of the same record finds the same rows and ids |
| Importer.ImportIdempotent | pageparse.py:260-376 | with a known user id, importing the same record twice equals importing it once |
| Importer.ImportAgainAddsNoRows | pageparse.py:280-375 | whatever the user id, a re-import adds no tag, link, image, developer, platform, language or junction row |
| Importer.ImportAnonymous | pageparse.py:272-279 | without a user id every import adds a user, so the import is not idempotent then |
| Importer.Store.constructor | f95_models.py:21-126 | a new store is the empty, valid database |
| Importer.Store.ResolveTags | pageparse.py:280-289 | the tag loop updates only the tag table, as `ResolveAll` does, and returns its ids |
| Importer.Store.ResolveLinks | pageparse.py:290-299 | the link loop updates only the link table, as `ResolveAll` does, and returns its ids |
| Importer.Store.ResolveImages | pageparse.py:300-309 | the image loop (keyed by url) updates only the image table, as `ResolveAll` does, and returns its ids |
| Importer.Store.LookupLists | pageparse.py:280-309 | the three list loops update only their three tables |
| Importer.Store.LookupSingles | pageparse.py:310-333 | the developer, platform and language lookups update only their tables and return their ids |
| Importer.Store.Lookups | pageparse.py:261-333 | all lookups together reach the tables and ids of `ResolveEntities` |
| Importer.Store.LinkTags | pageparse.py:352-359 | the thread-tag loop inserts each absent (thread, tag) row, and changes nothing else |
| Importer.Store.LinkLinks | pageparse.py:360-367 | the thread-link loop inserts each absent (thread, link) row, and changes nothing else |
| Importer.Store.LinkImages | pageparse.py:368-375 | the thread-image loop inserts each absent (thread, image) row, and changes nothing else |
| Importer.Store.Attach | pageparse.py:334-375 | the thread merge or creation and the three junction loops |
| Importer.Store.InsertThread | pageparse.py:260-376 | the in-place import reaches exactly `Import(old state, record)` and keeps the database valid |
| ThreadKwargs.AsWrittenRejected | pageparse.py:348 | as written, the new-thread keywords are the columns plus `details`, `mainimage` and `links`, which the constructor refuses |
| ThreadKwargs.CorrectedAccepted | pageparse.py:348 | without those three keys the keywords are exactly the columns of `thread`, which the constructor accepts |

## Left out

- HTML parsing: BeautifulSoup's selection and traversal (pageparse.py:35-119, 232-246) is a foreign library. The lines, tag pairs, image pairs and hrefs it yields are inputs.
- The other fields `parse_html` reads (canonical, title, user, votes, pages, rating, date, edited) are not modelled. Their `int()`/`float()` parsing is not modelled either. They reach the import as opaque optional values in `Importer.ThreadFields`, and the rating as a `real`.
- Segmenter.FallbackWalk: the `.next` walk over document nodes is modelled as a walk over the texts of the nodes it visits. The text extraction (a NavigableString's text, or `.text`, or '' on AttributeError) is not modelled. Running past the last node is modelled as the error `FallbackRanOff`, which the source raises as an AttributeError.
- Malformed anchors crash the source, and the model's inputs exclude them:
  - an image anchor without an `img` child (AttributeError) or without `alt` (KeyError) at pageparse.py:234, or without `href` (KeyError) at pageparse.py:235, is uncaught, since only IndexError is caught; the model's image inputs always carry both alt and href;
  - a tag link without `href` is an uncaught KeyError at pageparse.py:101, for the same reason; the model's tag inputs always carry an href;
  - a download link without an `href` is skipped, as in the source (pageparse.py:252).
- The SQLAlchemy session (pageparse.py:17-29) is replaced by in-memory tables:
  - flush, commit and rollback are not modelled;
  - an exception inside the session rolls everything back, but the modelled import cannot fail;
  - SQLite's choice of rowid is modelled as a counter above every id in use.
- Importer.ResolveUser: an explicit user id is inserted as given, and the counter moves past it. SQLite's exact rowid choice after such an insert is not modelled.
- Importer.Store.InsertThread: requires a valid database (an invariant of the store) rather than handling an invalid one.
- `main()` (pageparse.py:379-415) is driver I/O: directory walking, JSON loading, file-name parsing and the metadata overrides. So are `db_connect` and `create_tables` (f95_models.py:8-18). The `Downloaded` table is not used by the modelled code.
- Prefixes: `insert_thread` never writes the prefix or thread-prefix tables. The model carries them unchanged.
- Casing and whitespace are ASCII only. Unicode `title()`/`lower()`/`strip()` semantics are not modelled.
- The dead `pass` for blank lines (pageparse.py:152-153) is kept as no branch at all: blank lines drive the state machine like any other line.

## Findings

| source | as written | input that shows it | evidently intended | confidence | as-written member | corrected member |
|---|---|---|---|---|---|---|
| pageparse.py:348 | `Thread(**infodict)` passes every key left in the dictionary. `details`, `mainimage` and `links` (set at pageparse.py:50, 54, 58) are never popped and are not columns of `thread`, so the declarative constructor raises a TypeError | any page of a thread not yet in the database | build the new row from the `thread` columns only | not executed | ThreadKwargs.AsWrittenRejected | ThreadKwargs.CorrectedAccepted |

The rest of the model uses the corrected behaviour: `Importer.NewThread` builds the new row from exactly the `thread` columns (`Importer.NewThreadSpec`).
