/**
 * The keyword arguments with which `insert_thread` builds a new `Thread` row
 * (`Thread(**infodict)`). SQLAlchemy's declarative constructor raises a
 * TypeError for any keyword that is not a mapped attribute of the class, so
 * the call succeeds only when every key is a column of `thread`. Each set of
 * keys is given by its membership predicate.
 */
module ThreadKwargs {

  /** The keys of `infodict` that reach `insert_thread`, by their Python names. */
  datatype Key =
    | Id | Canonical | Title | UserId | UserName | UserUrl | Rating | Date | Edited | Overview
    | Details | Mainimage | Pages | Votes | Images | Links | Tags | Downloadlinks
    | Developer | DeveloperId | Platform | PlatformId | Censorship | Language | LanguageId
    | Version | Views | Likes | Prefixes | ImageCover

  /** The columns of the `thread` table. */
  predicate ThreadColumn(k: Key) {
    k in {Id, Canonical, Title, UserId, Rating, Date, Edited, Overview, DeveloperId, PlatformId,
          Censorship, LanguageId, Version, Views, Likes, Votes, Prefixes, Pages, ImageCover}
  }

  /** Keys the page parser always sets, whichever branch each of its lookups takes. */
  predicate Parsed(k: Key) {
    k in {Canonical, Title, Id, Details, UserId, UserName, UserUrl, Mainimage, Pages, Votes,
          Images, Links, Tags, Rating, Date, Edited, Overview, Developer, Platform, Censorship,
          Language, Downloadlinks}
  }

  /** Keys the driver overwrites from the thread listing before the import. */
  predicate Listed(k: Key) {
    k in {Title, Developer, Version, Views, Likes, Prefixes, Rating, ImageCover, Id}
  }

  /** Keys `insert_thread` pops before its lookups. */
  predicate Popped(k: Key) {
    k in {UserName, UserUrl, UserId, Tags, Downloadlinks, Images, Developer, Platform, Language}
  }

  /** Keys `insert_thread` stores back: the ids its lookups found or created. */
  predicate Resolved(k: Key) {
    k in {UserId, DeveloperId, PlatformId, LanguageId}
  }

  /** The keys of `infodict` when `Thread(**infodict)` runs, as written. */
  predicate Kwarg(k: Key) {
    ((Parsed(k) || Listed(k)) && !Popped(k)) || Resolved(k)
  }

  /** The declarative constructor accepts the keys only if all are mapped attributes. */
  predicate DeclarativeAccepts(keys: Key -> bool) {
    forall k: Key :: keys(k) ==> ThreadColumn(k)
  }

  /** As written, the new-thread branch passes exactly three keys that are not columns, and is refused. */
  lemma AsWrittenRejected()
    ensures forall k: Key :: Kwarg(k) && !ThreadColumn(k) <==> k in {Details, Mainimage, Links}
    ensures !DeclarativeAccepts(Kwarg)
  {
    assert Kwarg(Details) && !ThreadColumn(Details);
  }

  /** The arguments without the three stray keys. */
  predicate CorrectedKwarg(k: Key) {
    Kwarg(k) && k !in {Details, Mainimage, Links}
  }

  /** Without the three stray keys, the arguments are exactly the columns of `thread`. */
  lemma CorrectedAccepted()
    ensures forall k: Key :: CorrectedKwarg(k) <==> ThreadColumn(k)
    ensures DeclarativeAccepts(CorrectedKwarg)
  {
  }
}
