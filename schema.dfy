/**
 * The tables of the forum database: every entity table has an integer primary
 * key `id` and, except `user`, a unique natural key; every junction table has
 * its own `id` and a unique (thread_id, related id) pair.
 */
module Schema {
  import opened Wrappers

  /**
   * A table whose rows carry a unique natural key `K` and further columns `A`.
   * `index` is the unique index on the natural key; `next` is an id above every
   * id in use, the one the next inserted row receives.
   */
  datatype Table<K(==), A> = Table(rows: map<int, (K, A)>, index: map<K, int>, next: int)
  {
    predicate Valid() {
      && (forall k :: k in index ==> index[k] in rows && rows[index[k]].0 == k)
      && (forall id :: id in rows ==> rows[id].0 in index && index[rows[id].0] == id)
      && (forall id :: id in rows ==> 1 <= id < next)
      && 1 <= next
      && |rows| == |index|
    }
  }

  function EmptyTable<K(==), A>(): (t: Table<K, A>)
    ensures t.Valid() && t.rows == map[] && t.index == map[]
  {
    Table(map[], map[], 1)
  }

  /** The unique constraint: two rows of a valid table with the same natural key are the same row. */
  lemma UniqueKey<K, A>(t: Table<K, A>, i: int, j: int)
    requires t.Valid() && i in t.rows && j in t.rows && t.rows[i].0 == t.rows[j].0
    ensures i == j
  {
    assert t.index[t.rows[i].0] == i;
  }

  /** `user` is keyed by its id alone; name and url may repeat. */
  datatype UserRow = UserRow(name: Option<string>, url: Option<string>)

  datatype Users = Users(rows: map<int, UserRow>, next: int)
  {
    predicate Valid() { forall id :: id in rows ==> id < next }
  }

  /**
   * A `thread` row, keyed by the thread id. It names its user, developer,
   * platform and language only by their ids. The rating is a float in the
   * database; the model only stores and copies it.
   */
  datatype ThreadRow = ThreadRow(
    canonical: Option<string>,
    title: Option<string>,
    userId: int,
    rating: Option<real>,
    date: Option<int>,
    edited: Option<int>,
    overview: Option<string>,
    developerId: int,
    platformId: int,
    censorship: Option<string>,
    languageId: int,
    version: Option<string>,
    views: Option<int>,
    likes: Option<int>,
    votes: Option<int>,
    prefixes: Option<string>,
    pages: Option<int>,
    imageCover: Option<string>)

  /** A junction table: natural key (thread_id, related id), no further columns. */
  type Junction = Table<(int, int), ()>

  /** Every row of a junction refers to an existing thread and an existing related row. */
  predicate Joins<K(==), A>(j: Junction, threads: map<int, ThreadRow>, related: Table<K, A>) {
    forall id :: id in j.rows ==> j.rows[id].0.0 in threads && j.rows[id].0.1 in related.rows
  }

  /** A thread's foreign keys refer to existing rows. */
  predicate ThreadRefs(
    t: ThreadRow, users: Users, developers: Table<Option<string>, ()>,
    platforms: Table<Option<string>, ()>, languages: Table<Option<string>, ()>)
  {
    && t.userId in users.rows
    && t.developerId in developers.rows
    && t.platformId in platforms.rows
    && t.languageId in languages.rows
  }

  /**
   * The whole database. Developer, platform and language are keyed by their
   * (possibly null) name; the developer's url column is never written here.
   */
  datatype Db = Db(
    users: Users,
    prefixes: Table<string, Option<string>>,   // name -> url
    tags: Table<string, string>,               // name -> url
    images: Table<string, string>,             // url -> name
    developers: Table<Option<string>, ()>,
    platforms: Table<Option<string>, ()>,
    links: Table<string, ()>,                  // url
    languages: Table<Option<string>, ()>,
    threads: map<int, ThreadRow>,
    threadImages: Junction,
    threadLinks: Junction,
    threadTags: Junction,
    threadPrefixes: Junction)
  {
    /** The unique constraints of every table, and referential integrity. */
    predicate Valid() {
      && users.Valid() && prefixes.Valid() && tags.Valid() && images.Valid()
      && developers.Valid() && platforms.Valid() && links.Valid() && languages.Valid()
      && threadImages.Valid() && threadLinks.Valid() && threadTags.Valid() && threadPrefixes.Valid()
      && (forall id :: id in threads ==> ThreadRefs(threads[id], users, developers, platforms, languages))
      && Joins(threadImages, threads, images)
      && Joins(threadLinks, threads, links)
      && Joins(threadTags, threads, tags)
      && Joins(threadPrefixes, threads, prefixes)
    }
  }

  function EmptyDb(): (db: Db)
    ensures db.Valid()
  {
    Db(Users(map[], 1), EmptyTable(), EmptyTable(), EmptyTable(), EmptyTable(), EmptyTable(),
       EmptyTable(), EmptyTable(), map[], EmptyTable(), EmptyTable(), EmptyTable(), EmptyTable())
  }
}
