/**
 * `insert_thread`: every entity the parsed thread mentions is looked up by
 * its natural key and created when absent, the thread row is created or has
 * its mutable columns refreshed, and the junction rows linking the thread to
 * its tags, links and images are added when absent. `Import` states the
 * resulting database as a value; `Store.InsertThread` performs the same
 * updates in place, list by list, as the source does.
 */
module Importer {
  import opened Wrappers
  import opened Schema
  import Normalise

  /** The thread columns that come from the page and the metadata, not from the lookups. */
  datatype ThreadFields = ThreadFields(
    canonical: Option<string>,
    title: Option<string>,
    rating: Option<real>,
    date: Option<int>,
    edited: Option<int>,
    overview: Option<string>,
    censorship: Option<string>,
    version: Option<string>,
    views: Option<int>,
    likes: Option<int>,
    votes: Option<int>,
    prefixes: Option<string>,
    pages: Option<int>,
    imageCover: Option<string>)

  /** The keys `insert_thread` pops from the thread dictionary, and the columns left in it. */
  datatype Record = Record(
    id: int,
    userId: Option<int>,
    userName: Option<string>,
    userUrl: Option<string>,
    tags: Normalise.TagDict,         // (name, url), in dict order
    links: seq<string>,              // download urls
    images: seq<(string, string)>,   // (name, url)
    developer: Option<string>,
    platform: Option<string>,
    language: Option<string>,
    fields: ThreadFields)

  // ------------------------------------------------------------ resolve or create

  /** `u` is `t` with rows added: no row is removed or changed, and no key moves. */
  ghost predicate Extends<K, A>(t: Table<K, A>, u: Table<K, A>) {
    && (forall id :: id in t.rows ==> id in u.rows && u.rows[id] == t.rows[id])
    && (forall k :: k in t.index ==> k in u.index && u.index[k] == t.index[k])
    && t.next <= u.next
  }

  lemma ExtendsTrans<K, A>(t: Table<K, A>, u: Table<K, A>, w: Table<K, A>)
    requires Extends(t, u) && Extends(u, w)
    ensures Extends(t, w)
  {
  }

  /** `query(...).filter(key == k).one()`, or on `NoResultFound` a new row `(k, a)` with a fresh id. */
  function Resolve<K(==), A>(t: Table<K, A>, k: K, a: A): (Table<K, A>, int) {
    if k in t.index then (t, t.index[k])
    else (Table(t.rows[t.next := (k, a)], t.index[k := t.next], t.next + 1), t.next)
  }

  /** The key's row exists afterwards; an existing row is reused untouched, otherwise one fresh row is added. */
  lemma ResolveSpec<K, A>(t: Table<K, A>, k: K, a: A)
    requires t.Valid()
    ensures var r := Resolve(t, k, a);
      && r.0.Valid() && Extends(t, r.0)
      && k in r.0.index && r.0.index[k] == r.1
      && (k in t.index ==> r.0 == t)
      && (k !in t.index ==> r.1 !in t.rows && r.0.rows == t.rows[r.1 := (k, a)])
  {
    if k !in t.index {
      var u := Resolve(t, k, a).0;
      assert t.next !in t.rows;
      assert |u.rows| == |t.rows| + 1;
      assert |u.index| == |t.index| + 1;
    }
  }

  /** The index only grows: existing keys keep their ids and `k` maps to the returned id. */
  lemma ResolveIndex<K, A>(t: Table<K, A>, k: K, a: A)
    ensures var r := Resolve(t, k, a);
      && r.0.index.Keys == t.index.Keys + {k}
      && k in r.0.index && r.0.index[k] == r.1
      && (forall k' :: k' in t.index ==> k' in r.0.index && r.0.index[k'] == t.index[k'])
  {
  }

  /** One resolve per item, in order, collecting the ids. */
  function ResolveAll<K(==), A>(t: Table<K, A>, items: seq<(K, A)>): (Table<K, A>, seq<int>)
    decreases |items|
  {
    if items == [] then (t, [])
    else
      var n := |items| - 1;
      var (u, ids) := ResolveAll(t, items[..n]);
      var (w, id) := Resolve(u, items[n].0, items[n].1);
      (w, ids + [id])
  }

  /** The natural keys of a list of items. */
  function KeysOf<K(==), A>(items: seq<(K, A)>): set<K> {
    set i | 0 <= i < |items| :: items[i].0
  }

  lemma KeysOfSnoc<K, A>(items: seq<(K, A)>)
    requires items != []
    ensures KeysOf(items) == KeysOf(items[..|items| - 1]) + {items[|items| - 1].0}
  {
    var n := |items| - 1;
    assert forall i :: 0 <= i < n ==> items[..n][i] == items[i];
  }

  /** Resolving a list keeps the table valid and only adds rows. */
  lemma {:induction false} ResolveAllSpec<K, A>(t: Table<K, A>, items: seq<(K, A)>)
    requires t.Valid()
    ensures var r := ResolveAll(t, items); r.0.Valid() && Extends(t, r.0) && |r.1| == |items|
    decreases |items|
  {
    if items != [] {
      var n := |items| - 1;
      var r := ResolveAll(t, items[..n]);
      ResolveAllSpec(t, items[..n]);
      var w := Resolve(r.0, items[n].0, items[n].1);
      ResolveSpec(r.0, items[n].0, items[n].1);
      assert ResolveAll(t, items) == (w.0, r.1 + [w.1]);
      ExtendsTrans(t, r.0, w.0);
    }
  }

  /** The indexed keys grow by exactly the list's keys. */
  lemma {:induction false} ResolveAllKeys<K, A>(t: Table<K, A>, items: seq<(K, A)>)
    ensures ResolveAll(t, items).0.index.Keys == t.index.Keys + KeysOf(items)
    decreases |items|
  {
    if items != [] {
      var n := |items| - 1;
      var r := ResolveAll(t, items[..n]);
      ResolveAllKeys(t, items[..n]);
      var w := Resolve(r.0, items[n].0, items[n].1);
      ResolveIndex(r.0, items[n].0, items[n].1);
      assert ResolveAll(t, items) == (w.0, r.1 + [w.1]);
      KeysOfSnoc(items);
    }
  }

  /** Each returned id is the row of its item's key in the final table. */
  lemma {:induction false} ResolveAllIds<K, A>(t: Table<K, A>, items: seq<(K, A)>)
    ensures var r := ResolveAll(t, items);
      && |r.1| == |items|
      && (forall i :: 0 <= i < |items| ==> items[i].0 in r.0.index && r.1[i] == r.0.index[items[i].0])
    decreases |items|
  {
    if items != [] {
      var n := |items| - 1;
      var r := ResolveAll(t, items[..n]);
      ResolveAllIds(t, items[..n]);
      var w := Resolve(r.0, items[n].0, items[n].1);
      ResolveIndex(r.0, items[n].0, items[n].1);
      var ids := r.1 + [w.1];
      assert ResolveAll(t, items) == (w.0, ids);
      forall i | 0 <= i < |items|
        ensures items[i].0 in w.0.index && ids[i] == w.0.index[items[i].0]
      {
        if i < n {
          assert items[..n][i] == items[i];
          assert ids[i] == r.1[i];
        }
      }
    }
  }

  /** Duplicate keys and keys already present add no rows: exactly one row per new distinct key. */
  lemma ResolveAllCount<K, A>(t: Table<K, A>, items: seq<(K, A)>)
    requires t.Valid()
    ensures |ResolveAll(t, items).0.rows| == |t.rows| + |KeysOf(items) - t.index.Keys|
  {
    ResolveAllSpec(t, items);
    ResolveAllKeys(t, items);
    var u := ResolveAll(t, items).0;
    var old_ := t.index.Keys;
    var new_ := KeysOf(items) - old_;
    assert u.index.Keys == old_ + new_;
    assert old_ * new_ == {};
    assert |u.index.Keys| == |old_| + |new_|;
  }

  /** Resolving keys that are all present changes nothing. */
  lemma {:induction false} ResolveAllPresent<K, A>(t: Table<K, A>, items: seq<(K, A)>)
    requires KeysOf(items) <= t.index.Keys
    ensures ResolveAll(t, items).0 == t
    decreases |items|
  {
    if items != [] {
      var n := |items| - 1;
      assert KeysOf(items[..n]) <= KeysOf(items) by {
        assert forall i :: 0 <= i < n ==> items[..n][i] == items[i];
      }
      ResolveAllPresent(t, items[..n]);
      assert items[n].0 in KeysOf(items);
    }
  }

  /** Resolving the same list again finds every row and returns the same ids. */
  lemma ResolveAllAgain<K, A>(t: Table<K, A>, items: seq<(K, A)>)
    ensures var r := ResolveAll(t, items); ResolveAll(r.0, items) == r
  {
    var r := ResolveAll(t, items);
    ResolveAllKeys(t, items);
    ResolveAllPresent(r.0, items);
    ResolveAllIds(t, items);
    ResolveAllIds(r.0, items);
    var r2 := ResolveAll(r.0, items);
    assert r2.0 == r.0;
    assert forall i :: 0 <= i < |r.1| ==> r2.1[i] == r.1[i];
    assert r2.1 == r.1;
  }

  lemma ResolveAgain<K, A>(t: Table<K, A>, k: K, a: A)
    ensures var r := Resolve(t, k, a); Resolve(r.0, k, a) == r
  {
  }

  /** The user lookup: an id that is `None` never matches (`IS NULL` on a primary key), so it always creates. */
  function ResolveUser(users: Users, id: Option<int>, name: Option<string>, url: Option<string>): (Users, int) {
    match id
    case Some(u) =>
      if u in users.rows then (users, u)
      else (Users(users.rows[u := UserRow(name, url)], if u < users.next then users.next else u + 1), u)
    case None =>
      (Users(users.rows[users.next := UserRow(name, url)], users.next + 1), users.next)
  }

  /** The returned user row exists afterwards; a known id is itself the row's id and an existing row is reused. */
  lemma ResolveUserFound(users: Users, id: Option<int>, name: Option<string>, url: Option<string>)
    ensures var (v, uid) := ResolveUser(users, id, name, url);
      && uid in v.rows
      && (id.Some? ==> uid == id.value)
      && (id.Some? && id.value in users.rows ==> v == users)
  {
  }

  lemma ResolveUserSpec(users: Users, id: Option<int>, name: Option<string>, url: Option<string>)
    requires users.Valid()
    ensures var (v, uid) := ResolveUser(users, id, name, url);
      && v.Valid() && uid in v.rows
      && (forall x :: x in users.rows ==> x in v.rows && v.rows[x] == users.rows[x])
      && (id.Some? ==> uid == id.value)
      && (id.Some? && id.value in users.rows ==> v == users)
      && (id.None? || id.value !in users.rows ==> uid !in users.rows && v.rows == users.rows[uid := UserRow(name, url)])
  {
  }

  // ------------------------------------------------------------------ the thread

  /** The new thread row: the record's columns and the resolved ids. */
  function NewThread(f: ThreadFields, userId: int, developerId: int, platformId: int, languageId: int): ThreadRow {
    ThreadRow(f.canonical, f.title, userId, f.rating, f.date, f.edited, f.overview, developerId, platformId,
              f.censorship, languageId, f.version, f.views, f.likes, f.votes, f.prefixes, f.pages, f.imageCover)
  }

  /** An existing thread: only edited, views, votes, likes, pages, version and rating are overwritten. */
  function Merge(t: ThreadRow, f: ThreadFields): ThreadRow {
    t.(edited := f.edited, views := f.views, votes := f.votes, likes := f.likes, pages := f.pages,
       version := f.version, rating := f.rating)
  }

  /** The columns `insert_thread` refreshes, and the ones it never touches on an existing thread. */
  datatype Mutable = Mutable(
    edited: Option<int>, views: Option<int>, votes: Option<int>, likes: Option<int>,
    pages: Option<int>, version: Option<string>, rating: Option<real>)

  datatype Fixed = Fixed(
    canonical: Option<string>, title: Option<string>, userId: int, date: Option<int>,
    overview: Option<string>, developerId: int, platformId: int, censorship: Option<string>,
    languageId: int, prefixes: Option<string>, imageCover: Option<string>)

  function MutableOf(t: ThreadRow): Mutable {
    Mutable(t.edited, t.views, t.votes, t.likes, t.pages, t.version, t.rating)
  }

  function MutableFields(f: ThreadFields): Mutable {
    Mutable(f.edited, f.views, f.votes, f.likes, f.pages, f.version, f.rating)
  }

  function FixedOf(t: ThreadRow): Fixed {
    Fixed(t.canonical, t.title, t.userId, t.date, t.overview, t.developerId, t.platformId, t.censorship,
          t.languageId, t.prefixes, t.imageCover)
  }

  /** The two projections together determine a row. */
  lemma RowOfParts(a: ThreadRow, b: ThreadRow)
    requires MutableOf(a) == MutableOf(b) && FixedOf(a) == FixedOf(b)
    ensures a == b
  {
  }

  lemma MergeSpec(t: ThreadRow, f: ThreadFields)
    ensures MutableOf(Merge(t, f)) == MutableFields(f)
    ensures FixedOf(Merge(t, f)) == FixedOf(t)
    ensures MutableOf(t) == MutableFields(f) ==> Merge(t, f) == t
  {
  }

  /** The new row holds exactly the record's columns and the resolved ids. */
  lemma NewThreadSpec(f: ThreadFields, userId: int, developerId: int, platformId: int, languageId: int)
    ensures var t := NewThread(f, userId, developerId, platformId, languageId);
      && MutableOf(t) == MutableFields(f)
      && FixedOf(t) == Fixed(f.canonical, f.title, userId, f.date, f.overview, developerId, platformId,
                             f.censorship, languageId, f.prefixes, f.imageCover)
  {
  }

  // ------------------------------------------------------------------ the import

  /** The image table is keyed by url; its other column is the name. */
  function ImageItems(images: seq<(string, string)>): seq<(string, string)> {
    seq(|images|, i requires 0 <= i < |images| => (images[i].1, images[i].0))
  }

  function LinkItems(links: seq<string>): seq<(string, ())> {
    seq(|links|, i requires 0 <= i < |links| => (links[i], ()))
  }

  /** The junction keys linking thread `tid` to each id. */
  function Pairs(tid: int, ids: seq<int>): seq<((int, int), ())> {
    seq(|ids|, i requires 0 <= i < |ids| => ((tid, ids[i]), ()))
  }

  /** The users, tags, links, images, developer, platform and language after the lookups, with the ids found. */
  datatype Resolved = Resolved(
    users: Users, userId: int,
    tags: Table<string, string>, tagIds: seq<int>,
    links: Table<string, ()>, linkIds: seq<int>,
    images: Table<string, string>, imageIds: seq<int>,
    developers: Table<Option<string>, ()>, developerId: int,
    platforms: Table<Option<string>, ()>, platformId: int,
    languages: Table<Option<string>, ()>, languageId: int)

  function ResolveEntities(db: Db, rec: Record): Resolved {
    var user := ResolveUser(db.users, rec.userId, rec.userName, rec.userUrl);
    var tags := ResolveAll(db.tags, rec.tags);
    var links := ResolveAll(db.links, LinkItems(rec.links));
    var images := ResolveAll(db.images, ImageItems(rec.images));
    var developer := Resolve(db.developers, rec.developer, ());
    var platform := Resolve(db.platforms, rec.platform, ());
    var language := Resolve(db.languages, rec.language, ());
    Resolved(user.0, user.1, tags.0, tags.1, links.0, links.1, images.0, images.1,
             developer.0, developer.1, platform.0, platform.1, language.0, language.1)
  }

  /** The thread table after the thread is merged or created. */
  function ThreadAfter(threads: map<int, ThreadRow>, rec: Record, e: Resolved): map<int, ThreadRow> {
    if rec.id in threads then threads[rec.id := Merge(threads[rec.id], rec.fields)]
    else threads[rec.id := NewThread(rec.fields, e.userId, e.developerId, e.platformId, e.languageId)]
  }

  /** One junction row per id, inserted when absent. */
  function LinkAll(j: Junction, tid: int, ids: seq<int>): Junction {
    ResolveAll(j, Pairs(tid, ids)).0
  }

  /** The database after `insert_thread(rec)` commits. */
  function Import(db: Db, rec: Record): Db {
    var e := ResolveEntities(db, rec);
    Db(e.users, db.prefixes, e.tags, e.images, e.developers, e.platforms, e.links, e.languages,
       ThreadAfter(db.threads, rec, e),
       LinkAll(db.threadImages, rec.id, e.imageIds),
       LinkAll(db.threadLinks, rec.id, e.linkIds),
       LinkAll(db.threadTags, rec.id, e.tagIds),
       db.threadPrefixes)
  }

  // ------------------------------------------------------- properties of the import

  /** The lookups keep every table valid, delete nothing, and return ids of existing rows. */
  lemma ResolveEntitiesSpec(db: Db, rec: Record)
    requires db.Valid()
    ensures var e := ResolveEntities(db, rec);
      && e.users.Valid() && e.userId in e.users.rows
      && (forall x :: x in db.users.rows ==> x in e.users.rows && e.users.rows[x] == db.users.rows[x])
      && e.tags.Valid() && Extends(db.tags, e.tags)
      && e.links.Valid() && Extends(db.links, e.links)
      && e.images.Valid() && Extends(db.images, e.images)
      && e.developers.Valid() && Extends(db.developers, e.developers) && e.developerId in e.developers.rows
      && e.platforms.Valid() && Extends(db.platforms, e.platforms) && e.platformId in e.platforms.rows
      && e.languages.Valid() && Extends(db.languages, e.languages) && e.languageId in e.languages.rows
      && (forall i :: 0 <= i < |e.tagIds| ==> e.tagIds[i] in e.tags.rows)
      && (forall i :: 0 <= i < |e.linkIds| ==> e.linkIds[i] in e.links.rows)
      && (forall i :: 0 <= i < |e.imageIds| ==> e.imageIds[i] in e.images.rows)
  {
    ResolveUserSpec(db.users, rec.userId, rec.userName, rec.userUrl);
    ResolveAllSpec(db.tags, rec.tags);
    ResolveAllIds(db.tags, rec.tags);
    ResolveAllSpec(db.links, LinkItems(rec.links));
    ResolveAllIds(db.links, LinkItems(rec.links));
    ResolveAllSpec(db.images, ImageItems(rec.images));
    ResolveAllIds(db.images, ImageItems(rec.images));
    ResolveSpec(db.developers, rec.developer, ());
    ResolveSpec(db.platforms, rec.platform, ());
    ResolveSpec(db.languages, rec.language, ());
  }

  /** Junction rows added for thread `tid` and existing related rows keep every junction row pointing at existing rows. */
  lemma JoinsAfter<K, A>(
    j: Junction, threads: map<int, ThreadRow>, related: Table<K, A>,
    threads': map<int, ThreadRow>, related': Table<K, A>, tid: int, ids: seq<int>)
    requires j.Valid() && Joins(j, threads, related)
    requires threads.Keys <= threads'.Keys && related.rows.Keys <= related'.rows.Keys
    requires tid in threads' && forall i :: 0 <= i < |ids| ==> ids[i] in related'.rows
    ensures Joins(LinkAll(j, tid, ids), threads', related')
  {
    var j' := LinkAll(j, tid, ids);
    ResolveAllSpec(j, Pairs(tid, ids));
    ResolveAllKeys(j, Pairs(tid, ids));
    forall id | id in j'.rows ensures j'.rows[id].0.0 in threads' && j'.rows[id].0.1 in related'.rows {
      var k := j'.rows[id].0;
      if k in j.index {
        assert j.index[k] in j.rows;
      } else {
        assert k in KeysOf(Pairs(tid, ids));
        var i :| 0 <= i < |Pairs(tid, ids)| && Pairs(tid, ids)[i].0 == k;
        assert k == (tid, ids[i]);
      }
    }
  }

  /** Every thread row still names an existing user, developer, platform and language. */
  lemma ImportRefs(db: Db, rec: Record)
    requires db.Valid()
    ensures var r := Import(db, rec);
      forall id :: id in r.threads ==> ThreadRefs(r.threads[id], r.users, r.developers, r.platforms, r.languages)
  {
    var e := ResolveEntities(db, rec);
    ResolveEntitiesSpec(db, rec);
    var threads := ThreadAfter(db.threads, rec, e);
    forall id | id in threads ensures ThreadRefs(threads[id], e.users, e.developers, e.platforms, e.languages) {
      if id == rec.id && rec.id in db.threads {
        assert FixedOf(threads[id]) == FixedOf(db.threads[id]);
        assert ThreadRefs(db.threads[id], db.users, db.developers, db.platforms, db.languages);
      } else if id != rec.id {
        assert ThreadRefs(db.threads[id], db.users, db.developers, db.platforms, db.languages);
      }
    }
  }

  /** Linking a thread to the rows resolved from a list keeps the junction's references valid. */
  lemma LinkJoins<K, A>(
    j: Junction, threads: map<int, ThreadRow>, related: Table<K, A>, items: seq<(K, A)>,
    threads': map<int, ThreadRow>, tid: int)
    requires j.Valid() && related.Valid() && Joins(j, threads, related)
    requires threads.Keys <= threads'.Keys && tid in threads'
    ensures var r := ResolveAll(related, items);
      Joins(LinkAll(j, tid, r.1), threads', r.0)
  {
    var r := ResolveAll(related, items);
    ResolveAllSpec(related, items);
    ResolveAllIds(related, items);
    assert forall i :: 0 <= i < |r.1| ==> r.1[i] in r.0.rows by {
      forall i | 0 <= i < |r.1| ensures r.1[i] in r.0.rows {
        assert r.0.index[items[i].0] in r.0.rows;
      }
    }
    assert related.rows.Keys <= r.0.rows.Keys by {
      forall id | id in related.rows ensures id in r.0.rows { }
    }
    JoinsAfter(j, threads, related, threads', r.0, tid, r.1);
  }

  /** Every junction row still names an existing thread and an existing related row. */
  lemma ImportJoins(db: Db, rec: Record)
    requires db.Valid()
    ensures var r := Import(db, rec);
      && Joins(r.threadImages, r.threads, r.images)
      && Joins(r.threadLinks, r.threads, r.links)
      && Joins(r.threadTags, r.threads, r.tags)
      && Joins(r.threadPrefixes, r.threads, r.prefixes)
  {
    var e := ResolveEntities(db, rec);
    var threads := ThreadAfter(db.threads, rec, e);
    assert db.threads.Keys <= threads.Keys && rec.id in threads;
    LinkJoins(db.threadImages, db.threads, db.images, ImageItems(rec.images), threads, rec.id);
    LinkJoins(db.threadLinks, db.threads, db.links, LinkItems(rec.links), threads, rec.id);
    LinkJoins(db.threadTags, db.threads, db.tags, rec.tags, threads, rec.id);
  }

  /** The import keeps every unique constraint and referential integrity. */
  lemma ImportValid(db: Db, rec: Record)
    requires db.Valid()
    ensures Import(db, rec).Valid()
  {
    var e := ResolveEntities(db, rec);
    ResolveEntitiesSpec(db, rec);
    ImportRefs(db, rec);
    ImportJoins(db, rec);
    ResolveAllSpec(db.threadImages, Pairs(rec.id, e.imageIds));
    ResolveAllSpec(db.threadLinks, Pairs(rec.id, e.linkIds));
    ResolveAllSpec(db.threadTags, Pairs(rec.id, e.tagIds));
  }

  /** Nothing is deleted: old entity rows keep their ids and contents. */
  lemma ImportKeeps(db: Db, rec: Record)
    requires db.Valid()
    ensures var r := Import(db, rec);
      && (forall x :: x in db.users.rows ==> x in r.users.rows && r.users.rows[x] == db.users.rows[x])
      && Extends(db.tags, r.tags) && Extends(db.links, r.links) && Extends(db.images, r.images)
      && Extends(db.developers, r.developers) && Extends(db.platforms, r.platforms)
      && Extends(db.languages, r.languages)
      && r.prefixes == db.prefixes
  {
    ResolveUserSpec(db.users, rec.userId, rec.userName, rec.userUrl);
    ResolveAllSpec(db.tags, rec.tags);
    ResolveAllSpec(db.links, LinkItems(rec.links));
    ResolveAllSpec(db.images, ImageItems(rec.images));
    ResolveSpec(db.developers, rec.developer, ());
    ResolveSpec(db.platforms, rec.platform, ());
    ResolveSpec(db.languages, rec.language, ());
  }

  /** No junction row is deleted. */
  lemma ImportKeepsJunctions(db: Db, rec: Record)
    requires db.threadImages.Valid() && db.threadLinks.Valid() && db.threadTags.Valid()
    ensures var r := Import(db, rec);
      && Extends(db.threadTags, r.threadTags) && Extends(db.threadLinks, r.threadLinks)
      && Extends(db.threadImages, r.threadImages) && r.threadPrefixes == db.threadPrefixes
  {
    var e := ResolveEntities(db, rec);
    ResolveAllSpec(db.threadImages, Pairs(rec.id, e.imageIds));
    ResolveAllSpec(db.threadLinks, Pairs(rec.id, e.linkIds));
    ResolveAllSpec(db.threadTags, Pairs(rec.id, e.tagIds));
  }

  /** No thread is deleted, and only the imported thread's row can change. */
  lemma ImportKeepsThreads(db: Db, rec: Record)
    ensures var r := Import(db, rec);
      && db.threads.Keys + {rec.id} == r.threads.Keys
      && (forall id :: id in db.threads && id != rec.id ==> r.threads[id] == db.threads[id])
  {
  }

  /** A key resolved through a list ends up indexed, and the thread is linked to its row. */
  lemma LinkedKeys<K, A>(related: Table<K, A>, items: seq<(K, A)>, j: Junction, tid: int)
    ensures var r := ResolveAll(related, items);
      forall i :: 0 <= i < |items| ==>
        items[i].0 in r.0.index && (tid, r.0.index[items[i].0]) in LinkAll(j, tid, r.1).index
  {
    var r := ResolveAll(related, items);
    ResolveAllIds(related, items);
    ResolveAllIds(j, Pairs(tid, r.1));
    forall i | 0 <= i < |items|
      ensures items[i].0 in r.0.index && (tid, r.0.index[items[i].0]) in LinkAll(j, tid, r.1).index
    {
      assert Pairs(tid, r.1)[i].0 == (tid, r.1[i]);
    }
  }

  /** Every tag, link and image of the record has its row, and the thread has its junction row to it. */
  lemma ImportLinks(db: Db, rec: Record)
    ensures var r := Import(db, rec);
      && (forall i :: 0 <= i < |rec.tags| ==>
            rec.tags[i].0 in r.tags.index && (rec.id, r.tags.index[rec.tags[i].0]) in r.threadTags.index)
      && (forall i :: 0 <= i < |rec.links| ==>
            rec.links[i] in r.links.index && (rec.id, r.links.index[rec.links[i]]) in r.threadLinks.index)
      && (forall i :: 0 <= i < |rec.images| ==>
            rec.images[i].1 in r.images.index && (rec.id, r.images.index[rec.images[i].1]) in r.threadImages.index)
      && rec.developer in r.developers.index && rec.platform in r.platforms.index
      && rec.language in r.languages.index
  {
    LinkedKeys(db.tags, rec.tags, db.threadTags, rec.id);
    LinkedKeys(db.links, LinkItems(rec.links), db.threadLinks, rec.id);
    LinkedKeys(db.images, ImageItems(rec.images), db.threadImages, rec.id);
    ResolveIndex(db.developers, rec.developer, ());
    ResolveIndex(db.platforms, rec.platform, ());
    ResolveIndex(db.languages, rec.language, ());
    var items := ImageItems(rec.images);
    assert forall i :: 0 <= i < |rec.images| ==> items[i].0 == rec.images[i].1;
    var links := LinkItems(rec.links);
    assert forall i :: 0 <= i < |rec.links| ==> links[i].0 == rec.links[i];
  }

  /** Rows are added only for keys not seen before, once per distinct key. */
  lemma ImportCounts(db: Db, rec: Record)
    requires db.Valid()
    ensures var r := Import(db, rec);
      && |r.tags.rows| == |db.tags.rows| + |KeysOf(rec.tags) - db.tags.index.Keys|
      && |r.links.rows| == |db.links.rows| + |KeysOf(LinkItems(rec.links)) - db.links.index.Keys|
      && |r.images.rows| == |db.images.rows| + |KeysOf(ImageItems(rec.images)) - db.images.index.Keys|
  {
    ResolveAllCount(db.tags, rec.tags);
    ResolveAllCount(db.links, LinkItems(rec.links));
    ResolveAllCount(db.images, ImageItems(rec.images));
  }

  /**
   * An existing thread gets only its mutable columns from the record and keeps
   * its user, developer, platform and language ids; a new thread is built from
   * the record and the resolved ids: the record's user id when it has one, a
   * row created under a fresh id when it has none, and an existing developer
   * row when one has the record's name.
   */
  lemma ImportThread(db: Db, rec: Record)
    ensures var r := Import(db, rec);
      && rec.id in r.threads
      && MutableOf(r.threads[rec.id]) == MutableFields(rec.fields)
      && (rec.id in db.threads ==> FixedOf(r.threads[rec.id]) == FixedOf(db.threads[rec.id]))
      && (rec.id !in db.threads ==>
            var t := r.threads[rec.id];
            && t == NewThread(rec.fields, t.userId, t.developerId, t.platformId, t.languageId)
            && t.userId in r.users.rows && (rec.userId.Some? ==> t.userId == rec.userId.value)
            && t.userId == ResolveUser(db.users, rec.userId, rec.userName, rec.userUrl).1
            && (db.users.Valid() && rec.userId.None? ==> t.userId !in db.users.rows)
            && (rec.developer in db.developers.index ==> t.developerId == db.developers.index[rec.developer])
            && rec.developer in r.developers.index && t.developerId == r.developers.index[rec.developer]
            && rec.platform in r.platforms.index && t.platformId == r.platforms.index[rec.platform]
            && rec.language in r.languages.index && t.languageId == r.languages.index[rec.language])
  {
    ResolveUserFound(db.users, rec.userId, rec.userName, rec.userUrl);
    ResolveIndex(db.developers, rec.developer, ());
    ResolveIndex(db.platforms, rec.platform, ());
    ResolveIndex(db.languages, rec.language, ());
  }

  /** A second lookup of the same record finds every row the first one found or created. */
  lemma EntitiesAgain(db: Db, rec: Record)
    requires rec.userId.Some?
    ensures ResolveEntities(Import(db, rec), rec) == ResolveEntities(db, rec)
  {
    ResolveUserFound(db.users, rec.userId, rec.userName, rec.userUrl);
    ResolveAllAgain(db.tags, rec.tags);
    ResolveAllAgain(db.links, LinkItems(rec.links));
    ResolveAllAgain(db.images, ImageItems(rec.images));
    ResolveAgain(db.developers, rec.developer, ());
    ResolveAgain(db.platforms, rec.platform, ());
    ResolveAgain(db.languages, rec.language, ());
  }

  /** Importing the same record twice is the same as importing it once, when the user id is known. */
  lemma ImportIdempotent(db: Db, rec: Record)
    requires rec.userId.Some?
    ensures Import(Import(db, rec), rec) == Import(db, rec)
  {
    var r := Import(db, rec);
    var e := ResolveEntities(db, rec);
    EntitiesAgain(db, rec);
    ImportThread(db, rec);
    MergeSpec(r.threads[rec.id], rec.fields);
    assert ThreadAfter(r.threads, rec, e) == r.threads;
    ResolveAllAgain(db.threadImages, Pairs(rec.id, e.imageIds));
    ResolveAllAgain(db.threadLinks, Pairs(rec.id, e.linkIds));
    ResolveAllAgain(db.threadTags, Pairs(rec.id, e.tagIds));
  }

  /** Whatever the user id, a second import adds no tag, link, image, developer, platform, language or junction row. */
  lemma ImportAgainAddsNoRows(db: Db, rec: Record)
    ensures var r := Import(db, rec); var r2 := Import(r, rec);
      && r2.tags == r.tags && r2.links == r.links && r2.images == r.images
      && r2.developers == r.developers && r2.platforms == r.platforms && r2.languages == r.languages
      && r2.threadTags == r.threadTags && r2.threadLinks == r.threadLinks && r2.threadImages == r.threadImages
  {
    var e := ResolveEntities(db, rec);
    ResolveAllAgain(db.tags, rec.tags);
    ResolveAllAgain(db.links, LinkItems(rec.links));
    ResolveAllAgain(db.images, ImageItems(rec.images));
    ResolveAgain(db.developers, rec.developer, ());
    ResolveAgain(db.platforms, rec.platform, ());
    ResolveAgain(db.languages, rec.language, ());
    ResolveAllAgain(db.threadImages, Pairs(rec.id, e.imageIds));
    ResolveAllAgain(db.threadLinks, Pairs(rec.id, e.linkIds));
    ResolveAllAgain(db.threadTags, Pairs(rec.id, e.tagIds));
  }

  /** Without a user id the lookup never matches: every import adds a user, so it is not idempotent. */
  lemma ImportAnonymous(db: Db, rec: Record)
    requires db.Valid() && rec.userId.None?
    ensures |Import(db, rec).users.rows| == |db.users.rows| + 1
    ensures Import(Import(db, rec), rec) != Import(db, rec)
  {
    var r := Import(db, rec);
    ResolveUserSpec(db.users, rec.userId, rec.userName, rec.userUrl);
    ImportValid(db, rec);
    ResolveUserSpec(r.users, rec.userId, rec.userName, rec.userUrl);
    assert |Import(r, rec).users.rows| == |r.users.rows| + 1;
  }

  // --------------------------------------------------------- the session, in place

  /** The database one session works on: a field per table, each updated in place. */
  class Store {
    var users: Users
    var prefixes: Table<string, Option<string>>
    var tags: Table<string, string>
    var images: Table<string, string>
    var developers: Table<Option<string>, ()>
    var platforms: Table<Option<string>, ()>
    var links: Table<string, ()>
    var languages: Table<Option<string>, ()>
    var threads: map<int, ThreadRow>
    var threadImages: Junction
    var threadLinks: Junction
    var threadTags: Junction
    var threadPrefixes: Junction

    function State(): Db
      reads this
    {
      Db(users, prefixes, tags, images, developers, platforms, links, languages, threads,
         threadImages, threadLinks, threadTags, threadPrefixes)
    }

    ghost predicate Valid()
      reads this
    {
      State().Valid()
    }

    /** A freshly created database: every table empty. */
    constructor ()
      ensures State() == EmptyDb() && Valid()
    {
      users := Users(map[], 1);
      prefixes := EmptyTable();
      tags := EmptyTable();
      images := EmptyTable();
      developers := EmptyTable();
      platforms := EmptyTable();
      links := EmptyTable();
      languages := EmptyTable();
      threads := map[];
      threadImages := EmptyTable();
      threadLinks := EmptyTable();
      threadTags := EmptyTable();
      threadPrefixes := EmptyTable();
    }

    /** The tag loop: each (name, url) is looked up by name or created, and its id collected. */
    method ResolveTags(items: Normalise.TagDict) returns (tagidlist: seq<int>)
      modifies this
      ensures State() == old(State()).(tags := ResolveAll(old(tags), items).0)
      ensures tagidlist == ResolveAll(old(tags), items).1
    {
      tagidlist := [];
      for i := 0 to |items|
        invariant State() == old(State()).(tags := ResolveAll(old(tags), items[..i]).0)
        invariant tagidlist == ResolveAll(old(tags), items[..i]).1
      {
        assert items[..i + 1][..i] == items[..i];
        var tag := Resolve(tags, items[i].0, items[i].1);
        tags := tag.0;
        tagidlist := tagidlist + [tag.1];
      }
      assert items[..|items|] == items;
    }

    /** The link loop: each url is looked up or created, and its id collected. */
    method ResolveLinks(urls: seq<string>) returns (linkidlist: seq<int>)
      modifies this
      ensures State() == old(State()).(links := ResolveAll(old(links), LinkItems(urls)).0)
      ensures linkidlist == ResolveAll(old(links), LinkItems(urls)).1
    {
      linkidlist := [];
      ghost var items := LinkItems(urls);
      for i := 0 to |urls|
        invariant State() == old(State()).(links := ResolveAll(old(links), items[..i]).0)
        invariant linkidlist == ResolveAll(old(links), items[..i]).1
      {
        assert items[..i + 1][..i] == items[..i];
        assert items[i] == (urls[i], ());
        var link := Resolve(links, urls[i], ());
        links := link.0;
        linkidlist := linkidlist + [link.1];
      }
      assert items[..|urls|] == items;
    }

    /** The image loop: each (name, url) is looked up by url or created, and its id collected. */
    method ResolveImages(named: seq<(string, string)>) returns (imageidlist: seq<int>)
      modifies this
      ensures State() == old(State()).(images := ResolveAll(old(images), ImageItems(named)).0)
      ensures imageidlist == ResolveAll(old(images), ImageItems(named)).1
    {
      imageidlist := [];
      ghost var items := ImageItems(named);
      for i := 0 to |named|
        invariant State() == old(State()).(images := ResolveAll(old(images), items[..i]).0)
        invariant imageidlist == ResolveAll(old(images), items[..i]).1
      {
        assert items[..i + 1][..i] == items[..i];
        assert items[i] == (named[i].1, named[i].0);
        var image := Resolve(images, named[i].1, named[i].0);
        images := image.0;
        imageidlist := imageidlist + [image.1];
      }
      assert items[..|named|] == items;
    }

    /** A junction loop: thread `tid` is linked to each tag id unless already linked. */
    method LinkTags(tid: int, ids: seq<int>)
      modifies this
      ensures State() == old(State()).(threadTags := LinkAll(old(threadTags), tid, ids))
    {
      ghost var pairs := Pairs(tid, ids);
      for j := 0 to |ids|
        invariant State() == old(State()).(threadTags := ResolveAll(old(threadTags), pairs[..j]).0)
      {
        assert pairs[..j + 1][..j] == pairs[..j];
        assert pairs[j] == ((tid, ids[j]), ());
        threadTags := Resolve(threadTags, (tid, ids[j]), ()).0;
      }
      assert pairs[..|ids|] == pairs;
    }

    method LinkLinks(tid: int, ids: seq<int>)
      modifies this
      ensures State() == old(State()).(threadLinks := LinkAll(old(threadLinks), tid, ids))
    {
      ghost var pairs := Pairs(tid, ids);
      for j := 0 to |ids|
        invariant State() == old(State()).(threadLinks := ResolveAll(old(threadLinks), pairs[..j]).0)
      {
        assert pairs[..j + 1][..j] == pairs[..j];
        assert pairs[j] == ((tid, ids[j]), ());
        threadLinks := Resolve(threadLinks, (tid, ids[j]), ()).0;
      }
      assert pairs[..|ids|] == pairs;
    }

    method LinkImages(tid: int, ids: seq<int>)
      modifies this
      ensures State() == old(State()).(threadImages := LinkAll(old(threadImages), tid, ids))
    {
      ghost var pairs := Pairs(tid, ids);
      for j := 0 to |ids|
        invariant State() == old(State()).(threadImages := ResolveAll(old(threadImages), pairs[..j]).0)
      {
        assert pairs[..j + 1][..j] == pairs[..j];
        assert pairs[j] == ((tid, ids[j]), ());
        threadImages := Resolve(threadImages, (tid, ids[j]), ()).0;
      }
      assert pairs[..|ids|] == pairs;
    }

    /** The tag, link and image lookups of `insert_thread`. */
    method LookupLists(rec: Record) returns (tagidlist: seq<int>, linkidlist: seq<int>, imageidlist: seq<int>)
      modifies this
      ensures State() == old(State()).(tags := ResolveAll(old(tags), rec.tags).0,
                                       links := ResolveAll(old(links), LinkItems(rec.links)).0,
                                       images := ResolveAll(old(images), ImageItems(rec.images)).0)
      ensures tagidlist == ResolveAll(old(tags), rec.tags).1
      ensures linkidlist == ResolveAll(old(links), LinkItems(rec.links)).1
      ensures imageidlist == ResolveAll(old(images), ImageItems(rec.images)).1
    {
      tagidlist := ResolveTags(rec.tags);
      linkidlist := ResolveLinks(rec.links);
      imageidlist := ResolveImages(rec.images);
    }

    /** The developer, platform and language lookups of `insert_thread`. */
    method LookupSingles(rec: Record) returns (developerId: int, platformId: int, languageId: int)
      modifies this
      ensures State() == old(State()).(developers := Resolve(old(developers), rec.developer, ()).0,
                                       platforms := Resolve(old(platforms), rec.platform, ()).0,
                                       languages := Resolve(old(languages), rec.language, ()).0)
      ensures developerId == Resolve(old(developers), rec.developer, ()).1
      ensures platformId == Resolve(old(platforms), rec.platform, ()).1
      ensures languageId == Resolve(old(languages), rec.language, ()).1
    {
      var developer := Resolve(developers, rec.developer, ());
      developers, developerId := developer.0, developer.1;
      var platform := Resolve(platforms, rec.platform, ());
      platforms, platformId := platform.0, platform.1;
      var language := Resolve(languages, rec.language, ());
      languages, languageId := language.0, language.1;
    }

    /** The lookups of `insert_thread`: user, tags, links, images, developer, platform, language. */
    method Lookups(rec: Record) returns (e: Resolved)
      modifies this
      ensures e == ResolveEntities(old(State()), rec)
      ensures State() == old(State()).(users := e.users, tags := e.tags, links := e.links, images := e.images,
                                       developers := e.developers, platforms := e.platforms, languages := e.languages)
    {
      var user := ResolveUser(users, rec.userId, rec.userName, rec.userUrl);
      users := user.0;
      var tagidlist, linkidlist, imageidlist := LookupLists(rec);
      var developerId, platformId, languageId := LookupSingles(rec);
      e := Resolved(users, user.1, tags, tagidlist, links, linkidlist, images, imageidlist,
                    developers, developerId, platforms, platformId, languages, languageId);
    }

    /** The thread merge or creation, then the three junction loops. */
    method Attach(rec: Record, e: Resolved)
      modifies this
      ensures State() == old(State()).(
        threads := ThreadAfter(old(threads), rec, e),
        threadImages := LinkAll(old(threadImages), rec.id, e.imageIds),
        threadLinks := LinkAll(old(threadLinks), rec.id, e.linkIds),
        threadTags := LinkAll(old(threadTags), rec.id, e.tagIds))
    {
      if rec.id in threads {
        threads := threads[rec.id := Merge(threads[rec.id], rec.fields)];
      } else {
        threads := threads[rec.id := NewThread(rec.fields, e.userId, e.developerId, e.platformId, e.languageId)];
      }
      LinkTags(rec.id, e.tagIds);
      LinkLinks(rec.id, e.linkIds);
      LinkImages(rec.id, e.imageIds);
    }

    /** `insert_thread`: the lookups, then the thread and its junction rows. */
    method InsertThread(rec: Record)
      requires Valid()
      modifies this
      ensures State() == Import(old(State()), rec)
      ensures Valid()
    {
      ghost var db := State();
      var e := Lookups(rec);
      Attach(rec, e);
      ImportValid(db, rec);
    }
  }
}
