/**
 * The data-access object of lib/api/database.ts. `XDatabase` connects once,
 * creates each collection handle lazily and at most once, and offers the
 * user lookups and updates and the waifu/series queries the API uses. The
 * contents of the three collections are fields of the object, in collection
 * (natural) order.
 */
module Database {
  import opened Base
  import opened Strings

  datatype Appearance = Appearance(slug: string, name: string)

  /** The fields of a waifu record that the API reads. */
  datatype Waifu = Waifu(name: string, slug: string, displayPicture: string, appearances: seq<Appearance>)

  /** The fields of a series record that the queries read. */
  datatype Series = Series(name: string, slug: string)

  /** A stored user: `_id`, `username` and the password hash. */
  datatype UserDoc = UserDoc(id: nat, username: string, password: string)

  /** A collection handle returned by `db.collection(name)`. */
  datatype Collection = Collection(name: string)

  const PageSize := 20

  /** The environment check of the constructor, with its two messages in order. */
  function ConstructorError(mongoUri: Option<string>, dbName: Option<string>): (e: Option<string>)
    ensures e.None? <==> Truthy(mongoUri) && Truthy(dbName)
    ensures !Truthy(mongoUri) ==> e == Some("Please add your Mongo URI to .env")
    ensures Truthy(mongoUri) && !Truthy(dbName) ==> e == Some("Please add your database name to .env")
  {
    if !Truthy(mongoUri) then Some("Please add your Mongo URI to .env")
    else if !Truthy(dbName) then Some("Please add your database name to .env")
    else None
  }

  /** `$gt: [{ $indexOfCP: [{ $toLower: "$name" }, q] }, -1]`: only the stored name is lowercased. */
  predicate NameLike(name: string, q: string) {
    Contains(ToLower(name), q)
  }

  function WaifusLikeName(ws: seq<Waifu>, q: string): seq<Waifu> {
    Keep(ws, (w: Waifu) => NameLike(w.name, q))
  }

  function SeriesLikeName(ss: seq<Series>, q: string): seq<Series> {
    Keep(ss, (s: Series) => NameLike(s.name, q))
  }

  /** The waifu query returns exactly the records whose lowercased name contains `q`. */
  lemma WaifusLikeNameMembers(ws: seq<Waifu>, q: string, w: Waifu)
    ensures w in WaifusLikeName(ws, q) <==> w in ws && exists i :: OccursAt(ToLower(w.name), q, i)
  {
    KeepMembership(ws, (w: Waifu) => NameLike(w.name, q), w);
    ContainsIff(ToLower(w.name), q);
  }

  /** The waifu query keeps collection order: it splits over any split of the collection. */
  lemma WaifusLikeNameOrder(a: seq<Waifu>, b: seq<Waifu>, q: string)
    ensures WaifusLikeName(a + b, q) == WaifusLikeName(a, q) + WaifusLikeName(b, q)
  {
    KeepAppend(a, b, (w: Waifu) => NameLike(w.name, q));
  }

  lemma SeriesLikeNameMembers(ss: seq<Series>, q: string, s: Series)
    ensures s in SeriesLikeName(ss, q) <==> s in ss && exists i :: OccursAt(ToLower(s.name), q, i)
  {
    KeepMembership(ss, (s: Series) => NameLike(s.name, q), s);
    ContainsIff(ToLower(s.name), q);
  }

  lemma SeriesLikeNameOrder(a: seq<Series>, b: seq<Series>, q: string)
    ensures SeriesLikeName(a + b, q) == SeriesLikeName(a, q) + SeriesLikeName(b, q)
  {
    KeepAppend(a, b, (s: Series) => NameLike(s.name, q));
  }

  /** An empty query text matches every record. */
  lemma EmptyQueryMatchesAll(ws: seq<Waifu>)
    ensures WaifusLikeName(ws, "") == ws
  {
    forall i | 0 <= i < |ws| ensures NameLike(ws[i].name, "") {
      assert OccursAt(ToLower(ws[i].name), "", 0);
    }
    KeepAll(ws, (w: Waifu) => NameLike(w.name, ""));
  }

  /**
   * `find({}).skip(20 * (page - 1)).limit(20)`. A page below 1 asks for a
   * negative skip, which the server rejects: `None`.
   */
  function PageOfWaifus(ws: seq<Waifu>, page: int): (r: Option<seq<Waifu>>)
    ensures r.None? <==> page < 1
    ensures r.Some? ==> |r.value| <= PageSize
    ensures r.Some? ==> forall i :: 0 <= i < |r.value| ==>
              PageSize * (page - 1) + i < |ws| && r.value[i] == ws[PageSize * (page - 1) + i]
    ensures r.Some? ==> |r.value| == Min(PageSize, Max(|ws| - PageSize * (page - 1), 0))
  {
    if page < 1 then None else Some(SkipLimit(ws, PageSize * (page - 1), PageSize))
  }

  /** Consecutive pages do not overlap: the last record of page n precedes the first of page n + 1. */
  lemma PagesAreConsecutive(ws: seq<Waifu>, page: int)
    requires page >= 1
    requires |PageOfWaifus(ws, page + 1).value| > 0
    ensures |PageOfWaifus(ws, page).value| == PageSize
    ensures PageOfWaifus(ws, page).value + [PageOfWaifus(ws, page + 1).value[0]]
            == ws[PageSize * (page - 1)..PageSize * page + 1]
  {
    var p := PageOfWaifus(ws, page).value;
    var s := PageSize * (page - 1);
    assert PageSize * page == s + PageSize;
    assert |p| == PageSize;
    assert p == ws[s..s + PageSize];
  }

  /** `findOne({ username })`: the first stored user with exactly that name. */
  function FindUser(users: seq<UserDoc>, username: string): (r: Option<UserDoc>)
    ensures r.Some? ==> r.value in users && r.value.username == username
    ensures r.None? <==> forall i :: 0 <= i < |users| ==> users[i].username != username
  {
    if users == [] then None
    else if users[0].username == username then Some(users[0])
    else FindUser(users[1..], username)
  }

  /** A user appended under a name nobody has yet is what a lookup of that name finds. */
  lemma {:induction false} FindAppended(users: seq<UserDoc>, u: UserDoc)
    requires FindUser(users, u.username).None?
    ensures FindUser(users + [u], u.username) == Some(u)
  {
    if users != [] {
      assert (users + [u])[1..] == users[1..] + [u];
      FindAppended(users[1..], u);
    } else {
      assert users + [u] == [u];
    }
  }

  /** `deleteOne({ _id })`: the store without the first user with that id. */
  function DeleteFirstWithId(users: seq<UserDoc>, id: nat): (r: seq<UserDoc>)
    ensures |r| == |users| || |r| == |users| - 1
    ensures |r| == |users| - 1 <==> exists i :: 0 <= i < |users| && users[i].id == id
    ensures forall u :: u in r ==> u in users
  {
    if users == [] then []
    else if users[0].id == id then users[1..]
    else [users[0]] + DeleteFirstWithId(users[1..], id)
  }

  /** No two stored users share an id. */
  ghost predicate DistinctIds(users: seq<UserDoc>) {
    forall i, j :: 0 <= i < j < |users| ==> users[i].id != users[j].id
  }

  /** Deleting keeps the ids distinct. */
  lemma {:induction false} DeleteKeepsDistinctIds(users: seq<UserDoc>, id: nat)
    requires DistinctIds(users)
    ensures DistinctIds(DeleteFirstWithId(users, id))
  {
    if users != [] && users[0].id != id {
      DeleteKeepsDistinctIds(users[1..], id);
      var rest := DeleteFirstWithId(users[1..], id);
      forall u | u in rest ensures u.id != users[0].id {
        assert u in users[1..];
      }
    }
  }

  /** No two stored users share a username. */
  ghost predicate UniqueUsernames(users: seq<UserDoc>) {
    forall i, j :: 0 <= i < j < |users| ==> users[i].username != users[j].username
  }

  /** Appending a user whose name is not yet taken keeps the names unique. */
  lemma InsertKeepsUnique(users: seq<UserDoc>, u: UserDoc)
    requires UniqueUsernames(users) && FindUser(users, u.username).None?
    ensures UniqueUsernames(users + [u])
  {
  }

  /** With unique ids, deleting by id removes exactly the users with that id. */
  lemma {:induction false} DeleteRemovesId(users: seq<UserDoc>, id: nat)
    requires DistinctIds(users)
    ensures forall u :: u in DeleteFirstWithId(users, id) <==> u in users && u.id != id
  {
    if users != [] {
      DeleteRemovesId(users[1..], id);
      if users[0].id == id {
        assert forall u :: u in users[1..] ==> u.id != id;
      }
    }
  }

  /** Deleting keeps the remaining usernames unique. */
  lemma {:induction false} DeleteKeepsUnique(users: seq<UserDoc>, id: nat)
    requires UniqueUsernames(users)
    ensures UniqueUsernames(DeleteFirstWithId(users, id))
  {
    if users != [] && users[0].id != id {
      DeleteKeepsUnique(users[1..], id);
      var rest := DeleteFirstWithId(users[1..], id);
      forall u | u in rest ensures u.username != users[0].username {
        assert u in users[1..];
      }
    }
  }

  class XDatabase {
    /** `connected`, and how often `mongodb.connect()` has been awaited. */
    var connected: bool
    var connectCalls: nat

    /** The cached handles, and every `db.collection(name)` call so far. */
    var seriesHandle: Option<Collection>
    var usersHandle: Option<Collection>
    var waifusHandle: Option<Collection>
    var created: seq<string>

    /** The collections' contents, owned by the MongoDB server. */
    var waifus: seq<Waifu>
    var series: seq<Series>
    var users: seq<UserDoc>
    /** The id the server assigns to the next inserted document. */
    var nextId: nat

    predicate HandleOk(h: Option<Collection>, name: string)
      reads this
    {
      (h.None? <==> name !in created) && (h.Some? ==> h.value == Collection(name))
    }

    ghost predicate Valid()
      reads this
    {
      && connectCalls == (if connected then 1 else 0)
      && HandleOk(seriesHandle, "series") && HandleOk(usersHandle, "users") && HandleOk(waifusHandle, "waifus")
      && (forall n :: n in created ==> n in {"series", "users", "waifus"})
      && (forall i, j :: 0 <= i < j < |created| ==> created[i] != created[j])
      && (forall i :: 0 <= i < |users| ==> users[i].id < nextId)
      && DistinctIds(users)
    }

    /** The contents are what they were: only connection and handle state may differ. */
    twostate predicate SameContents()
      reads this
    {
      waifus == old(waifus) && series == old(series) && users == old(users) && nextId == old(nextId)
    }

    /** The constructor refuses to run without both environment values. */
    constructor (mongoUri: Option<string>, dbName: Option<string>,
                 waifus: seq<Waifu>, series: seq<Series>, users: seq<UserDoc>, nextId: nat)
      requires ConstructorError(mongoUri, dbName).None?
      requires forall i :: 0 <= i < |users| ==> users[i].id < nextId
      requires DistinctIds(users)
      ensures Valid() && !connected && connectCalls == 0 && created == []
      ensures this.waifus == waifus && this.series == series && this.users == users && this.nextId == nextId
    {
      connected, connectCalls := false, 0;
      seriesHandle, usersHandle, waifusHandle := None, None, None;
      created := [];
      this.waifus, this.series, this.users, this.nextId := waifus, series, users, nextId;
    }

    /** `connect()`: the first call connects; every later call changes nothing. */
    method Connect()
      requires Valid()
      modifies this
      ensures Valid() && connected && SameContents()
      ensures connectCalls == 1
      ensures old(connected) ==> connectCalls == old(connectCalls)
      ensures created == old(created) && seriesHandle == old(seriesHandle)
      ensures usersHandle == old(usersHandle) && waifusHandle == old(waifusHandle)
    {
      if connected {
        return;
      }
      connectCalls := connectCalls + 1;
      connected := true;
    }

    /** `listSeries()`: connects, then creates the "series" handle only if none is cached. */
    method ListSeries() returns (h: Collection)
      requires Valid()
      modifies this
      ensures Valid() && connected && SameContents() && h == Collection("series")
      ensures seriesHandle == Some(h) && usersHandle == old(usersHandle) && waifusHandle == old(waifusHandle)
      ensures created == old(created) + (if old(seriesHandle).None? then ["series"] else [])
    {
      Connect();
      if seriesHandle.None? {
        seriesHandle := Some(Collection("series"));
        created := created + ["series"];
      }
      h := seriesHandle.value;
    }

    method ListUsers() returns (h: Collection)
      requires Valid()
      modifies this
      ensures Valid() && connected && SameContents() && h == Collection("users")
      ensures usersHandle == Some(h) && seriesHandle == old(seriesHandle) && waifusHandle == old(waifusHandle)
      ensures created == old(created) + (if old(usersHandle).None? then ["users"] else [])
    {
      Connect();
      if usersHandle.None? {
        usersHandle := Some(Collection("users"));
        created := created + ["users"];
      }
      h := usersHandle.value;
    }

    method ListWaifus() returns (h: Collection)
      requires Valid()
      modifies this
      ensures Valid() && connected && SameContents() && h == Collection("waifus")
      ensures waifusHandle == Some(h) && seriesHandle == old(seriesHandle) && usersHandle == old(usersHandle)
      ensures created == old(created) + (if old(waifusHandle).None? then ["waifus"] else [])
    {
      Connect();
      if waifusHandle.None? {
        waifusHandle := Some(Collection("waifus"));
        created := created + ["waifus"];
      }
      h := waifusHandle.value;
    }

    method GetUserFromUsername(username: string) returns (u: Option<UserDoc>)
      requires Valid()
      modifies this
      ensures Valid() && SameContents()
      ensures u == FindUser(users, username)
    {
      var _ := ListUsers();
      u := FindUser(users, username);
    }

    /** `insertOne({ username, password })`: the server appends the document with a fresh id. */
    method InsertUser(username: string, password: string) returns (insertedId: nat)
      requires Valid()
      modifies this
      ensures Valid() && waifus == old(waifus) && series == old(series)
      ensures insertedId == old(nextId) && nextId == old(nextId) + 1
      ensures users == old(users) + [UserDoc(insertedId, username, password)]
    {
      var _ := ListUsers();
      insertedId := nextId;
      users := users + [UserDoc(insertedId, username, password)];
      nextId := nextId + 1;
    }

    /** `deleteOne({ _id: id })`, answering `deletedCount`. */
    method DeleteUser(id: nat) returns (deletedCount: nat)
      requires Valid()
      modifies this
      ensures Valid() && waifus == old(waifus) && series == old(series) && nextId == old(nextId)
      ensures users == DeleteFirstWithId(old(users), id)
      ensures deletedCount == |old(users)| - |users|
      ensures deletedCount == 1 <==> exists i :: 0 <= i < |old(users)| && old(users)[i].id == id
    {
      var _ := ListUsers();
      var before := users;
      users := DeleteFirstWithId(users, id);
      deletedCount := |before| - |users|;
      DeleteKeepsDistinctIds(before, id);
      forall i | 0 <= i < |users| ensures users[i].id < nextId {
        assert users[i] in before;
      }
    }

    method GetWaifusLikeName(q: string) returns (r: seq<Waifu>)
      requires Valid()
      modifies this
      ensures Valid() && SameContents()
      ensures r == WaifusLikeName(waifus, q)
    {
      var _ := ListWaifus();
      r := WaifusLikeName(waifus, q);
    }

    method GetPageNOfWaifus(page: int) returns (r: Option<seq<Waifu>>)
      requires Valid()
      modifies this
      ensures Valid() && SameContents()
      ensures r == PageOfWaifus(waifus, page)
    {
      var _ := ListWaifus();
      r := PageOfWaifus(waifus, page);
    }

    method GetSeriesLikeName(q: string) returns (r: seq<Series>)
      requires Valid()
      modifies this
      ensures Valid() && SameContents()
      ensures r == SeriesLikeName(series, q)
    {
      var _ := ListSeries();
      r := SeriesLikeName(series, q);
    }
  }
}
