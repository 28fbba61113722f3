/** The two MySQL tables, `users` and `collections`, with their column
    types, defaults and the cascading foreign key between them. */
module Schema {
  import opened Wrappers
  import opened Folds

  /** `mysqlEnum("role", ["user", "admin", "collector"])`. */
  datatype Role = User | Admin | Collector

  /** `mysqlEnum("wasteType", ["Organic", "Inorganic", "Mixed"])`. */
  datatype WasteType = Organic | Inorganic | Mixed

  // Fixed-point columns are held as integers in units of their scale.
  /** decimal(10, 2): volumes in hundredths. */
  const VolumeScale: nat := 100
  const VolumePrecision: nat := 10
  /** decimal(10, 8) and decimal(11, 8): coordinates in units of 1e-8 degree. */
  const CoordinateScale: nat := 100_000_000
  const LatitudePrecision: nat := 10
  const LongitudePrecision: nat := 11

  // Column defaults.
  const DefaultRole: Role := User
  const DefaultCollectionCount: int := 1
  const DefaultWasteSeparated: bool := false

  // Column widths.
  const OpenIdLength: nat := 64
  const EmailLength: nat := 320
  const LoginMethodLength: nat := 64
  const SiteNameLength: nat := 255

  function Pow10(n: nat): (p: nat)
    ensures p >= 1
  {
    if n == 0 then 1 else 10 * Pow10(n - 1)
  }

  /** A scaled value fits a DECIMAL column with `precision` digits in all. */
  predicate FitsDecimal(v: int, precision: nat)
  {
    -(Pow10(precision) as int) < v < Pow10(precision)
  }

  predicate FitsDecimalOpt(v: Option<int>, precision: nat)
  {
    v.Some? ==> FitsDecimal(v.value, precision)
  }

  /** The range of a MySQL INT column. */
  predicate IsInt32(n: int)
  {
    -0x8000_0000 <= n < 0x8000_0000
  }

  /** A row of `users` (timestamps left out). */
  datatype Account = Account(
    id: int,
    openId: string,
    name: Option<string>,
    email: Option<string>,
    password: Option<string>,
    loginMethod: Option<string>,
    role: Role)

  /** A row of `collections` (timestamps left out); `collectionDate` is a day number. */
  datatype Collection = Collection(
    id: int,
    collectorId: int,
    siteName: string,
    wasteType: WasteType,
    collectionDate: int,
    totalVolume: int,
    wasteSeparated: bool,
    organicVolume: Option<int>,
    inorganicVolume: Option<int>,
    collectionCount: int,
    latitude: Option<int>,
    longitude: Option<int>,
    comments: Option<string>)

  /** The values an insert into `users` names; `role` may be left to its default. */
  datatype NewAccount = NewAccount(
    openId: string,
    name: Option<string>,
    email: Option<string>,
    password: Option<string>,
    loginMethod: Option<string>,
    role: Option<Role>)

  /** The values an insert into `collections` names; the two defaulted columns may be omitted. */
  datatype NewCollection = NewCollection(
    collectorId: int,
    siteName: string,
    wasteType: WasteType,
    collectionDate: int,
    totalVolume: int,
    wasteSeparated: Option<bool>,
    organicVolume: Option<int>,
    inorganicVolume: Option<int>,
    collectionCount: Option<int>,
    latitude: Option<int>,
    longitude: Option<int>,
    comments: Option<string>)

  /** The row stored for an insert, with its auto-increment id and defaults applied. */
  function AccountRow(id: int, a: NewAccount): (r: Account)
    ensures r.id == id && r.openId == a.openId && r.email == a.email && r.password == a.password
    ensures r.name == a.name && r.loginMethod == a.loginMethod
    ensures a.role.None? ==> r.role == User
    ensures a.role.Some? ==> r.role == a.role.value
  {
    Account(id, a.openId, a.name, a.email, a.password, a.loginMethod, a.role.GetOr(DefaultRole))
  }

  function CollectionRow(id: int, c: NewCollection): (r: Collection)
    ensures r.id == id && r.collectorId == c.collectorId && r.siteName == c.siteName
    ensures r.wasteType == c.wasteType && r.collectionDate == c.collectionDate
    ensures r.totalVolume == c.totalVolume && r.organicVolume == c.organicVolume
    ensures r.inorganicVolume == c.inorganicVolume && r.latitude == c.latitude
    ensures r.longitude == c.longitude && r.comments == c.comments
    ensures r.collectionCount == (if c.collectionCount.Some? then c.collectionCount.value else 1)
    ensures r.wasteSeparated == (c.wasteSeparated.Some? && c.wasteSeparated.value)
  {
    Collection(id, c.collectorId, c.siteName, c.wasteType, c.collectionDate, c.totalVolume,
      c.wasteSeparated.GetOr(DefaultWasteSeparated), c.organicVolume, c.inorganicVolume,
      c.collectionCount.GetOr(DefaultCollectionCount), c.latitude, c.longitude, c.comments)
  }

  /** The column types and widths MySQL (in strict mode) enforces on a `users` row. */
  predicate AccountFits(a: Account)
  {
    && |a.openId| <= OpenIdLength
    && (a.email.Some? ==> |a.email.value| <= EmailLength)
    && (a.loginMethod.Some? ==> |a.loginMethod.value| <= LoginMethodLength)
  }

  /** The column types and widths MySQL (in strict mode) enforces on a `collections` row. */
  predicate CollectionFits(c: Collection)
  {
    && |c.siteName| <= SiteNameLength
    && FitsDecimal(c.totalVolume, VolumePrecision)
    && FitsDecimalOpt(c.organicVolume, VolumePrecision)
    && FitsDecimalOpt(c.inorganicVolume, VolumePrecision)
    && IsInt32(c.collectionCount)
    && FitsDecimalOpt(c.latitude, LatitudePrecision)
    && FitsDecimalOpt(c.longitude, LongitudePrecision)
  }

  /** Two distinct rows of `users` differ in the primary key and in both unique
      columns; a NULL email never clashes. */
  predicate AccountsDistinct(a: Account, b: Account)
  {
    a.id != b.id && a.openId != b.openId && (a.email.None? || a.email != b.email)
  }

  predicate CollectionsDistinct(a: Collection, b: Collection)
  {
    a.id != b.id
  }

  ghost predicate AccountsWellFormed(users: seq<Account>, nextId: int)
  {
    && nextId >= 1
    && (forall i :: 0 <= i < |users| ==> 1 <= users[i].id < nextId && AccountFits(users[i]))
    && Pairwise(users, AccountsDistinct)
  }

  ghost predicate CollectionsWellFormed(cs: seq<Collection>, nextId: int)
  {
    && nextId >= 1
    && (forall i :: 0 <= i < |cs| ==> 1 <= cs[i].id < nextId && CollectionFits(cs[i]))
    && Pairwise(cs, CollectionsDistinct)
  }

  function AccountIds(users: seq<Account>): set<int>
  {
    set i | 0 <= i < |users| :: users[i].id
  }

  /** `collectorId ... references(() => users.id)`. */
  ghost predicate References(users: seq<Account>, cs: seq<Collection>)
  {
    forall i :: 0 <= i < |cs| ==> cs[i].collectorId in AccountIds(users)
  }

  /** MySQL accepts the insert of `row` into `users`: the columns fit and
      neither unique key clashes with an existing row. */
  predicate AcceptsAccount(users: seq<Account>, row: Account)
  {
    AccountFits(row) && forall i :: 0 <= i < |users| ==> AccountsDistinct(users[i], row)
  }

  /** MySQL accepts the insert of `row` into `collections`: the columns fit,
      the id is new and the foreign key names an existing account. */
  predicate AcceptsCollection(users: seq<Account>, cs: seq<Collection>, row: Collection)
  {
    && CollectionFits(row)
    && (forall i :: 0 <= i < |cs| ==> CollectionsDistinct(cs[i], row))
    && row.collectorId in AccountIds(users)
  }

  /** The rows left after deleting account `id`. */
  function WithoutAccount(users: seq<Account>, id: int): (r: seq<Account>)
    ensures forall i :: 0 <= i < |r| ==> r[i] in users && r[i].id != id
    ensures forall i :: 0 <= i < |users| && users[i].id != id ==> users[i] in r
  {
    Filter(users, (a: Account) => a.id != id)
  }

  /** `onDelete: "cascade"`: the collections that survive deleting account `id`
      are exactly those it did not own. */
  function CascadeDelete(cs: seq<Collection>, id: int): (r: seq<Collection>)
    ensures forall i :: 0 <= i < |r| ==> r[i] in cs && r[i].collectorId != id
    ensures forall i :: 0 <= i < |cs| && cs[i].collectorId != id ==> cs[i] in r
  {
    Filter(cs, (c: Collection) => c.collectorId != id)
  }

  /** The database: both tables and their auto-increment counters. */
  class Database {
    var users: seq<Account>
    var collections: seq<Collection>
    var nextUserId: int
    var nextCollectionId: int

    ghost predicate Valid()
      reads this
    {
      && AccountsWellFormed(users, nextUserId)
      && CollectionsWellFormed(collections, nextCollectionId)
      && References(users, collections)
    }

    constructor ()
      ensures Valid()
      ensures users == [] && collections == [] && nextUserId == 1 && nextCollectionId == 1
    {
      users, collections := [], [];
      nextUserId, nextCollectionId := 1, 1;
    }

    /** `INSERT INTO users`: the row gets the next auto-increment id. */
    method InsertAccount(a: NewAccount) returns (row: Account)
      requires Valid()
      requires AcceptsAccount(users, AccountRow(nextUserId, a))
      modifies this
      ensures Valid()
      ensures row == AccountRow(old(nextUserId), a)
      ensures users == old(users) + [row] && nextUserId == old(nextUserId) + 1
      ensures collections == old(collections) && nextCollectionId == old(nextCollectionId)
    {
      row := AccountRow(nextUserId, a);
      users := users + [row];
      nextUserId := nextUserId + 1;
      assert AccountIds(old(users)) <= AccountIds(users) by {
        forall i | 0 <= i < |old(users)| ensures old(users)[i].id in AccountIds(users) {
          assert users[i] == old(users)[i];
        }
      }
    }

    /** `INSERT INTO collections`: the row gets the next auto-increment id. */
    method InsertCollection(c: NewCollection) returns (row: Collection)
      requires Valid()
      requires AcceptsCollection(users, collections, CollectionRow(nextCollectionId, c))
      modifies this
      ensures Valid()
      ensures row == CollectionRow(old(nextCollectionId), c)
      ensures collections == old(collections) + [row] && nextCollectionId == old(nextCollectionId) + 1
      ensures users == old(users) && nextUserId == old(nextUserId)
    {
      row := CollectionRow(nextCollectionId, c);
      collections := collections + [row];
      nextCollectionId := nextCollectionId + 1;
    }

    /** `DELETE FROM users WHERE id = ?`, with the cascade into `collections`. */
    method DeleteAccount(id: int)
      requires Valid()
      modifies this
      ensures Valid()
      ensures users == WithoutAccount(old(users), id)
      ensures collections == CascadeDelete(old(collections), id)
      ensures nextUserId == old(nextUserId) && nextCollectionId == old(nextCollectionId)
    {
      FilterPairwise(users, (a: Account) => a.id != id, AccountsDistinct);
      FilterPairwise(collections, (c: Collection) => c.collectorId != id, CollectionsDistinct);
      var keptUsers := WithoutAccount(users, id);
      var keptCollections := CascadeDelete(collections, id);
      forall i | 0 <= i < |keptCollections|
        ensures keptCollections[i].collectorId in AccountIds(keptUsers)
      {
        var c := keptCollections[i];
        var k :| 0 <= k < |users| && users[k].id == c.collectorId;
        assert users[k] in keptUsers;
      }
      users, collections := keptUsers, keptCollections;
    }
  }
}
