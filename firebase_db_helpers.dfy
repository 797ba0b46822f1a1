/**
 * The per-user item repository: the documents under `users/{uid}/items/{itemHash}`
 * of the hosted document store, seen as a map `uid -> itemHash -> record`.
 * A write stores a fixed seven-field projection of the item and replaces any
 * record already at that key; reads hand that projection back; a delete
 * removes the key. The store itself (latency, consistency, failures of the
 * remote service) is not modelled: every call here succeeds.
 */
module FirebaseDBHelpers {
  import opened Wrappers
  import opened Json

  /** One candidate facility, as the submission flow builds it (values exactly as received, after defaulting). */
  datatype Location = Location(name: Json, lat: Json, long: Json, address: Json)

  datatype Coords = Coords(latitude: real, longitude: real)

  /** The item object the submission flow passes in. `createdAt` is the client clock in milliseconds. */
  datatype ItemData = ItemData(
    itemHash: string,
    itemName: string,
    itemPhoto: string,
    itemDescription: string,
    itemWinOrLose: string,
    recyclingLocations: seq<Location>,
    createdAt: int,
    confidenceRating: real,
    userLocation: Option<Coords>)

  /** What is stored and read back: exactly seven fields; neither the hash (it is the key) nor the user location. */
  datatype StoredItem = StoredItem(
    itemName: string,
    itemPhoto: string,
    itemDescription: string,
    itemWinOrLose: string,
    recyclingLocations: seq<Location>,
    createdAt: int,
    confidenceRating: real)

  type Collection = map<string, StoredItem>

  /** uid -> that user's item collection. A uid that is absent has an empty collection. */
  type Database = map<string, Collection>

  /** The document body handed to the store by `addItemToUser`. */
  function Project(d: ItemData): (r: StoredItem)
    ensures r.itemName == d.itemName && r.itemPhoto == d.itemPhoto
    ensures r.itemDescription == d.itemDescription && r.itemWinOrLose == d.itemWinOrLose
    ensures r.recyclingLocations == d.recyclingLocations
    ensures r.createdAt == d.createdAt && r.confidenceRating == d.confidenceRating
  {
    StoredItem(d.itemName, d.itemPhoto, d.itemDescription, d.itemWinOrLose,
               d.recyclingLocations, d.createdAt, d.confidenceRating)
  }

  function CollectionOf(db: Database, uid: string): Collection {
    if uid in db then db[uid] else map[]
  }

  /** The store after `setDoc(users/uid/items/d.itemHash, Project(d))` without merge. */
  function Put(db: Database, uid: string, d: ItemData): Database {
    db[uid := CollectionOf(db, uid)[d.itemHash := Project(d)]]
  }

  /** The store after deleting `users/uid/items/key`. */
  function Remove(db: Database, uid: string, key: string): Database {
    db[uid := CollectionOf(db, uid) - {key}]
  }

  /** Two items that differ only in their hash and user location are stored identically. */
  lemma ProjectionForgetsHashAndLocation(d: ItemData, h: string, loc: Option<Coords>)
    ensures Project(d.(itemHash := h, userLocation := loc)) == Project(d)
  {
  }

  /** Reading a written key gives the projection of what was written, and the other keys of that user are untouched. */
  lemma PutThenRead(db: Database, uid: string, d: ItemData)
    ensures d.itemHash in CollectionOf(Put(db, uid, d), uid)
    ensures CollectionOf(Put(db, uid, d), uid)[d.itemHash] == Project(d)
    ensures forall k :: k != d.itemHash ==>
      (k in CollectionOf(Put(db, uid, d), uid) <==> k in CollectionOf(db, uid))
    ensures forall k :: k != d.itemHash && k in CollectionOf(db, uid) ==>
      CollectionOf(Put(db, uid, d), uid)[k] == CollectionOf(db, uid)[k]
  {
  }

  /** A write touches one user only. */
  lemma PutOtherUser(db: Database, uid: string, d: ItemData, other: string)
    requires other != uid
    ensures CollectionOf(Put(db, uid, d), other) == CollectionOf(db, other)
  {
  }

  /** A second write to the same key replaces the whole record: the first leaves no trace. */
  lemma PutOverwrites(db: Database, uid: string, d1: ItemData, d2: ItemData)
    requires d1.itemHash == d2.itemHash
    ensures Put(Put(db, uid, d1), uid, d2) == Put(db, uid, d2)
  {
    var h := d1.itemHash;
    assert CollectionOf(Put(db, uid, d1), uid)[h := Project(d2)] == CollectionOf(db, uid)[h := Project(d2)];
  }

  /** After a delete the key is gone and nothing else has changed. */
  lemma RemoveThenRead(db: Database, uid: string, key: string, other: string)
    ensures key !in CollectionOf(Remove(db, uid, key), uid)
    ensures forall k :: k != key && k in CollectionOf(db, uid) ==>
      k in CollectionOf(Remove(db, uid, key), uid) && CollectionOf(Remove(db, uid, key), uid)[k] == CollectionOf(db, uid)[k]
    ensures other != uid ==> CollectionOf(Remove(db, uid, key), other) == CollectionOf(db, other)
  {
  }

  /** Deleting what was just written restores the collection as it was, when the key was free before. */
  lemma PutThenRemove(db: Database, uid: string, d: ItemData)
    requires d.itemHash !in CollectionOf(db, uid)
    ensures CollectionOf(Remove(Put(db, uid, d), uid, d.itemHash), uid) == CollectionOf(db, uid)
  {
  }

  /** The value `getUserItems` resolves to: `{ items: obj }`, one entry per stored key. */
  datatype UserItems = UserItems(items: Collection)

  class ItemStore {
    var db: Database

    constructor ()
      ensures db == map[]
    {
      db := map[];
    }

    /** `addItemToUser(userId, itemData)`: an upsert of the projection at key `itemData.itemHash`. */
    method AddItemToUser(userId: string, itemData: ItemData)
      modifies this
      ensures db == Put(old(db), userId, itemData)
    {
      var items := CollectionOf(db, userId);
      db := db[userId := items[itemData.itemHash := Project(itemData)]];
    }

    /** `getUserItems(userId)`: every document of the user's collection, keyed by its id. */
    method GetUserItems(userId: string) returns (r: UserItems)
      ensures r.items.Keys == CollectionOf(db, userId).Keys
      ensures forall k :: k in r.items ==> r.items[k] == CollectionOf(db, userId)[k]
    {
      var snapshot := CollectionOf(db, userId);
      var pending := snapshot.Keys;
      var itemsObj: Collection := map[];
      while pending != {}
        invariant pending <= snapshot.Keys
        invariant itemsObj.Keys == snapshot.Keys - pending
        invariant forall k :: k in itemsObj ==> itemsObj[k] == snapshot[k]
        decreases pending
      {
        var itemHash :| itemHash in pending;
        var data := snapshot[itemHash];
        itemsObj := itemsObj[itemHash := StoredItem(data.itemName, data.itemPhoto, data.itemDescription,
          data.itemWinOrLose, data.recyclingLocations, data.createdAt, data.confidenceRating)];
        pending := pending - {itemHash};
      }
      r := UserItems(itemsObj);
    }

    /**
     * `getItemByHash(userId, itemHash)` as intended: `null` when the key is
     * absent, otherwise the single-entry object `{ [itemHash]: record }`.
     */
    method GetItemByHash(userId: string, itemHash: string) returns (r: Option<Collection>)
      ensures r.None? <==> itemHash !in CollectionOf(db, userId)
      ensures r.Some? ==> r.value.Keys == {itemHash} && r.value[itemHash] == CollectionOf(db, userId)[itemHash]
    {
      var items := CollectionOf(db, userId);
      if itemHash !in items {
        return None;
      }
      var data := items[itemHash];
      r := Some(map[itemHash := data]);
    }

    /** `deleteItemFromUser(userId, itemHash)` as intended: the key is removed. */
    method DeleteItemFromUser(userId: string, itemHash: string)
      modifies this
      ensures db == Remove(old(db), userId, itemHash)
    {
      var items := CollectionOf(db, userId);
      db := db[userId := items - {itemHash}];
    }

    /**
     * `getItemByHash` as written: `getDoc` is called but never imported, so
     * the call rejects with a ReferenceError before the store is read.
     */
    method GetItemByHashAsWritten(userId: string, itemHash: string) returns (r: Result<Option<Collection>>)
      ensures r == Failure("getDoc is not defined")
    {
      r := Failure("getDoc is not defined");
    }

    /**
     * `deleteItemFromUser` as written: `deleteDoc` is never imported, so the
     * call rejects with a ReferenceError and nothing is deleted.
     */
    method DeleteItemFromUserAsWritten(userId: string, itemHash: string) returns (r: Result<()>)
      ensures r == Failure("deleteDoc is not defined")
    {
      r := Failure("deleteDoc is not defined");
    }
  }

  /** Round trip through the store object: after `AddItemToUser`, both readers hand back the projection of what was written. */
  method AddThenGet(store: ItemStore, userId: string, d: ItemData) returns (one: Option<Collection>, all: UserItems)
    modifies store
    ensures one == Some(map[d.itemHash := Project(d)])
    ensures d.itemHash in all.items && all.items[d.itemHash] == Project(d)
  {
    store.AddItemToUser(userId, d);
    one := store.GetItemByHash(userId, d.itemHash);
    assert one.value.Keys == {d.itemHash} && one.value[d.itemHash] == Project(d);
    assert one.value == map[d.itemHash := Project(d)];
    all := store.GetUserItems(userId);
  }
}
