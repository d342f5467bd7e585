/**
 The catalog store. A transaction works on its own copy of the tables: committing puts the copy in
 place, rolling back drops it.
 */
module CatalogStores {
  import opened Outcomes
  import opened Int64
  import opened Ordering
  import opened Catalog

  class CatalogStore {
    var db: Tables

    constructor (tasks: map<Id, Task>, revisions: map<Id, Id>)
      ensures db == Tables(tasks, revisions, map[], map[], map[], map[], map[], map[], map[], map[], [], [])
    {
      db := Tables(tasks, revisions, map[], map[], map[], map[], map[], map[], map[], map[], [], []);
    }

    /** Inserts the rows table by table; the first key that is taken fails the transaction. */
    static method InsertProjection(before: Tables, account: Id, r: LocalResult) returns (ok: bool, tx: Tables)
      requires ResultValid(r)
      ensures ok <==> Insertable(before, account, r)
      ensures ok ==> tx == Inserted(before, account, r)
    {
      RowsAreDistinct(account, r);
      tx := before;
      var nodes, assets, versions, links, metadata, artwork;
      ok, nodes := InsertRows(tx.nodes, NodeRows(r.media.id, r.media.nodes));
      if !ok || !RevisionsFree(tx.assets, account, r.assets) {
        return false, before;
      }
      ok, assets := InsertRows(tx.assets, AssetRows(account, r.media.id, r.assets));
      if !ok {
        return;
      }
      ok, versions := InsertRows(tx.versions, VersionRows(r.media.id, r.media.versions));
      if !ok {
        return;
      }
      ok, links := InsertRows(tx.links, LinkRows(r.media.id, r.media.versions));
      if !ok {
        return;
      }
      ok, metadata := InsertRows(tx.metadata, ValueRows(r.media.id, r.media.metadata));
      if !ok {
        return;
      }
      ok, artwork := InsertRows(tx.artwork, ArtworkRows(r.media.id, r.media.artwork));
      tx := tx.(nodes := nodes, assets := assets, versions := versions, links := links, metadata := metadata, artwork := artwork);
    }

    method OwnedRevisions(inbox: Id, assets: seq<Asset>) returns (owned: bool)
      ensures owned == OwnsRevisions(db, inbox, assets)
    {
      for i := 0 to |assets|
        invariant OwnsRevisions(db, inbox, assets[..i])
      {
        if assets[i].revision !in db.revisions || db.revisions[assets[i].revision] != inbox {
          return false;
        }
      }
      assert assets[..|assets|] == assets;
      owned := true;
    }

    method Refuse(account: Id, r: LocalResult) returns (refused: Option<Result<Id, Error>>)
      ensures refused == Refused(db, account, r)
    {
      var valid := ValidateResult(r);
      if !valid {
        return Some(Err(ValidationFailed));
      }
      if r.id in db.applied {
        var before := db.applied[r.id];
        return Some(if before.account == account && before.result == r then Ok(before.media) else Err(RequestConflict));
      }
      if r.task !in db.tasks || db.tasks[r.task].account != account {
        return Some(Err(NotFound));
      }
      var owned := OwnedRevisions(db.tasks[r.task].inbox, r.assets);
      if !owned {
        return Some(Err(NotFound));
      }
      if r.media.id in db.items && db.items[r.media.id].account != account {
        return Some(Err(RequestConflict));
      }
      if !NormalizedFits(r.media.normalized) {
        return Some(Err(Internal));
      }
      refused := None;
    }

    method Apply(account: Id, r: LocalResult, now: I64) returns (result: Result<Id, Error>)
      modifies this
      ensures (db, result) == ApplyTx(old(db), account, r, now)
    {
      var refused := Refuse(account, r);
      if refused.Some? {
        return refused.value;
      }
      var created, item := r.media.id !in db.items, NextItem(db, account, r, now);
      var tx := BeginReplacement(db, account, r, now);
      var inserted;
      inserted, tx := InsertProjection(tx, account, r);
      if !inserted {
        return Err(Internal);
      }
      db := FinishReplacement(tx, account, r, item, created, now);
      result := Ok(r.media.id);
    }

    method GetDetail(account: Id, media: Id) returns (r: Result<Detail, Error>)
      requires Keyed(db.nodes)
      ensures r == DetailTx(db, account, media)
    {
      if media !in db.items || db.items[media].account != account {
        return Err(NotFound);
      }
      var values, related := ValuesOf(db.metadata, media), RelatedTasks(db.applied, account, media);
      if |values| > MAX_METADATA || |NodeKeys(db.nodes, media)| > MAX_NODES
         || |VersionKeys(db.versions, media)| > MAX_VERSIONS || |LinkKeys(db.links, media)| > MAX_FILE_LINKS
         || |related| > MAX_TASKS {
        return Err(Internal);
      }
      var grouped := GroupVersions(db, media);
      GroupedVersionsAreOwned(db, media, grouped, None);
      var children := BuildChildren(db, media, grouped);
      r := Ok(Detail(db.items[media], FindPoster(db.artwork, media), values, At(grouped, OwnerRank(None)), children, related));
    }
  }
}
