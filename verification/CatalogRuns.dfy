/**
 Runs of the catalog: results arrive in any order, again and again, for new and known items. An applied
 result reads back exactly, a repeated one changes nothing, and versions and lists follow the results.
 */
module CatalogRuns {
  import opened Outcomes
  import opened Int64
  import opened Ordering
  import opened Catalog
  import opened CatalogProjection
  import P = CatalogPages

  /** Tasks and file revisions belong to other stores and may change in any way between results. */
  datatype Step =
    | Apply(account: Id, r: LocalResult, now: I64)
    | Environment(tasks: map<Id, Task>, revisions: map<Id, Id>)

  function Perform(db: Tables, s: Step): Tables {
    match s
    case Apply(account, r, now) => ApplyTx(db, account, r, now).0
    case Environment(tasks, revisions) => db.(tasks := tasks, revisions := revisions)
  }

  function Exec(steps: seq<Step>): Tables {
    if steps == [] then
      Tables(map[], map[], map[], map[], map[], map[], map[], map[], map[], map[], [], [])
    else Perform(Exec(steps[..|steps| - 1]), steps[|steps| - 1])
  }

  // ---- Sizes of what reads back -----------------------------------------------------------------

  lemma {:induction false} NodeKeysFit(nodes: seq<Node>)
    ensures |TreeNodeKeys(nodes)| <= |nodes|
  {
    if nodes != [] {
      var last := |nodes| - 1;
      NodeKeysFit(nodes[..last]);
      assert TreeNodeKeys(nodes) == TreeNodeKeys(nodes[..last]) + {NodeKey(nodes[last])};
    }
  }

  function TreeVersionKeys(versions: seq<Version>): set<Key> {
    set i | 0 <= i < |versions| :: Key(OwnerRank(versions[i].owner), versions[i].id)
  }

  lemma {:induction false} VersionKeysFit(versions: seq<Version>)
    ensures |TreeVersionKeys(versions)| <= |versions|
  {
    if versions != [] {
      var last := |versions| - 1;
      VersionKeysFit(versions[..last]);
      assert TreeVersionKeys(versions)
          == TreeVersionKeys(versions[..last]) + {Key(OwnerRank(versions[last].owner), versions[last].id)};
    }
  }

  function TreeValues(metadata: seq<Value>): set<Value> {
    set v | v in metadata
  }

  lemma {:induction false} ValuesFit(metadata: seq<Value>)
    ensures |TreeValues(metadata)| <= |metadata|
  {
    if metadata != [] {
      var last := |metadata| - 1;
      ValuesFit(metadata[..last]);
      assert metadata == metadata[..last] + [metadata[last]];
      assert TreeValues(metadata) == TreeValues(metadata[..last]) + {metadata[last]};
    }
  }

  lemma {:induction false} RowsFit<K, V>(rows: seq<(K, V)>)
    ensures |Rows(rows).Keys| <= |rows|
  {
    if rows != [] {
      var last := |rows| - 1;
      RowsFit(rows[..last]);
      assert Rows(rows).Keys == Rows(rows[..last]).Keys + {rows[last].0};
    }
  }

  lemma {:induction false} LinkRowsCount(media: Id, versions: seq<Version>)
    ensures |LinkRows(media, versions)| == LinkCount(versions)
  {
    if versions != [] {
      LinkRowsCount(media, versions[..|versions| - 1]);
    }
  }

  lemma SubsetSize<T>(a: set<T>, b: set<T>)
    requires a <= b
    ensures |a| <= |b|
  {
    assert b == a + (b - a);
  }

  lemma LinksFit(begun: Tables, account: Id, r: LocalResult)
    requires NoRows(begun, r.media.id) && LinkCount(r.media.versions) <= MAX_FILE_LINKS
    ensures |LinkKeys(Inserted(begun, account, r).links, r.media.id)| <= MAX_FILE_LINKS
  {
    var rows := LinkRows(r.media.id, r.media.versions);
    RowsFit(rows);
    LinkRowsCount(r.media.id, r.media.versions);
    SubsetSize(LinkKeys(Inserted(begun, account, r).links, r.media.id), Rows(rows).Keys);
  }

  lemma VersionKeysReadBack(db: Tables, r: LocalResult)
    requires Projected(db, r)
    ensures VersionKeys(db.versions, r.media.id) == TreeVersionKeys(r.media.versions)
  {
    var versions := r.media.versions;
    forall k
      ensures k in VersionKeys(db.versions, r.media.id) <==> k in TreeVersionKeys(versions)
    {
      if k in TreeVersionKeys(versions) {
        var i :| 0 <= i < |versions| && k == Key(OwnerRank(versions[i].owner), versions[i].id);
        assert VersionHolds(db, r, versions[i].id);
        VersionIsUnique(versions, i);
      }
      if k in VersionKeys(db.versions, r.media.id) {
        var id :| id in db.versions && db.versions[id].media == r.media.id && k == Key(OwnerRank(db.versions[id].owner), id);
        assert VersionHolds(db, r, id);
        var i :| 0 <= i < |versions| && versions[i] == FindVersion(versions, id).value;
        assert k == Key(OwnerRank(versions[i].owner), versions[i].id);
      }
    }
  }

  // ---- Metadata and poster ----------------------------------------------------------------------

  lemma ValueInserted(begun: map<Field, Value>, media: Id, metadata: seq<Value>, i: nat)
    requires MetadataValid(metadata) && i < |metadata|
    ensures var after := begun + Rows(ValueRows(media, metadata));
            Field(media, metadata[i].field) in after && after[Field(media, metadata[i].field)] == metadata[i]
  {
    var rows := ValueRows(media, metadata);
    assert rows[i] == (Field(media, metadata[i].field), metadata[i]);
    RowsAt(rows, i);
  }

  lemma ValuesReadBack(begun: map<Field, Value>, media: Id, metadata: seq<Value>)
    requires MetadataValid(metadata) && NoValue(begun, media)
    ensures ValuesOf(begun + Rows(ValueRows(media, metadata)), media) == TreeValues(metadata)
  {
    var rows := ValueRows(media, metadata);
    var after := begun + Rows(rows);
    forall v
      ensures v in ValuesOf(after, media) <==> v in TreeValues(metadata)
    {
      if v in TreeValues(metadata) {
        var i :| 0 <= i < |metadata| && metadata[i] == v;
        ValueInserted(begun, media, metadata, i);
      }
      if v in ValuesOf(after, media) {
        var f :| f in after && f.media == media && after[f] == v;
        var i := RowsFrom(rows, f);
        ValueInserted(begun, media, metadata, i);
      }
    }
  }

  lemma {:induction false} PosterIsFirst(artwork: seq<Artwork>)
    ensures PosterOf(artwork).None? ==> forall i | 0 <= i < |artwork| :: !artwork[i].kind.Poster?
    ensures PosterOf(artwork).Some? ==> PosterOf(artwork).value in artwork && PosterOf(artwork).value.kind.Poster?
  {
    if artwork != [] {
      PosterIsFirst(artwork[1..]);
    }
  }

  lemma ArtworkInserted(begun: map<Id, ArtworkRow>, after: map<Id, ArtworkRow>, media: Id, artwork: seq<Artwork>, i: nat)
    requires ArtworksValid(artwork) && i < |artwork|
    requires after == begun + Rows(ArtworkRows(media, artwork))
    ensures artwork[i].id in after && after[artwork[i].id] == ArtworkRow(media, artwork[i])
  {
    var rows := ArtworkRows(media, artwork);
    assert rows[i] == (artwork[i].id, ArtworkRow(media, artwork[i]));
    RowsAt(rows, i);
  }

  lemma PosterReadsBack(begun: map<Id, ArtworkRow>, after: map<Id, ArtworkRow>, media: Id, artwork: seq<Artwork>)
    requires ArtworksValid(artwork) && NoArtwork(begun, media)
    requires after == begun + Rows(ArtworkRows(media, artwork))
    ensures FindPoster(after, media) == PosterOf(artwork)
  {
    var rows, poster := ArtworkRows(media, artwork), PosterOf(artwork);
    var keys := PosterKeys(after, media);
    PosterIsFirst(artwork);
    forall id | id in after && after[id].media == media && after[id].artwork.kind.Poster?
      ensures poster.Some? && after[id].artwork == poster.value && id == poster.value.id
    {
      var i := RowsFrom(rows, id);
      ArtworkInserted(begun, after, media, artwork, i);
      var j :| 0 <= j < |artwork| && artwork[j] == poster.value;
    }
    if poster.Some? {
      var i :| 0 <= i < |artwork| && artwork[i] == poster.value;
      ArtworkInserted(begun, after, media, artwork, i);
      assert Key(0, poster.value.id) in keys;
    }
  }

  // ---- What every state keeps -------------------------------------------------------------------

  /** Rows belong to known items, as the foreign keys say. */
  ghost predicate RowsOwned(db: Tables) {
    forall media | media !in db.items :: NoRows(db, media)
  }

  lemma NothingIsLeft(db: Tables, account: Id, r: LocalResult, now: I64)
    requires RowsOwned(db)
    ensures NoRows(BeginReplacement(db, account, r, now), r.media.id)
  {
    if r.media.id !in db.items {
      assert NoRows(db, r.media.id);
    }
  }

  lemma ValidIsTreeOk(r: LocalResult)
    requires ResultValid(r)
    ensures TreeOk(r)
  {
    forall v | 0 <= v < |r.media.versions|
      ensures FilesKnown(r, r.media.versions[v])
    {
      assert VersionValid(r, r.media.versions[v]);
    }
  }

  predicate Commits(db: Tables, account: Id, r: LocalResult, now: I64) {
    Refused(db, account, r).None? && Insertable(BeginReplacement(db, account, r, now), account, r)
  }

  lemma ValidParts(r: LocalResult)
    requires ResultValid(r)
    ensures |r.media.nodes| <= MAX_NODES && |r.media.metadata| <= MAX_METADATA && |r.media.versions| <= MAX_VERSIONS
    ensures LinkCount(r.media.versions) <= MAX_FILE_LINKS
    ensures MetadataValid(r.media.metadata) && ArtworksValid(r.media.artwork)
  {
  }

  lemma ApplyUnfolds(db: Tables, account: Id, r: LocalResult, now: I64)
    ensures Refused(db, account, r).Some? ==> ApplyTx(db, account, r, now) == (db, Refused(db, account, r).value)
    ensures Refused(db, account, r).None? && !Commits(db, account, r, now) ==> ApplyTx(db, account, r, now) == (db, Err(Internal))
    ensures Commits(db, account, r, now) ==>
              && ApplyTx(db, account, r, now)
                 == (FinishReplacement(Inserted(BeginReplacement(db, account, r, now), account, r), account, r,
                                       NextItem(db, account, r, now), r.media.id !in db.items, now), Ok(r.media.id))
              && ResultValid(r) && r.id !in db.applied
              && (r.media.id in db.items ==> db.items[r.media.id].account == account)
  {
  }

  lemma FinishUnfolds(tx: Tables, account: Id, r: LocalResult, item: Item, created: bool, now: I64)
    ensures var next := FinishReplacement(tx, account, r, item, created, now);
            && next.nodes == tx.nodes && next.versions == tx.versions && next.assets == tx.assets
            && next.links == tx.links && next.metadata == tx.metadata && next.artwork == tx.artwork
            && next.items == tx.items[r.media.id := item]
            && next.applied == tx.applied[r.id := Applied(account, r.task, r.media.id, r, now)]
            && next.history == tx.history + [HistoryOf(r.media.id, item, FindPoster(tx.artwork, r.media.id))]
            && next.outbox == tx.outbox + [Changed(r.media.id, item.version, created)]
  {
  }

  /** The history row of an item before its projection is in. */
  function FirstRow(db: Tables, account: Id, r: LocalResult, now: I64): seq<HistoryRow> {
    [HistoryOf(r.media.id, ItemOf(account, r, 1, now, now), FindPoster(db.artwork, r.media.id))]
  }

  lemma InsertKeepsLists(db: Tables, account: Id, r: LocalResult)
    ensures var next := Inserted(db, account, r);
            next.items == db.items && next.applied == db.applied && next.outbox == db.outbox && next.history == db.history
  {
  }

  lemma ClearKeepsLists(db: Tables, media: Id)
    ensures var next := Cleared(db, media);
            next.items == db.items && next.applied == db.applied && next.outbox == db.outbox && next.history == db.history
  {
  }

  lemma BeginKeepsLists(db: Tables, account: Id, r: LocalResult, now: I64)
    ensures var next := BeginReplacement(db, account, r, now);
            && next.items == db.items && next.applied == db.applied && next.outbox == db.outbox
            && (r.media.id in db.items ==> next.history == db.history)
            && (r.media.id !in db.items ==> next.history == db.history + FirstRow(db, account, r, now))
  {
    if r.media.id in db.items {
      ClearKeepsLists(db, r.media.id);
    }
  }

  lemma BeginUnfolds(db: Tables, account: Id, r: LocalResult, now: I64)
    ensures var inserted := Inserted(BeginReplacement(db, account, r, now), account, r);
            && inserted.items == db.items && inserted.applied == db.applied && inserted.outbox == db.outbox
            && (r.media.id in db.items ==> inserted.history == db.history)
            && (r.media.id !in db.items ==> inserted.history == db.history + FirstRow(db, account, r, now))
  {
    BeginKeepsLists(db, account, r, now);
    InsertKeepsLists(BeginReplacement(db, account, r, now), account, r);
  }

  lemma CommittedTables(db: Tables, account: Id, r: LocalResult, now: I64)
    requires Commits(db, account, r, now)
    ensures var inserted := Inserted(BeginReplacement(db, account, r, now), account, r);
            var next := ApplyTx(db, account, r, now).0;
            && next.nodes == inserted.nodes && next.versions == inserted.versions && next.assets == inserted.assets
            && next.links == inserted.links && next.metadata == inserted.metadata && next.artwork == inserted.artwork
            && next.items == db.items[r.media.id := NextItem(db, account, r, now)]
            && next.applied == db.applied[r.id := Applied(account, r.task, r.media.id, r, now)]
            && ResultValid(r)
  {
    ApplyUnfolds(db, account, r, now);
    FinishUnfolds(Inserted(BeginReplacement(db, account, r, now), account, r), account, r,
                  NextItem(db, account, r, now), r.media.id !in db.items, now);
    BeginUnfolds(db, account, r, now);
  }

  /** The rows a committed result leaves. */
  lemma ProjectionOf(db: Tables, account: Id, r: LocalResult, now: I64)
    requires RowsOwned(db) && Commits(db, account, r, now)
    ensures var next := ApplyTx(db, account, r, now).0;
            && Projected(next, r) && |LinkKeys(next.links, r.media.id)| <= MAX_FILE_LINKS
            && ValuesOf(next.metadata, r.media.id) == TreeValues(r.media.metadata)
            && FindPoster(next.artwork, r.media.id) == PosterOf(r.media.artwork)
            && next.items == db.items[r.media.id := NextItem(db, account, r, now)]
  {
    var begun, next := BeginReplacement(db, account, r, now), ApplyTx(db, account, r, now).0;
    CommittedTables(db, account, r, now);
    NothingIsLeft(db, account, r, now);
    ValidIsTreeOk(r);
    ValidParts(r);
    InsertedIsProjected(begun, account, r);
    SameRowsProjected(Inserted(begun, account, r), next, r);
    LinksFit(begun, account, r);
    ValuesReadBack(begun.metadata, r.media.id, r.media.metadata);
    PosterReadsBack(begun.artwork, next.artwork, r.media.id, r.media.artwork);
  }

  lemma SameRowsProjected(a: Tables, b: Tables, r: LocalResult)
    requires Projected(a, r)
    requires b.nodes == a.nodes && b.versions == a.versions && b.assets == a.assets && b.links == a.links
    ensures Projected(b, r)
  {
    assert forall id :: NodeHolds(a, r, id) ==> NodeHolds(b, r, id);
    assert forall id :: VersionHolds(a, r, id) ==> VersionHolds(b, r, id);
    assert forall i: nat | i < |r.assets| :: AssetHolds(a, r, i) ==> AssetHolds(b, r, i);
    assert forall v: nat, k | v < |r.media.versions| :: LinkHolds(a, r, v, k) ==> LinkHolds(b, r, v, k);
  }

  lemma WithinCaps(next: Tables, r: LocalResult)
    requires Projected(next, r) && ResultValid(r)
    requires ValuesOf(next.metadata, r.media.id) == TreeValues(r.media.metadata)
    ensures |ValuesOf(next.metadata, r.media.id)| <= MAX_METADATA
    ensures |NodeKeys(next.nodes, r.media.id)| <= MAX_NODES && |VersionKeys(next.versions, r.media.id)| <= MAX_VERSIONS
  {
    ValidParts(r);
    NodeKeysReadBack(next, r);
    NodeKeysFit(r.media.nodes);
    VersionKeysReadBack(next, r);
    VersionKeysFit(r.media.versions);
    ValuesFit(r.media.metadata);
  }

  lemma ReadsBack(next: Tables, account: Id, r: LocalResult, item: Item)
    requires Projected(next, r) && ResultValid(r) && |LinkKeys(next.links, r.media.id)| <= MAX_FILE_LINKS
    requires ValuesOf(next.metadata, r.media.id) == TreeValues(r.media.metadata)
    requires FindPoster(next.artwork, r.media.id) == PosterOf(r.media.artwork)
    requires r.media.id in next.items && next.items[r.media.id] == item && item.account == account
    ensures var related := RelatedTasks(next.applied, account, r.media.id);
            DetailTx(next, account, r.media.id)
            == if |related| > MAX_TASKS then Err(Internal) else Ok(TreeView(r, item, related))
  {
    WithinCaps(next, r);
    NodeKeysReadBack(next, r);
    OwnedVersionsReadBack(next, r, None);
    ChildrenReadBack(next, r, Ascending(TreeNodeKeys(r.media.nodes)));
  }

  /**
   After a successful apply the detail of the item regroups exactly the applied tree, with nothing left
   of an earlier result, and no size cap fails unless more than 32 tasks relate to the item.
   */
  lemma AppliedResultReadsBack(db: Tables, account: Id, r: LocalResult, now: I64)
    requires RowsOwned(db) && Commits(db, account, r, now)
    ensures var next := ApplyTx(db, account, r, now).0;
            var related := RelatedTasks(next.applied, account, r.media.id);
            DetailTx(next, account, r.media.id)
            == if |related| > MAX_TASKS then Err(Internal) else Ok(TreeView(r, NextItem(db, account, r, now), related))
  {
    ProjectionOf(db, account, r, now);
    CommittedTables(db, account, r, now);
    ReadsBack(ApplyTx(db, account, r, now).0, account, r, NextItem(db, account, r, now));
  }

  // ---- Other items keep their rows ----------------------------------------------------------------

  lemma ClearingKeepsOthers<K, V>(table: map<K, V>, mine: (K, V) -> bool)
    ensures Without(Without(table, mine), mine) == Without(table, mine)
  {
  }

  lemma InsertingKeepsOthers<K, V>(begun: map<K, V>, rows: seq<(K, V)>, mine: (K, V) -> bool)
    requires Free(begun, rows) && DistinctKeys(rows) && forall i | 0 <= i < |rows| :: mine(rows[i].0, rows[i].1)
    ensures Without(begun + Rows(rows), mine) == Without(begun, mine)
  {
    forall k | k in Rows(rows)
      ensures k !in begun && mine(k, Rows(rows)[k])
    {
      var i := RowsFrom(rows, k);
      RowsAt(rows, i);
    }
  }

  /** The tables hold the same rows of all items but this one. */
  ghost predicate OtherItemsKept(db: Tables, next: Tables, media: Id) {
    && Without(next.nodes, OfNode(media)) == Without(db.nodes, OfNode(media))
    && Without(next.versions, OfVersion(media)) == Without(db.versions, OfVersion(media))
    && Without(next.links, OfLink(media)) == Without(db.links, OfLink(media))
    && Without(next.assets, OfAsset(media)) == Without(db.assets, OfAsset(media))
    && Without(next.metadata, OfValue(media)) == Without(db.metadata, OfValue(media))
    && Without(next.artwork, OfArtwork(media)) == Without(db.artwork, OfArtwork(media))
  }

  lemma ClearKeepsOthers(db: Tables, media: Id)
    ensures OtherItemsKept(db, Cleared(db, media), media)
  {
    ClearingKeepsOthers(db.nodes, OfNode(media));
    ClearingKeepsOthers(db.versions, OfVersion(media));
    ClearingKeepsOthers(db.links, OfLink(media));
    ClearingKeepsOthers(db.assets, OfAsset(media));
    ClearingKeepsOthers(db.metadata, OfValue(media));
    ClearingKeepsOthers(db.artwork, OfArtwork(media));
  }

  lemma BeginKeepsOthers(db: Tables, account: Id, r: LocalResult, now: I64)
    ensures OtherItemsKept(db, BeginReplacement(db, account, r, now), r.media.id)
  {
    if r.media.id in db.items {
      ClearKeepsOthers(db, r.media.id);
    } else {
      var next := BeginReplacement(db, account, r, now);
      assert next == db.(history := next.history);
    }
  }

  lemma LinkRowsAreMine(media: Id, versions: seq<Version>)
    ensures forall i | 0 <= i < |LinkRows(media, versions)| ::
              OfLink(media)(LinkRows(media, versions)[i].0, LinkRows(media, versions)[i].1)
  {
    forall i | 0 <= i < |LinkRows(media, versions)|
      ensures OfLink(media)(LinkRows(media, versions)[i].0, LinkRows(media, versions)[i].1)
    {
      var v, k := LinkRowFrom(media, versions, i);
    }
  }

  lemma InsertKeepsTree(begun: Tables, account: Id, r: LocalResult)
    requires DistinctNodes(r.media.nodes) && DistinctVersions(r.media.versions)
    requires Free(begun.nodes, NodeRows(r.media.id, r.media.nodes))
    requires Free(begun.versions, VersionRows(r.media.id, r.media.versions))
    requires Free(begun.links, LinkRows(r.media.id, r.media.versions))
    ensures var next, media := Inserted(begun, account, r), r.media.id;
            && Without(next.nodes, OfNode(media)) == Without(begun.nodes, OfNode(media))
            && Without(next.versions, OfVersion(media)) == Without(begun.versions, OfVersion(media))
            && Without(next.links, OfLink(media)) == Without(begun.links, OfLink(media))
  {
    var media := r.media.id;
    LinkRowsAreDistinct(media, r.media.versions);
    LinkRowsAreMine(media, r.media.versions);
    InsertingKeepsOthers(begun.nodes, NodeRows(media, r.media.nodes), OfNode(media));
    InsertingKeepsOthers(begun.versions, VersionRows(media, r.media.versions), OfVersion(media));
    InsertingKeepsOthers(begun.links, LinkRows(media, r.media.versions), OfLink(media));
  }

  lemma InsertKeepsValues(begun: Tables, account: Id, r: LocalResult)
    requires AssetsValid(r.assets) && MetadataValid(r.media.metadata) && ArtworksValid(r.media.artwork)
    requires Free(begun.assets, AssetRows(account, r.media.id, r.assets))
    requires Free(begun.metadata, ValueRows(r.media.id, r.media.metadata))
    requires Free(begun.artwork, ArtworkRows(r.media.id, r.media.artwork))
    ensures var next, media := Inserted(begun, account, r), r.media.id;
            && Without(next.assets, OfAsset(media)) == Without(begun.assets, OfAsset(media))
            && Without(next.metadata, OfValue(media)) == Without(begun.metadata, OfValue(media))
            && Without(next.artwork, OfArtwork(media)) == Without(begun.artwork, OfArtwork(media))
  {
    var media := r.media.id;
    InsertingKeepsOthers(begun.assets, AssetRows(account, media, r.assets), OfAsset(media));
    InsertingKeepsOthers(begun.metadata, ValueRows(media, r.media.metadata), OfValue(media));
    InsertingKeepsOthers(begun.artwork, ArtworkRows(media, r.media.artwork), OfArtwork(media));
  }

  lemma InsertKeepsOthers(begun: Tables, account: Id, r: LocalResult)
    requires ResultValid(r) && Insertable(begun, account, r)
    ensures OtherItemsKept(begun, Inserted(begun, account, r), r.media.id)
  {
    InsertKeepsTree(begun, account, r);
    InsertKeepsValues(begun, account, r);
  }

  /** An apply touches the rows of its own item only. */
  lemma ApplyKeepsOtherItems(db: Tables, account: Id, r: LocalResult, now: I64)
    requires Commits(db, account, r, now)
    ensures OtherItemsKept(db, ApplyTx(db, account, r, now).0, r.media.id)
  {
    CommittedTables(db, account, r, now);
    BeginKeepsOthers(db, account, r, now);
    InsertKeepsOthers(BeginReplacement(db, account, r, now), account, r);
  }

  // ---- Versions, notices and lists follow the results ---------------------------------------------

  function AppliedTo(applied: map<Id, Applied>, media: Id): set<Id> {
    set id | id in applied && applied[id].media == media
  }

  function Notices(outbox: seq<Changed>, media: Id): nat {
    if outbox == [] then 0
    else Notices(outbox[..|outbox| - 1], media) + if outbox[|outbox| - 1].media == media then 1 else 0
  }

  /** Every notice carries the number of notices of its item so far; the first announces a new item. */
  predicate NoticesOk(outbox: seq<Changed>) {
    outbox == []
    || var earlier, last := outbox[..|outbox| - 1], outbox[|outbox| - 1];
       && NoticesOk(earlier)
       && last.version == Clamp(Notices(earlier, last.media) + 1)
       && (last.created <==> Notices(earlier, last.media) == 0)
  }

  ghost predicate VersionOk(db: Tables, media: Id) {
    && Notices(db.outbox, media) == |AppliedTo(db.applied, media)|
    && (media in db.items <==> AppliedTo(db.applied, media) != {})
    && (media in db.items ==> db.items[media].version == Clamp(|AppliedTo(db.applied, media)|))
  }

  /** The newest history row of an item is the item as it stands. */
  ghost predicate ListedOk(db: Tables, media: Id) {
    var latest := P.Latest(db.history, |db.history|, media);
    && (media in db.items <==> latest.Some?)
    && (media in db.items ==> db.history[latest.value] == HistoryOf(media, db.items[media], FindPoster(db.artwork, media)))
  }

  ghost predicate AppliedOk(db: Tables) {
    forall id | id in db.applied ::
      && db.applied[id].result.id == id && db.applied[id].result.media.id == db.applied[id].media
      && db.applied[id].media in db.items && db.items[db.applied[id].media].account == db.applied[id].account
  }

  ghost predicate StoreOk(db: Tables) {
    && RowsOwned(db) && Keyed(db.nodes) && AppliedOk(db) && NoticesOk(db.outbox)
    && (forall media :: VersionOk(db, media)) && (forall media :: ListedOk(db, media))
  }

  lemma NoRowsKept(db: Tables, next: Tables, mine: Id, media: Id)
    requires OtherItemsKept(db, next, mine) && media != mine && NoRows(db, media)
    ensures NoRows(next, media)
  {
    forall k | k in next.nodes
      ensures next.nodes[k].media != media
    {
      assert next.nodes[k].media != mine ==> k in Without(next.nodes, OfNode(mine));
    }
    forall k | k in next.versions
      ensures next.versions[k].media != media
    {
      assert next.versions[k].media != mine ==> k in Without(next.versions, OfVersion(mine));
    }
    forall k | k in next.links
      ensures next.links[k].media != media
    {
      assert next.links[k].media != mine ==> k in Without(next.links, OfLink(mine));
    }
    forall k | k in next.assets
      ensures next.assets[k].media != media
    {
      assert next.assets[k].media != mine ==> k in Without(next.assets, OfAsset(mine));
    }
    forall k | k in next.metadata
      ensures k.media != media
    {
      assert k.media != mine ==> k in Without(next.metadata, OfValue(mine));
    }
    forall k | k in next.artwork
      ensures next.artwork[k].media != media
    {
      assert next.artwork[k].media != mine ==> k in Without(next.artwork, OfArtwork(mine));
    }
  }

  lemma ApplyKeepsRowsOwned(db: Tables, account: Id, r: LocalResult, now: I64)
    requires RowsOwned(db) && Commits(db, account, r, now)
    ensures RowsOwned(ApplyTx(db, account, r, now).0)
  {
    var next := ApplyTx(db, account, r, now).0;
    CommittedTables(db, account, r, now);
    ApplyKeepsOtherItems(db, account, r, now);
    forall media | media !in next.items
      ensures NoRows(next, media)
    {
      assert NoRows(db, media);
      NoRowsKept(db, next, r.media.id, media);
    }
  }

  lemma ApplyKeepsKeyed(db: Tables, account: Id, r: LocalResult, now: I64)
    requires Keyed(db.nodes) && RowsOwned(db) && Commits(db, account, r, now)
    ensures Keyed(ApplyTx(db, account, r, now).0.nodes)
  {
    var next := ApplyTx(db, account, r, now).0;
    ProjectionOf(db, account, r, now);
    ApplyKeepsOtherItems(db, account, r, now);
    forall id | id in next.nodes
      ensures next.nodes[id].node.id == id
    {
      if next.nodes[id].media == r.media.id {
        assert NodeHolds(next, r, id);
      } else {
        assert id in Without(next.nodes, OfNode(r.media.id));
      }
    }
  }

  /** What a committed result does to items, results and lists. */
  ghost predicate Committed(db: Tables, next: Tables, account: Id, r: LocalResult, now: I64) {
    var media, item := r.media.id, NextItem(db, account, r, now);
    && r.id !in db.applied && (media in db.items ==> db.items[media].account == account)
    && next.items == db.items[media := item] && item.account == account
    && item.version == (if media in db.items then SatAdd(db.items[media].version, 1) else 1)
    && next.applied == db.applied[r.id := Applied(account, r.task, media, r, now)]
    && next.outbox == db.outbox + [Changed(media, item.version, media !in db.items)]
    && next.history == db.history + Appended(db, next, account, r, now)
    && OtherItemsKept(db, next, media)
  }

  function Appended(db: Tables, next: Tables, account: Id, r: LocalResult, now: I64): seq<HistoryRow> {
    var last := HistoryOf(r.media.id, NextItem(db, account, r, now), FindPoster(next.artwork, r.media.id));
    if r.media.id in db.items then [last] else FirstRow(db, account, r, now) + [last]
  }

  lemma HistoriesJoin(db: Tables, inserted: Tables, next: Tables, account: Id, r: LocalResult, now: I64)
    requires r.media.id in db.items ==> inserted.history == db.history
    requires r.media.id !in db.items ==> inserted.history == db.history + FirstRow(db, account, r, now)
    requires next.artwork == inserted.artwork
    requires next.history
             == inserted.history + [HistoryOf(r.media.id, NextItem(db, account, r, now), FindPoster(inserted.artwork, r.media.id))]
    ensures next.history == db.history + Appended(db, next, account, r, now)
  {
  }

  lemma CommittedHistory(db: Tables, account: Id, r: LocalResult, now: I64)
    requires ApplyTx(db, account, r, now).0
             == FinishReplacement(Inserted(BeginReplacement(db, account, r, now), account, r), account, r,
                                  NextItem(db, account, r, now), r.media.id !in db.items, now)
    ensures var next := ApplyTx(db, account, r, now).0;
            && next.history == db.history + Appended(db, next, account, r, now)
            && next.outbox == db.outbox + [Changed(r.media.id, NextItem(db, account, r, now).version, r.media.id !in db.items)]
  {
    var inserted := Inserted(BeginReplacement(db, account, r, now), account, r);
    FinishUnfolds(inserted, account, r, NextItem(db, account, r, now), r.media.id !in db.items, now);
    BeginUnfolds(db, account, r, now);
    HistoriesJoin(db, inserted, ApplyTx(db, account, r, now).0, account, r, now);
  }

  lemma ApplyCommits(db: Tables, account: Id, r: LocalResult, now: I64)
    requires Commits(db, account, r, now)
    ensures Committed(db, ApplyTx(db, account, r, now).0, account, r, now)
  {
    ApplyUnfolds(db, account, r, now);
    CommittedTables(db, account, r, now);
    CommittedHistory(db, account, r, now);
    ApplyKeepsOtherItems(db, account, r, now);
  }

  lemma AppliedGrows(applied: map<Id, Applied>, id: Id, row: Applied, media: Id)
    requires id !in applied
    ensures AppliedTo(applied[id := row], media) == AppliedTo(applied, media) + (if row.media == media then {id} else {})
    ensures |AppliedTo(applied[id := row], media)| == |AppliedTo(applied, media)| + (if row.media == media then 1 else 0)
  {
    assert AppliedTo(applied[id := row], media) == AppliedTo(applied, media) + (if row.media == media then {id} else {});
  }

  lemma VersionKept(db: Tables, next: Tables, account: Id, r: LocalResult, now: I64, media: Id)
    requires VersionOk(db, media) && Committed(db, next, account, r, now)
    ensures VersionOk(next, media)
  {
    AppliedGrows(db.applied, r.id, Applied(account, r.task, r.media.id, r, now), media);
    assert next.outbox[..|db.outbox|] == db.outbox;
  }

  lemma NoticesKept(db: Tables, next: Tables, account: Id, r: LocalResult, now: I64)
    requires NoticesOk(db.outbox) && VersionOk(db, r.media.id) && Committed(db, next, account, r, now)
    ensures NoticesOk(next.outbox)
  {
    assert next.outbox[..|db.outbox|] == db.outbox;
  }

  lemma AppliedKept(db: Tables, next: Tables, account: Id, r: LocalResult, now: I64)
    requires AppliedOk(db) && Committed(db, next, account, r, now)
    ensures AppliedOk(next)
  {
  }

  lemma LatestSkips(history: seq<HistoryRow>, tail: seq<HistoryRow>, media: Id)
    requires forall i | 0 <= i < |tail| :: tail[i].media != media
    ensures P.Latest(history + tail, |history + tail|, media) == P.Latest(history, |history|, media)
  {
    var all := history + tail;
    P.LatestIsFrozen(history, all, |history|, media);
    var latest := P.Latest(all, |all|, media);
    assert forall i | |history| <= i < |all| :: all[i] == tail[i - |history|];
    assert latest.Some? ==> latest.value < |history|;
    var before := P.Latest(all, |history|, media);
    assert before.Some? ==> all[before.value].media == media;
    assert latest.Some? ==> all[latest.value].media == media;
  }

  lemma PostersOfOthersKept(db: Tables, next: Tables, mine: Id, media: Id)
    requires OtherItemsKept(db, next, mine) && media != mine
    ensures FindPoster(next.artwork, media) == FindPoster(db.artwork, media)
  {
    forall k
      ensures k in PosterKeys(next.artwork, media) <==> k in PosterKeys(db.artwork, media)
    {
      if k in PosterKeys(next.artwork, media) {
        var id :| id in next.artwork && next.artwork[id].media == media && next.artwork[id].artwork.kind.Poster? && k == Key(0, id);
        assert id in Without(next.artwork, OfArtwork(mine)) && id in Without(db.artwork, OfArtwork(mine));
      }
      if k in PosterKeys(db.artwork, media) {
        var id :| id in db.artwork && db.artwork[id].media == media && db.artwork[id].artwork.kind.Poster? && k == Key(0, id);
        assert id in Without(db.artwork, OfArtwork(mine)) && id in Without(next.artwork, OfArtwork(mine));
      }
    }
    var keys := PosterKeys(db.artwork, media);
    assert PosterKeys(next.artwork, media) == keys;
    if keys != {} {
      var id := Least(keys).minor;
      assert id in Without(db.artwork, OfArtwork(mine)) && id in Without(next.artwork, OfArtwork(mine));
    }
  }

  lemma ListedKept(db: Tables, next: Tables, account: Id, r: LocalResult, now: I64, media: Id)
    requires ListedOk(db, media) && Committed(db, next, account, r, now)
    ensures ListedOk(next, media)
  {
    if media == r.media.id {
      assert next.history[|next.history| - 1].media == media;
    } else {
      PostersOfOthersKept(db, next, r.media.id, media);
      LatestSkips(db.history, Appended(db, next, account, r, now), media);
    }
  }

  lemma ApplyKeeps(db: Tables, account: Id, r: LocalResult, now: I64)
    requires StoreOk(db) && Commits(db, account, r, now)
    ensures StoreOk(ApplyTx(db, account, r, now).0)
  {
    var next := ApplyTx(db, account, r, now).0;
    ApplyCommits(db, account, r, now);
    ApplyKeepsRowsOwned(db, account, r, now);
    ApplyKeepsKeyed(db, account, r, now);
    AppliedKept(db, next, account, r, now);
    assert VersionOk(db, r.media.id);
    NoticesKept(db, next, account, r, now);
    forall media
      ensures VersionOk(next, media)
    {
      VersionKept(db, next, account, r, now, media);
    }
    forall media
      ensures ListedOk(next, media)
    {
      ListedKept(db, next, account, r, now, media);
    }
  }

  lemma EnvironmentKeeps(db: Tables, tasks: map<Id, Task>, revisions: map<Id, Id>)
    requires StoreOk(db)
    ensures StoreOk(db.(tasks := tasks, revisions := revisions))
  {
    var next := db.(tasks := tasks, revisions := revisions);
    assert forall media :: NoRows(db, media) ==> NoRows(next, media);
    assert forall media :: VersionOk(db, media) ==> VersionOk(next, media);
    assert forall media :: ListedOk(db, media) ==> ListedOk(next, media);
  }

  lemma {:induction false} EveryStoreIsOk(steps: seq<Step>)
    ensures StoreOk(Exec(steps))
  {
    if steps != [] {
      var db, s := Exec(steps[..|steps| - 1]), steps[|steps| - 1];
      EveryStoreIsOk(steps[..|steps| - 1]);
      match s
      case Apply(account, r, now) =>
        ApplyUnfolds(db, account, r, now);
        if Commits(db, account, r, now) {
          ApplyKeeps(db, account, r, now);
        }
      case Environment(tasks, revisions) => EnvironmentKeeps(db, tasks, revisions);
    }
  }

  // ---- The detail is always the last result -------------------------------------------------------

  /** The item's rows are those of the result. */
  ghost predicate Shows(db: Tables, r: LocalResult) {
    && Projected(db, r) && |LinkKeys(db.links, r.media.id)| <= MAX_FILE_LINKS
    && ValuesOf(db.metadata, r.media.id) == TreeValues(r.media.metadata)
    && FindPoster(db.artwork, r.media.id) == PosterOf(r.media.artwork)
  }

  lemma NodeHoldsKept(db: Tables, next: Tables, mine: Id, r: LocalResult, id: Id)
    requires Without(next.nodes, OfNode(mine)) == Without(db.nodes, OfNode(mine))
    requires r.media.id != mine && NodeHolds(db, r, id)
    ensures NodeHolds(next, r, id)
  {
    assert id in db.nodes && db.nodes[id].media != mine ==> id in Without(db.nodes, OfNode(mine));
    assert id in next.nodes && next.nodes[id].media != mine ==> id in Without(next.nodes, OfNode(mine));
  }

  lemma VersionHoldsKept(db: Tables, next: Tables, mine: Id, r: LocalResult, id: Id)
    requires Without(next.versions, OfVersion(mine)) == Without(db.versions, OfVersion(mine))
    requires r.media.id != mine && VersionHolds(db, r, id)
    ensures VersionHolds(next, r, id)
  {
    assert id in db.versions && db.versions[id].media != mine ==> id in Without(db.versions, OfVersion(mine));
    assert id in next.versions && next.versions[id].media != mine ==> id in Without(next.versions, OfVersion(mine));
  }

  lemma AssetHoldsKept(db: Tables, next: Tables, mine: Id, r: LocalResult, i: nat)
    requires Without(next.assets, OfAsset(mine)) == Without(db.assets, OfAsset(mine))
    requires r.media.id != mine && i < |r.assets| && AssetHolds(db, r, i)
    ensures AssetHolds(next, r, i)
  {
    assert r.assets[i].id in Without(db.assets, OfAsset(mine));
    assert r.assets[i].id in Without(next.assets, OfAsset(mine));
  }

  lemma LinkHoldsKept(db: Tables, next: Tables, mine: Id, r: LocalResult, v: nat, k: int)
    requires Without(next.links, OfLink(mine)) == Without(db.links, OfLink(mine))
    requires r.media.id != mine && v < |r.media.versions| && LinkHolds(db, r, v, k)
    ensures LinkHolds(next, r, v, k)
  {
    var key := Key(r.media.versions[v].id, k);
    assert key in db.links && db.links[key].media != mine ==> key in Without(db.links, OfLink(mine));
    assert key in next.links && next.links[key].media != mine ==> key in Without(next.links, OfLink(mine));
  }

  lemma LinkKeysKept(db: Tables, next: Tables, mine: Id, media: Id)
    requires Without(next.links, OfLink(mine)) == Without(db.links, OfLink(mine)) && media != mine
    ensures LinkKeys(next.links, media) == LinkKeys(db.links, media)
  {
    forall k
      ensures k in LinkKeys(next.links, media) <==> k in LinkKeys(db.links, media)
    {
      assert k in db.links && db.links[k].media != mine ==> k in Without(db.links, OfLink(mine));
      assert k in next.links && next.links[k].media != mine ==> k in Without(next.links, OfLink(mine));
    }
  }

  lemma ValuesKept(db: Tables, next: Tables, mine: Id, media: Id)
    requires Without(next.metadata, OfValue(mine)) == Without(db.metadata, OfValue(mine)) && media != mine
    ensures ValuesOf(next.metadata, media) == ValuesOf(db.metadata, media)
  {
    forall v
      ensures v in ValuesOf(next.metadata, media) <==> v in ValuesOf(db.metadata, media)
    {
      if v in ValuesOf(next.metadata, media) {
        var f :| f in next.metadata && f.media == media && next.metadata[f] == v;
        assert f in Without(next.metadata, OfValue(mine)) && f in Without(db.metadata, OfValue(mine));
      }
      if v in ValuesOf(db.metadata, media) {
        var f :| f in db.metadata && f.media == media && db.metadata[f] == v;
        assert f in Without(db.metadata, OfValue(mine)) && f in Without(next.metadata, OfValue(mine));
      }
    }
  }

  lemma ShowsKept(db: Tables, next: Tables, mine: Id, r: LocalResult)
    requires OtherItemsKept(db, next, mine) && r.media.id != mine && Shows(db, r)
    ensures Shows(next, r)
  {
    forall id
      ensures NodeHolds(next, r, id)
    {
      NodeHoldsKept(db, next, mine, r, id);
    }
    forall id
      ensures VersionHolds(next, r, id)
    {
      VersionHoldsKept(db, next, mine, r, id);
    }
    forall i: nat | i < |r.assets|
      ensures AssetHolds(next, r, i)
    {
      AssetHoldsKept(db, next, mine, r, i);
    }
    forall v: nat, k | v < |r.media.versions|
      ensures LinkHolds(next, r, v, k)
    {
      LinkHoldsKept(db, next, mine, r, v, k);
    }
    LinkKeysKept(db, next, mine, r.media.id);
    ValuesKept(db, next, mine, r.media.id);
    PostersOfOthersKept(db, next, mine, r.media.id);
  }

  /** The last result of the run that was committed for the item. */
  function LastResult(steps: seq<Step>, media: Id): Option<LocalResult> {
    if steps == [] then None
    else
      var s := steps[|steps| - 1];
      if s.Apply? && s.r.media.id == media && Commits(Exec(steps[..|steps| - 1]), s.account, s.r, s.now) then Some(s.r)
      else LastResult(steps[..|steps| - 1], media)
  }

  lemma StepShows(db: Tables, account: Id, r: LocalResult, now: I64, last: LocalResult)
    requires StoreOk(db) && (r.media.id != last.media.id ==> Shows(db, last)) && Commits(db, account, r, now)
    requires r.media.id == last.media.id ==> last == r
    ensures Shows(ApplyTx(db, account, r, now).0, last)
  {
    if r.media.id == last.media.id {
      ProjectionOf(db, account, r, now);
    } else {
      ApplyKeepsOtherItems(db, account, r, now);
      ShowsKept(db, ApplyTx(db, account, r, now).0, r.media.id, last);
    }
  }

  lemma EnvironmentShows(db: Tables, tasks: map<Id, Task>, revisions: map<Id, Id>, last: LocalResult)
    requires Shows(db, last)
    ensures Shows(db.(tasks := tasks, revisions := revisions), last)
  {
    SameRowsProjected(db, db.(tasks := tasks, revisions := revisions), last);
  }

  /** The last result of the item, if it has one, is what its rows show. */
  ghost predicate ShowsLast(db: Tables, media: Id, last: Option<LocalResult>) {
    && (media in db.items <==> last.Some?)
    && (last.Some? ==> last.value.media.id == media && Shows(db, last.value) && ResultValid(last.value))
  }

  lemma ApplyShowsLast(db: Tables, account: Id, r: LocalResult, now: I64, media: Id, last: Option<LocalResult>)
    requires StoreOk(db) && ShowsLast(db, media, last) && Commits(db, account, r, now)
    ensures ShowsLast(ApplyTx(db, account, r, now).0, media, if r.media.id == media then Some(r) else last)
  {
    CommittedTables(db, account, r, now);
    if r.media.id == media {
      StepShows(db, account, r, now, r);
    } else if last.Some? {
      StepShows(db, account, r, now, last.value);
    }
  }

  lemma {:induction false} RowsAreTheLastResult(steps: seq<Step>, media: Id)
    ensures ShowsLast(Exec(steps), media, LastResult(steps, media))
  {
    if steps != [] {
      var earlier, s := steps[..|steps| - 1], steps[|steps| - 1];
      var db := Exec(earlier);
      RowsAreTheLastResult(earlier, media);
      match s
      case Apply(account, r, now) =>
        if Commits(db, account, r, now) {
          EveryStoreIsOk(earlier);
          ApplyShowsLast(db, account, r, now, media, LastResult(earlier, media));
        } else {
          ApplyUnfolds(db, account, r, now);
        }
      case Environment(tasks, revisions) =>
        if media in db.items {
          EnvironmentShows(db, tasks, revisions, LastResult(earlier, media).value);
        }
    }
  }

  /**
   At any time of any run the detail of an item is the tree of the last result applied to it, whatever
   results came before, came again or were applied to other items.
   */
  lemma DetailIsTheLastResult(steps: seq<Step>, media: Id)
    requires media in Exec(steps).items
    ensures var db := Exec(steps);
            var item := db.items[media];
            var related := RelatedTasks(db.applied, item.account, media);
            && LastResult(steps, media).Some?
            && DetailTx(db, item.account, media)
               == if |related| > MAX_TASKS then Err(Internal) else Ok(TreeView(LastResult(steps, media).value, item, related))
  {
    RowsAreTheLastResult(steps, media);
    var db := Exec(steps);
    ReadsBack(db, db.items[media].account, LastResult(steps, media).value, db.items[media]);
  }

  // ---- Repeats, versions and lists ----------------------------------------------------------------

  lemma StepKeepsApplied(db: Tables, s: Step, id: Id)
    requires id in db.applied
    ensures id in Perform(db, s).applied && Perform(db, s).applied[id] == db.applied[id]
  {
    if s.Apply? {
      if Commits(db, s.account, s.r, s.now) {
        ApplyCommits(db, s.account, s.r, s.now);
      } else {
        ApplyUnfolds(db, s.account, s.r, s.now);
      }
    }
  }

  lemma {:induction false} AppliedResultsStay(steps: seq<Step>, k: nat, id: Id)
    requires k <= |steps| && id in Exec(steps[..k]).applied
    ensures id in Exec(steps).applied && Exec(steps).applied[id] == Exec(steps[..k]).applied[id]
  {
    if k == |steps| {
      assert steps[..k] == steps;
    } else {
      var earlier, s := steps[..|steps| - 1], steps[|steps| - 1];
      assert earlier[..k] == steps[..k];
      AppliedResultsStay(earlier, k, id);
      StepKeepsApplied(Exec(earlier), s, id);
    }
  }

  /** Applying a result again changes nothing at any later time; the same identity with other content conflicts. */
  lemma RepeatsChangeNothing(steps: seq<Step>, k: nat, account: Id, r: LocalResult, now: I64)
    requires k <= |steps| && r.id in Exec(steps[..k]).applied && ResultValid(r)
    ensures var before := Exec(steps[..k]).applied[r.id];
            ApplyTx(Exec(steps), account, r, now)
            == (Exec(steps), if before.account == account && before.result == r then Ok(r.media.id) else Err(RequestConflict))
  {
    AppliedResultsStay(steps, k, r.id);
    EveryStoreIsOk(steps);
    ApplyUnfolds(Exec(steps), account, r, now);
  }

  /** An item's projection version is the number of distinct results applied to it, and so is its number of notices. */
  lemma VersionCountsResults(steps: seq<Step>, media: Id)
    requires |AppliedTo(Exec(steps).applied, media)| <= MAX
    ensures var db := Exec(steps);
            && (media in db.items ==> db.items[media].version == |AppliedTo(db.applied, media)|)
            && Notices(db.outbox, media) == |AppliedTo(db.applied, media)| && NoticesOk(db.outbox)
  {
    EveryStoreIsOk(steps);
    assert VersionOk(Exec(steps), media);
  }

  lemma LatestOfPrefix(history: seq<HistoryRow>, n: nat, media: Id, i: nat)
    requires i < n <= |history| && P.Latest(history, |history|, media) == Some(i)
    ensures P.Latest(history, n, media) == Some(i)
  {
    var latest := P.Latest(history, n, media);
    assert history[i].media == media;
    assert latest.Some? && history[latest.value].media == media;
  }

  /** Every history row tells of an item, under the item's own account. */
  ghost predicate HistoryOwned(db: Tables) {
    forall i | 0 <= i < |db.history| ::
      db.history[i].media in db.items && db.items[db.history[i].media].account == db.history[i].account
  }

  lemma CommitKeepsHistoryOwned(db: Tables, next: Tables, account: Id, r: LocalResult, now: I64)
    requires HistoryOwned(db) && Committed(db, next, account, r, now)
    ensures HistoryOwned(next)
  {
    forall i | 0 <= i < |next.history|
      ensures next.history[i].media in next.items && next.items[next.history[i].media].account == next.history[i].account
    {
      if i < |db.history| {
        assert next.history[i] == db.history[i];
      } else {
        assert next.history[i] in Appended(db, next, account, r, now);
      }
    }
  }

  lemma {:induction false} HistoryStaysOwned(steps: seq<Step>)
    ensures HistoryOwned(Exec(steps))
  {
    if steps != [] {
      var db, s := Exec(steps[..|steps| - 1]), steps[|steps| - 1];
      HistoryStaysOwned(steps[..|steps| - 1]);
      if s.Apply? {
        if Commits(db, s.account, s.r, s.now) {
          ApplyCommits(db, s.account, s.r, s.now);
          CommitKeepsHistoryOwned(db, Perform(db, s), s.account, s.r, s.now);
        } else {
          ApplyUnfolds(db, s.account, s.r, s.now);
        }
      }
    }
  }

  /** The row tells of an item of the account as it stands, and the filter lets it through. */
  ghost predicate IsCurrent(db: Tables, account: Id, filter: P.Filter, media: Id, row: HistoryRow) {
    && media in db.items && row == HistoryOf(media, db.items[media], FindPoster(db.artwork, media))
    && row.account == account && P.Matches(filter, row)
  }

  lemma ShownIsListed(db: Tables, account: Id, filter: P.Filter, media: Id, row: HistoryRow)
    requires ListedOk(db, media) && IsCurrent(db, account, filter, media, row)
    ensures var last := P.LastRevision(db.history, account);
            last.Some? && row in P.Snapshot(db.history, last.value, account, filter)
  {
    var i := P.Latest(db.history, |db.history|, media).value;
    assert db.history[i] == row;
    var n := P.LastRevision(db.history, account).value;
    LatestOfPrefix(db.history, n, media, i);
    P.SnapshotHoldsLatestRows(db.history, n, account, filter, i);
  }

  lemma ListedIsShown(db: Tables, account: Id, filter: P.Filter, row: HistoryRow)
    requires HistoryOwned(db) && ListedOk(db, row.media)
    requires var last := P.LastRevision(db.history, account);
             last.Some? && row in P.Snapshot(db.history, last.value, account, filter)
    ensures IsCurrent(db, account, filter, row.media, row)
  {
    var n := P.LastRevision(db.history, account).value;
    var i := P.SnapshotRowsAreLatest(db.history, n, account, filter, row);
    LatestIsListed(db, account, n, i);
  }

  /** The last row of an item before the account's newest row is its last row altogether. */
  lemma LatestIsListed(db: Tables, account: Id, n: nat, i: nat)
    requires HistoryOwned(db) && P.LastRevision(db.history, account) == Some(n)
    requires i < n && db.history[i].account == account && P.Latest(db.history, n, db.history[i].media) == Some(i)
    ensures P.Latest(db.history, |db.history|, db.history[i].media) == Some(i)
  {
    var media := db.history[i].media;
    var latest := P.Latest(db.history, |db.history|, media).value;
    assert db.history[latest].media == media;
    assert db.history[latest].account == account;
  }

  /**
   A fresh list of an account shows exactly its matching items, each as it stands now; an account without
   items has nothing to list.
   */
  lemma ListShowsTheCatalog(steps: seq<Step>, account: Id, filter: P.Filter, row: HistoryRow)
    ensures var db := Exec(steps);
            var last := P.LastRevision(db.history, account);
            (last.Some? && row in P.Snapshot(db.history, last.value, account, filter))
            <==> exists media :: IsCurrent(db, account, filter, media, row)
  {
    var db := Exec(steps);
    EveryStoreIsOk(steps);
    HistoryStaysOwned(steps);
    if media :| IsCurrent(db, account, filter, media, row) {
      assert ListedOk(db, media);
      ShownIsListed(db, account, filter, media, row);
    }
    var last := P.LastRevision(db.history, account);
    if last.Some? && row in P.Snapshot(db.history, last.value, account, filter) {
      assert ListedOk(db, row.media);
      ListedIsShown(db, account, filter, row);
    }
  }
}
