/**
 A projection reads back as the tree that was applied: after a successful apply the detail query
 regroups exactly the result's nodes, versions, files and metadata, and nothing of an earlier result.
 */
module CatalogProjection {
  import opened Outcomes
  import opened Int64
  import opened Ordering
  import opened Catalog

  // ---- The tree of a result, as the detail shows it ---------------------------------------------

  function FindNode(nodes: seq<Node>, id: Id): (r: Option<Node>)
    ensures r.Some? ==> r.value in nodes && r.value.id == id
    ensures r.None? ==> forall i | 0 <= i < |nodes| :: nodes[i].id != id
  {
    if nodes == [] then None else if nodes[0].id == id then Some(nodes[0]) else FindNode(nodes[1..], id)
  }

  function FindVersion(versions: seq<Version>, id: Id): (r: Option<Version>)
    ensures r.Some? ==> r.value in versions && r.value.id == id
    ensures r.None? ==> forall i | 0 <= i < |versions| :: versions[i].id != id
  {
    if versions == [] then None else if versions[0].id == id then Some(versions[0]) else FindVersion(versions[1..], id)
  }

  function FindAsset(assets: seq<Asset>, id: Id): (r: Option<Asset>)
    ensures r.Some? ==> r.value in assets && r.value.id == id
    ensures r.None? ==> forall i | 0 <= i < |assets| :: assets[i].id != id
  {
    if assets == [] then None else if assets[0].id == id then Some(assets[0]) else FindAsset(assets[1..], id)
  }

  function FileViewOf(a: Asset): FileView {
    FileView(a.id, a.sourcePath, a.currentPath, a.size)
  }

  /** The files of a version in the order the version lists them. */
  function TreeFiles(assets: seq<Asset>, files: seq<Id>): seq<FileView> {
    if files == [] then []
    else
      var asset := FindAsset(assets, files[|files| - 1]);
      TreeFiles(assets, files[..|files| - 1]) + if asset.Some? then [FileViewOf(asset.value)] else []
  }

  function OwnedKeys(versions: seq<Version>, owner: Option<Id>): set<Key> {
    set i | 0 <= i < |versions| && versions[i].owner == owner :: Key(OwnerRank(owner), versions[i].id)
  }

  function TreeVersionsAt(r: LocalResult, keys: seq<Key>): seq<VersionView> {
    if keys == [] then []
    else
      var k := keys[|keys| - 1];
      var version := if k.minor >= 0 then FindVersion(r.media.versions, k.minor) else None;
      TreeVersionsAt(r, keys[..|keys| - 1])
        + if version.Some? then [VersionView(version.value.id, version.value.caption, TreeFiles(r.assets, version.value.files))]
          else []
  }

  /** The versions of one owner, by identity. */
  function TreeVersions(r: LocalResult, owner: Option<Id>): seq<VersionView> {
    TreeVersionsAt(r, Ascending(OwnedKeys(r.media.versions, owner)))
  }

  function TreeNodeKeys(nodes: seq<Node>): set<Key> {
    set i | 0 <= i < |nodes| :: NodeKey(nodes[i])
  }

  function TreeChildrenAt(r: LocalResult, keys: seq<Key>): seq<ChildView> {
    if keys == [] then []
    else
      var k := keys[|keys| - 1];
      var node := if k.minor >= 0 then FindNode(r.media.nodes, k.minor) else None;
      TreeChildrenAt(r, keys[..|keys| - 1])
        + if node.Some? then [ChildView(node.value.id, node.value.parent, node.value.kind, node.value.title,
                                        node.value.ordinal, TreeVersions(r, Some(node.value.id)))]
          else []
  }

  function PosterOf(artwork: seq<Artwork>): Option<Artwork> {
    if artwork == [] then None
    else if artwork[0].kind.Poster? then Some(artwork[0])
    else PosterOf(artwork[1..])
  }

  /** What the detail of the item is to show, given its list entry and related tasks. */
  function TreeView(r: LocalResult, item: Item, tasks: set<Id>): Detail {
    Detail(item, PosterOf(r.media.artwork), (set v | v in r.media.metadata), TreeVersions(r, None),
           TreeChildrenAt(r, Ascending(TreeNodeKeys(r.media.nodes))), tasks)
  }

  // ---- The rows of an item after an apply -----------------------------------------------------------

  ghost predicate NoNode(nodes: map<Id, NodeRow>, media: Id) {
    forall k | k in nodes :: nodes[k].media != media
  }

  ghost predicate NoVersion(versions: map<Id, VersionRow>, media: Id) {
    forall k | k in versions :: versions[k].media != media
  }

  ghost predicate NoLink(links: map<Key, LinkRow>, media: Id) {
    forall k | k in links :: links[k].media != media
  }

  ghost predicate NoAsset(assets: map<Id, AssetRow>, media: Id) {
    forall k | k in assets :: assets[k].media != media
  }

  ghost predicate NoValue(metadata: map<Field, Value>, media: Id) {
    forall k | k in metadata :: k.media != media
  }

  ghost predicate NoArtwork(artwork: map<Id, ArtworkRow>, media: Id) {
    forall k | k in artwork :: artwork[k].media != media
  }

  /** No table has a row of the item. */
  ghost predicate NoRows(db: Tables, media: Id) {
    && NoNode(db.nodes, media) && NoVersion(db.versions, media) && NoLink(db.links, media)
    && NoAsset(db.assets, media) && NoValue(db.metadata, media) && NoArtwork(db.artwork, media)
  }

  predicate DistinctAssets(assets: seq<Asset>) {
    forall i, j | 0 <= i < j < |assets| :: assets[i].id != assets[j].id
  }

  predicate FilesKnown(r: LocalResult, version: Version) {
    forall k | 0 <= k < |version.files| :: version.files[k] in AssetIds(r.assets)
  }

  /** The part of validity that reading back relies on. */
  predicate TreeOk(r: LocalResult) {
    && DistinctNodes(r.media.nodes) && DistinctVersions(r.media.versions) && DistinctAssets(r.assets)
    && forall v | 0 <= v < |r.media.versions| :: FilesKnown(r, r.media.versions[v])
  }

  predicate NodeHolds(db: Tables, r: LocalResult, id: Id) {
    var node := FindNode(r.media.nodes, id);
    && (id in db.nodes && db.nodes[id].media == r.media.id <==> node.Some?)
    && (node.Some? ==> db.nodes[id] == NodeRow(r.media.id, node.value))
  }

  predicate VersionHolds(db: Tables, r: LocalResult, id: Id) {
    var version := FindVersion(r.media.versions, id);
    && (id in db.versions && db.versions[id].media == r.media.id <==> version.Some?)
    && (version.Some? ==> db.versions[id] == VersionRow(r.media.id, version.value.owner, version.value.caption))
  }

  predicate AssetHolds(db: Tables, r: LocalResult, i: nat)
    requires i < |r.assets|
  {
    var a := r.assets[i];
    a.id in db.assets && db.assets[a.id].media == r.media.id && db.assets[a.id].asset == a
  }

  predicate LinkHolds(db: Tables, r: LocalResult, v: nat, k: int)
    requires v < |r.media.versions|
  {
    var version := r.media.versions[v];
    var key := Key(version.id, k);
    && (key in db.links && db.links[key].media == r.media.id <==> 0 <= k < |version.files|)
    && (0 <= k < |version.files| ==> db.links[key] == LinkRow(r.media.id, version.files[k]))
  }

  /** Every row of the item comes from the result, and every row of the result is there. */
  ghost predicate Projected(db: Tables, r: LocalResult) {
    && TreeOk(r)
    && (forall id :: NodeHolds(db, r, id))
    && (forall id :: VersionHolds(db, r, id))
    && (forall i: nat | i < |r.assets| :: AssetHolds(db, r, i))
    && (forall v: nat, k | v < |r.media.versions| :: LinkHolds(db, r, v, k))
  }

  lemma NodeIsUnique(nodes: seq<Node>, i: nat)
    requires DistinctNodes(nodes) && i < |nodes|
    ensures FindNode(nodes, nodes[i].id) == Some(nodes[i])
  {
    var found := FindNode(nodes, nodes[i].id);
    var j :| 0 <= j < |nodes| && nodes[j] == found.value;
  }

  lemma VersionIsUnique(versions: seq<Version>, i: nat)
    requires DistinctVersions(versions) && i < |versions|
    ensures FindVersion(versions, versions[i].id) == Some(versions[i])
  {
    var found := FindVersion(versions, versions[i].id);
    var j :| 0 <= j < |versions| && versions[j] == found.value;
  }

  lemma AssetIsUnique(assets: seq<Asset>, i: nat)
    requires DistinctAssets(assets) && i < |assets|
    ensures FindAsset(assets, assets[i].id) == Some(assets[i])
  {
    var found := FindAsset(assets, assets[i].id);
    var j :| 0 <= j < |assets| && assets[j] == found.value;
  }

  lemma NodeInserted(before: map<Id, NodeRow>, after: map<Id, NodeRow>, media: Id, nodes: seq<Node>, id: Id)
    requires DistinctNodes(nodes) && (id in before ==> before[id].media != media)
    requires after == before + Rows(NodeRows(media, nodes))
    ensures var node := FindNode(nodes, id);
            && (id in after && after[id].media == media <==> node.Some?)
            && (node.Some? ==> after[id] == NodeRow(media, node.value))
  {
    var rows, node := NodeRows(media, nodes), FindNode(nodes, id);
    if node.Some? {
      var i :| 0 <= i < |nodes| && nodes[i] == node.value;
      RowsAt(rows, i);
      assert rows[i] == (id, NodeRow(media, nodes[i]));
    } else if id in Rows(rows) {
      var i := RowsFrom(rows, id);
    }
  }

  lemma VersionInserted(before: map<Id, VersionRow>, after: map<Id, VersionRow>, media: Id, versions: seq<Version>, id: Id)
    requires DistinctVersions(versions) && (id in before ==> before[id].media != media)
    requires after == before + Rows(VersionRows(media, versions))
    ensures var version := FindVersion(versions, id);
            && (id in after && after[id].media == media <==> version.Some?)
            && (version.Some? ==> after[id] == VersionRow(media, version.value.owner, version.value.caption))
  {
    var rows, version := VersionRows(media, versions), FindVersion(versions, id);
    if version.Some? {
      var i :| 0 <= i < |versions| && versions[i] == version.value;
      RowsAt(rows, i);
      assert rows[i] == (id, VersionRow(media, versions[i].owner, versions[i].caption));
    } else if id in Rows(rows) {
      var i := RowsFrom(rows, id);
    }
  }

  lemma AssetInserted(before: map<Id, AssetRow>, after: map<Id, AssetRow>, account: Id, media: Id, assets: seq<Asset>, i: nat)
    requires DistinctAssets(assets) && i < |assets|
    requires after == before + Rows(AssetRows(account, media, assets))
    ensures assets[i].id in after && after[assets[i].id] == AssetRow(account, media, assets[i])
  {
    var rows := AssetRows(account, media, assets);
    assert rows[i] == (assets[i].id, AssetRow(account, media, assets[i]));
    RowsAt(rows, i);
  }

  lemma {:induction false} LinkRowAt(media: Id, versions: seq<Version>, v: nat, k: nat) returns (i: nat)
    requires v < |versions| && k < |versions[v].files|
    ensures i < |LinkRows(media, versions)|
    ensures LinkRows(media, versions)[i] == (Key(versions[v].id, k), LinkRow(media, versions[v].files[k]))
  {
    var last := |versions| - 1;
    if v < last {
      i := LinkRowAt(media, versions[..last], v, k);
    } else {
      i := |LinkRows(media, versions[..last])| + k;
    }
  }

  lemma LinkInRows(media: Id, versions: seq<Version>, v: nat, k: int)
    requires DistinctVersions(versions) && v < |versions|
    ensures var rows, key := Rows(LinkRows(media, versions)), Key(versions[v].id, k);
            && (key in rows <==> 0 <= k < |versions[v].files|)
            && (key in rows ==> rows[key] == LinkRow(media, versions[v].files[k]))
  {
    var rows, key := LinkRows(media, versions), Key(versions[v].id, k);
    if 0 <= k < |versions[v].files| {
      LinkRowsAreDistinct(media, versions);
      var i := LinkRowAt(media, versions, v, k);
      RowsAt(rows, i);
    } else if key in Rows(rows) {
      LinkKeyIsAPosition(media, versions, v, k);
    }
  }

  lemma LinkKeyIsAPosition(media: Id, versions: seq<Version>, v: nat, k: int)
    requires DistinctVersions(versions) && v < |versions|
    requires Key(versions[v].id, k) in Rows(LinkRows(media, versions))
    ensures 0 <= k < |versions[v].files|
  {
    var i := RowsFrom(LinkRows(media, versions), Key(versions[v].id, k));
    var w, j := LinkRowFrom(media, versions, i);
    assert versions[w].id == versions[v].id;
  }

  lemma LinkInserted(before: map<Key, LinkRow>, after: map<Key, LinkRow>, media: Id, versions: seq<Version>, v: nat, k: int)
    requires DistinctVersions(versions) && v < |versions|
    requires Key(versions[v].id, k) in before ==> before[Key(versions[v].id, k)].media != media
    requires after == before + Rows(LinkRows(media, versions))
    ensures var key := Key(versions[v].id, k);
            && (key in after && after[key].media == media <==> 0 <= k < |versions[v].files|)
            && (0 <= k < |versions[v].files| ==> after[key] == LinkRow(media, versions[v].files[k]))
  {
    LinkInRows(media, versions, v, k);
  }

  lemma InsertedIsProjected(begun: Tables, account: Id, r: LocalResult)
    requires NoRows(begun, r.media.id) && TreeOk(r)
    ensures Projected(Inserted(begun, account, r), r)
  {
    var db := Inserted(begun, account, r);
    forall id
      ensures NodeHolds(db, r, id)
    {
      NodeInserted(begun.nodes, db.nodes, r.media.id, r.media.nodes, id);
    }
    forall id
      ensures VersionHolds(db, r, id)
    {
      VersionInserted(begun.versions, db.versions, r.media.id, r.media.versions, id);
    }
    forall i: nat | i < |r.assets|
      ensures AssetHolds(db, r, i)
    {
      AssetInserted(begun.assets, db.assets, account, r.media.id, r.assets, i);
    }
    forall v: nat, k | v < |r.media.versions|
      ensures LinkHolds(db, r, v, k)
    {
      LinkInserted(begun.links, db.links, r.media.id, r.media.versions, v, k);
    }
  }

  // ---- Regrouping gives the tree ----------------------------------------------------------------

  function Slots(version: Id, n: nat): (slots: seq<Key>)
    ensures |slots| == n && forall k | 0 <= k < n :: slots[k] == Key(version, k)
  {
    seq(n, k => Key(version, k))
  }

  lemma SlotsAreTheGroup(db: Tables, r: LocalResult, v: nat)
    requires Projected(db, r) && v < |r.media.versions|
    ensures var version := r.media.versions[v];
            Ascending(Group(LinkKeys(db.links, r.media.id), version.id)) == Slots(version.id, |version.files|)
  {
    var version := r.media.versions[v];
    var group, slots := Group(LinkKeys(db.links, r.media.id), version.id), Slots(version.id, |version.files|);
    forall key
      ensures key in slots <==> key in group
    {
      if key.major == version.id {
        assert LinkHolds(db, r, v, key.minor);
        if 0 <= key.minor < |version.files| {
          assert slots[key.minor] == key;
        }
      }
    }
    AscendingIsUnique(group, slots);
  }

  lemma {:induction false} FilesReadBack(db: Tables, r: LocalResult, v: nat, n: nat)
    requires Projected(db, r) && v < |r.media.versions| && n <= |r.media.versions[v].files|
    ensures var version := r.media.versions[v];
            FilesAt(db, Slots(version.id, n)) == TreeFiles(r.assets, version.files[..n])
  {
    if n > 0 {
      var version := r.media.versions[v];
      FilesReadBack(db, r, v, n - 1);
      assert Slots(version.id, n)[..n - 1] == Slots(version.id, n - 1);
      assert version.files[..n][..n - 1] == version.files[..n - 1];
      assert LinkHolds(db, r, v, n - 1) && FilesKnown(r, version);
      var i: nat :| i < |r.assets| && r.assets[i].id == version.files[n - 1];
      assert AssetHolds(db, r, i);
      AssetIsUnique(r.assets, i);
      assert FileOf(db, Key(version.id, n - 1)) == Some(FileViewOf(r.assets[i]));
    }
  }

  lemma VersionReadsBack(db: Tables, r: LocalResult, v: nat)
    requires Projected(db, r) && v < |r.media.versions|
    ensures var version := r.media.versions[v];
            && version.id in db.versions
            && VersionAt(db, r.media.id, version.id)
               == VersionView(version.id, version.caption, TreeFiles(r.assets, version.files))
  {
    var version := r.media.versions[v];
    assert VersionHolds(db, r, version.id);
    VersionIsUnique(r.media.versions, v);
    SlotsAreTheGroup(db, r, v);
    FilesReadBack(db, r, v, |version.files|);
    assert version.files[..|version.files|] == version.files;
  }

  lemma OwnerRankIsInjective(a: Option<Id>, b: Option<Id>)
    ensures OwnerRank(a) == OwnerRank(b) <==> a == b
  {
  }

  lemma OwnedKeyReadsBack(db: Tables, r: LocalResult, owner: Option<Id>, k: Key)
    requires Projected(db, r)
    ensures k in Group(VersionKeys(db.versions, r.media.id), OwnerRank(owner)) <==> k in OwnedKeys(r.media.versions, owner)
  {
    var versions := r.media.versions;
    if k in OwnedKeys(versions, owner) {
      var i :| 0 <= i < |versions| && versions[i].owner == owner && k == Key(OwnerRank(owner), versions[i].id);
      assert VersionHolds(db, r, versions[i].id);
      VersionIsUnique(versions, i);
    }
    if k in Group(VersionKeys(db.versions, r.media.id), OwnerRank(owner)) {
      var id: Id := k.minor;
      assert VersionHolds(db, r, id);
      var version := FindVersion(versions, id).value;
      OwnerRankIsInjective(version.owner, owner);
      var i :| 0 <= i < |versions| && versions[i] == version;
      assert versions[i].owner == owner && k == Key(OwnerRank(owner), versions[i].id);
    }
  }

  lemma {:induction false} VersionsReadBack(db: Tables, r: LocalResult, owner: Option<Id>, keys: seq<Key>)
    requires Projected(db, r) && forall k | k in keys :: k in OwnedKeys(r.media.versions, owner)
    ensures VersionsAt(db, r.media.id, keys) == TreeVersionsAt(r, keys)
  {
    if keys != [] {
      var k, earlier := keys[|keys| - 1], keys[..|keys| - 1];
      assert k in keys && forall x | x in earlier :: x in keys;
      VersionsReadBack(db, r, owner, earlier);
      var i: nat :| i < |r.media.versions| && r.media.versions[i].owner == owner && k == Key(OwnerRank(owner), r.media.versions[i].id);
      VersionReadsBack(db, r, i);
      VersionIsUnique(r.media.versions, i);
    }
  }

  lemma OwnedVersionsReadBack(db: Tables, r: LocalResult, owner: Option<Id>)
    requires Projected(db, r)
    ensures OwnedVersions(db, r.media.id, owner) == TreeVersions(r, owner)
  {
    var keys := OwnedKeys(r.media.versions, owner);
    forall k
      ensures k in Group(VersionKeys(db.versions, r.media.id), OwnerRank(owner)) <==> k in keys
    {
      OwnedKeyReadsBack(db, r, owner, k);
    }
    assert Group(VersionKeys(db.versions, r.media.id), OwnerRank(owner)) == keys;
    VersionsReadBack(db, r, owner, Ascending(keys));
  }

  lemma NodeKeysReadBack(db: Tables, r: LocalResult)
    requires Projected(db, r)
    ensures NodeKeys(db.nodes, r.media.id) == TreeNodeKeys(r.media.nodes)
  {
    var nodes := r.media.nodes;
    forall k
      ensures k in NodeKeys(db.nodes, r.media.id) <==> k in TreeNodeKeys(nodes)
    {
      if k in TreeNodeKeys(nodes) {
        var i :| 0 <= i < |nodes| && k == NodeKey(nodes[i]);
        assert NodeHolds(db, r, nodes[i].id);
        NodeIsUnique(nodes, i);
        assert nodes[i].id in db.nodes;
      }
      if k in NodeKeys(db.nodes, r.media.id) {
        var id :| id in db.nodes && db.nodes[id].media == r.media.id && k == NodeKey(db.nodes[id].node);
        assert NodeHolds(db, r, id);
        var i :| 0 <= i < |nodes| && nodes[i] == FindNode(nodes, id).value;
        assert k == NodeKey(nodes[i]);
      }
    }
  }

  lemma {:induction false} ChildrenReadBack(db: Tables, r: LocalResult, keys: seq<Key>)
    requires Projected(db, r) && forall k | k in keys :: k in TreeNodeKeys(r.media.nodes)
    ensures ChildrenAt(db, r.media.id, keys) == TreeChildrenAt(r, keys)
  {
    if keys != [] {
      var k, earlier := keys[|keys| - 1], keys[..|keys| - 1];
      assert k in keys && forall x | x in earlier :: x in keys;
      ChildrenReadBack(db, r, earlier);
      var i :| 0 <= i < |r.media.nodes| && k == NodeKey(r.media.nodes[i]);
      var node := r.media.nodes[i];
      assert NodeHolds(db, r, node.id);
      NodeIsUnique(r.media.nodes, i);
      OwnedVersionsReadBack(db, r, Some(node.id));
    }
  }
}
