/**
 The catalog read model: verified local results replace the whole projection of a media item in one
 transaction, and the detail query regroups the rows into a tree. Rows are maps from their keys; a
 slot is the place of a file in a version.
 */
module Catalog {
  import opened Outcomes
  import opened Int64
  import opened Ordering
  import opened Texts

  type Id = nat

  const MAX_NODES := 200
  const MAX_METADATA := 64
  const MAX_VERSIONS := 256
  const MAX_FILE_ASSETS := 256
  const MAX_FILE_LINKS := 1024
  const MAX_TASKS := 32
  const MAX_FILE_SIZE := 9_007_199_254_740_991
  const MAX_ORDINAL := 99_999

  // ---- Results ----------------------------------------------------------------------------------

  datatype ItemKind = Movie | Series | GenericVideo
  datatype NodeKind = Season | Episode | GenericVideoItem
  datatype LocalStatus = Complete | Partial
  datatype NfoStatus = NotRequested | NfoComplete | NfoPartial | NfoFailed
  datatype ArtworkKind = Poster | Backdrop
  datatype SourceKind = Tmdb | Nfo | Manual | System

  datatype Node = Node(id: Id, parent: Option<Id>, kind: NodeKind, title: string, ordinal: nat)

  datatype Version = Version(id: Id, owner: Option<Id>, caption: Option<string>, files: seq<Id>)

  datatype Asset = Asset(id: Id, revision: Id, sourcePath: string, currentPath: string, size: nat)

  datatype Source = Source(kind: SourceKind, id: Option<string>, version: Option<string>)

  datatype Value = Value(field: string, value: Option<string>, present: bool, source: Option<Source>)

  datatype Artwork = Artwork(id: Id, kind: ArtworkKind, available: bool, path: Option<string>)

  /** `normalized` is the folded form of the title that searches use. */
  datatype Tree = Tree(
    id: Id, kind: ItemKind, title: string, normalized: string, year: Option<nat>, status: LocalStatus,
    metadata: seq<Value>, artwork: seq<Artwork>, nodes: seq<Node>, versions: seq<Version>)

  datatype LocalResult = LocalResult(
    id: Id, task: Id, library: Id, media: Tree, assets: seq<Asset>, nfo: NfoStatus)

  // ---- Tables -----------------------------------------------------------------------------------

  datatype Task = Task(account: Id, inbox: Id)

  datatype Item = Item(
    account: Id, library: Id, kind: ItemKind, title: string, normalized: string, year: Option<nat>,
    status: LocalStatus, nfo: NfoStatus, version: I64, createdAt: I64, updatedAt: I64)

  datatype NodeRow = NodeRow(media: Id, node: Node)
  datatype VersionRow = VersionRow(media: Id, owner: Option<Id>, caption: Option<string>)
  datatype AssetRow = AssetRow(account: Id, media: Id, asset: Asset)
  datatype LinkRow = LinkRow(media: Id, asset: Id)
  datatype ArtworkRow = ArtworkRow(media: Id, artwork: Artwork)
  datatype Field = Field(media: Id, name: string)

  /** The digest of a result stands for the result. */
  datatype Applied = Applied(account: Id, task: Id, media: Id, result: LocalResult, at: I64)

  /** One state of an item as lists show it; the history is append-only and numbered from 1. */
  datatype HistoryRow = HistoryRow(
    media: Id, account: Id, library: Id, kind: ItemKind, title: string, normalized: string, year: Option<nat>,
    status: LocalStatus, poster: Option<Artwork>, updatedAt: I64)

  datatype Changed = Changed(media: Id, version: I64, created: bool)

  /** `tasks` and `revisions` belong to other stores: whose task, and in which inbox a file revision lies. */
  datatype Tables = Tables(
    tasks: map<Id, Task>, revisions: map<Id, Id>,
    items: map<Id, Item>, nodes: map<Id, NodeRow>, versions: map<Id, VersionRow>, assets: map<Id, AssetRow>,
    links: map<Key, LinkRow>, metadata: map<Field, Value>, artwork: map<Id, ArtworkRow>,
    applied: map<Id, Applied>, history: seq<HistoryRow>, outbox: seq<Changed>)

  datatype Error = ValidationFailed | RequestConflict | NotFound | Internal

  // ---- What a valid result is -------------------------------------------------------------------

  predicate OptionalText(text: Option<string>, max: nat) {
    text.Some? ==> ValidText(text.value, max)
  }

  predicate DistinctNodes(nodes: seq<Node>) {
    forall i, j | 0 <= i < j < |nodes| :: nodes[i].id != nodes[j].id
  }

  predicate DistinctVersions(versions: seq<Version>) {
    forall i, j | 0 <= i < j < |versions| :: versions[i].id != versions[j].id
  }

  predicate DistinctIds(ids: seq<Id>) {
    forall i, j | 0 <= i < j < |ids| :: ids[i] != ids[j]
  }

  predicate Suits(kind: ItemKind, node: NodeKind) {
    match kind
    case Movie => false
    case Series => node.Season? || node.Episode?
    case GenericVideo => node.GenericVideoItem?
  }

  predicate IsSeason(nodes: seq<Node>, id: Id) {
    exists i | 0 <= i < |nodes| :: nodes[i].id == id && nodes[i].kind.Season?
  }

  predicate NodeValid(media: Tree, node: Node) {
    && ValidText(node.title, 512) && node.ordinal <= MAX_ORDINAL && Suits(media.kind, node.kind)
    && if node.kind.Episode? then node.parent.Some? && IsSeason(media.nodes, node.parent.value) else node.parent.None?
  }

  predicate AssetValid(asset: Asset) {
    ValidRelativePath(asset.sourcePath) && ValidRelativePath(asset.currentPath) && asset.size <= MAX_FILE_SIZE
  }

  function NodeIds(nodes: seq<Node>): set<Id> {
    set i | 0 <= i < |nodes| :: nodes[i].id
  }

  function AssetIds(assets: seq<Asset>): set<Id> {
    set i | 0 <= i < |assets| :: assets[i].id
  }

  predicate VersionValid(r: LocalResult, version: Version) {
    && 1 <= |version.files| <= 32 && DistinctIds(version.files)
    && (forall i | 0 <= i < |version.files| :: version.files[i] in AssetIds(r.assets))
    && (version.caption.Some? ==> |version.caption.value| <= 128 && Plain(version.caption.value))
    && if version.owner.Some? then version.owner.value in NodeIds(r.media.nodes) else r.media.kind.Movie?
  }

  function OwnedBy(versions: seq<Version>, owner: Option<Id>): nat {
    if versions == [] then 0
    else OwnedBy(versions[..|versions| - 1], owner) + if versions[|versions| - 1].owner == owner then 1 else 0
  }

  function LinkCount(versions: seq<Version>): nat {
    if versions == [] then 0 else LinkCount(versions[..|versions| - 1]) + |versions[|versions| - 1].files|
  }

  predicate Referenced(versions: seq<Version>, asset: Id) {
    exists i | 0 <= i < |versions| :: asset in versions[i].files
  }

  function ReferencedIds(versions: seq<Version>): set<Id> {
    if versions == [] then {}
    else ReferencedIds(versions[..|versions| - 1]) + SetOf(versions[|versions| - 1].files)
  }

  function SetOf(ids: seq<Id>): set<Id> {
    set id | id in ids
  }

  predicate ValueValid(value: Value) {
    && ValidText(value.field, 64)
    && (if value.present then
          value.value.Some? && |value.value.value| <= 4096 && Plain(value.value.value) && value.source.Some?
        else value.value.None? && value.source.None?)
    && (value.source.Some? ==> OptionalText(value.source.value.id, 128) && OptionalText(value.source.value.version, 64))
  }

  predicate ArtworkValid(artwork: Artwork) {
    if artwork.available then artwork.path.Some? && ValidRelativePath(artwork.path.value) else artwork.path.None?
  }

  predicate NodesValid(media: Tree) {
    DistinctNodes(media.nodes) && forall i | 0 <= i < |media.nodes| :: NodeValid(media, media.nodes[i])
  }

  predicate AssetsValid(assets: seq<Asset>) {
    && (forall i | 0 <= i < |assets| :: AssetValid(assets[i]))
    && (forall i, j | 0 <= i < j < |assets| :: assets[i].id != assets[j].id && assets[i].revision != assets[j].revision)
  }

  predicate VersionsValid(r: LocalResult) {
    && DistinctVersions(r.media.versions)
    && (forall i | 0 <= i < |r.media.versions| :: VersionValid(r, r.media.versions[i]))
    && (forall i | 0 <= i < |r.media.versions| :: OwnedBy(r.media.versions, r.media.versions[i].owner) <= 32)
    && LinkCount(r.media.versions) <= MAX_FILE_LINKS
    && (forall i | 0 <= i < |r.assets| :: Referenced(r.media.versions, r.assets[i].id))
    && (r.media.kind.Movie? ==> r.media.versions != [])
  }

  predicate MetadataValid(metadata: seq<Value>) {
    && (forall i | 0 <= i < |metadata| :: ValueValid(metadata[i]))
    && (forall i, j | 0 <= i < j < |metadata| :: metadata[i].field != metadata[j].field)
  }

  predicate ArtworksValid(artwork: seq<Artwork>) {
    && |artwork| <= 2
    && (forall i | 0 <= i < |artwork| :: ArtworkValid(artwork[i]))
    && (forall i, j | 0 <= i < j < |artwork| :: artwork[i].id != artwork[j].id && artwork[i].kind != artwork[j].kind)
  }

  predicate ShapeValid(r: LocalResult) {
    && ValidText(r.media.title, 512)
    && (r.media.year.Some? ==> 1870 <= r.media.year.value <= 9999)
    && |r.media.nodes| <= MAX_NODES && |r.media.metadata| <= MAX_METADATA && |r.media.versions| <= MAX_VERSIONS
    && 1 <= |r.assets| <= MAX_FILE_ASSETS
  }

  predicate ResultValid(r: LocalResult) {
    && ShapeValid(r) && NodesValid(r.media) && AssetsValid(r.assets) && VersionsValid(r)
    && MetadataValid(r.media.metadata) && ArtworksValid(r.media.artwork)
  }

  // ---- Validation as the code does it, with sets and counters filled on the way -------------------

  method ValidateNodes(media: Tree) returns (ok: bool, ids: set<Id>)
    ensures ok <==> NodesValid(media)
    ensures ok ==> ids == NodeIds(media.nodes)
  {
    ids := {};
    for i := 0 to |media.nodes|
      invariant ids == NodeIds(media.nodes[..i])
      invariant DistinctNodes(media.nodes[..i])
      invariant forall k | 0 <= k < i :: ValidText(media.nodes[k].title, 512) && media.nodes[k].ordinal <= MAX_ORDINAL
                                         && Suits(media.kind, media.nodes[k].kind)
    {
      var node := media.nodes[i];
      if !ValidText(node.title, 512) || node.ordinal > MAX_ORDINAL || node.id in ids || !Suits(media.kind, node.kind) {
        assert node == media.nodes[i];
        return false, ids;
      }
      ids := ids + {node.id};
      assert media.nodes[..i + 1] == media.nodes[..i] + [node];
    }
    assert media.nodes[..|media.nodes|] == media.nodes;
    for i := 0 to |media.nodes|
      invariant forall k | 0 <= k < i :: NodeValid(media, media.nodes[k])
    {
      var node := media.nodes[i];
      if node.kind.Episode? {
        if node.parent.None? || !IsSeason(media.nodes, node.parent.value) {
          return false, ids;
        }
      } else if node.parent.Some? {
        return false, ids;
      }
    }
    ok := true;
  }

  method ValidateAssets(assets: seq<Asset>) returns (ok: bool, ids: set<Id>)
    ensures ok <==> AssetsValid(assets)
    ensures ok ==> ids == AssetIds(assets)
  {
    ids := {};
    var revisions: set<Id> := {};
    for i := 0 to |assets|
      invariant ids == AssetIds(assets[..i])
      invariant revisions == set k | 0 <= k < i :: assets[k].revision
      invariant AssetsValid(assets[..i])
    {
      var asset := assets[i];
      if asset.id in ids || asset.revision in revisions || !AssetValid(asset) {
        return false, ids;
      }
      ids := ids + {asset.id};
      revisions := revisions + {asset.revision};
    }
    assert assets[..|assets|] == assets;
    ok := true;
  }

  lemma {:induction false} OwnedByGrows(versions: seq<Version>, i: nat, owner: Option<Id>)
    requires i <= |versions|
    ensures OwnedBy(versions[..i], owner) <= OwnedBy(versions, owner)
  {
    if i < |versions| {
      OwnedByGrows(versions[..|versions| - 1], i, owner);
      assert versions[..|versions| - 1][..i] == versions[..i];
    } else {
      assert versions[..i] == versions;
    }
  }

  method ValidateFiles(files: seq<Id>, known: set<Id>, referenced: set<Id>) returns (ok: bool, referenced': set<Id>)
    ensures ok <==> DistinctIds(files) && forall i | 0 <= i < |files| :: files[i] in known
    ensures ok ==> referenced' == referenced + SetOf(files)
  {
    var seen: set<Id> := {};
    referenced' := referenced;
    for i := 0 to |files|
      invariant seen == SetOf(files[..i])
      invariant referenced' == referenced + seen
      invariant DistinctIds(files[..i]) && forall k | 0 <= k < i :: files[k] in known
    {
      var file := files[i];
      if file !in known || file in seen {
        return false, referenced';
      }
      seen := seen + {file};
      referenced' := referenced' + {file};
      assert files[..i + 1] == files[..i] + [file];
    }
    assert files[..|files|] == files;
    ok := true;
  }

  predicate VersionShape(r: LocalResult, version: Version) {
    && 1 <= |version.files| <= 32
    && (version.caption.Some? ==> |version.caption.value| <= 128 && Plain(version.caption.value))
    && if version.owner.Some? then version.owner.value in NodeIds(r.media.nodes) else r.media.kind.Movie?
  }

  /** The first `n` versions are fine so far. */
  predicate VersionsValidSoFar(r: LocalResult, n: nat)
    requires n <= |r.media.versions|
  {
    && DistinctVersions(r.media.versions[..n])
    && (forall i | 0 <= i < n :: VersionValid(r, r.media.versions[i]))
    && forall i | 0 <= i < n :: OwnedBy(r.media.versions[..n], r.media.versions[i].owner) <= 32
  }

  lemma OneMoreVersion(r: LocalResult, n: nat)
    requires n < |r.media.versions| && VersionsValidSoFar(r, n)
    ensures var versions := r.media.versions;
            var owned := OwnedBy(versions[..n], versions[n].owner) + 1;
            && OwnedBy(versions[..n + 1], versions[n].owner) == owned
            && (VersionsValidSoFar(r, n + 1) <==>
                  VersionValid(r, versions[n]) && owned <= 32 && forall i | 0 <= i < n :: versions[i].id != versions[n].id)
  {
    var versions := r.media.versions;
    assert versions[..n + 1] == versions[..n] + [versions[n]];
    assert versions[..n + 1][..n] == versions[..n];
    forall i | 0 <= i < n
      ensures OwnedBy(versions[..n + 1], versions[i].owner)
              == OwnedBy(versions[..n], versions[i].owner) + if versions[i].owner == versions[n].owner then 1 else 0
    {
    }
  }

  lemma {:induction false} StaysInvalid(r: LocalResult, n: nat)
    requires n <= |r.media.versions| && !VersionsValidSoFar(r, n)
    ensures !VersionsValid(r)
  {
    var versions := r.media.versions;
    if VersionsValid(r) {
      forall i | 0 <= i < n
        ensures OwnedBy(versions[..n], versions[i].owner) <= 32
      {
        OwnedByGrows(versions, n, versions[i].owner);
      }
      assert false;
    }
  }

  lemma {:induction false} ReferencedMeans(versions: seq<Version>, id: Id)
    ensures id in ReferencedIds(versions) <==> Referenced(versions, id)
  {
    if versions != [] {
      var last := |versions| - 1;
      ReferencedMeans(versions[..last], id);
      if id in versions[last].files {
        assert Referenced(versions, id);
      } else if Referenced(versions, id) {
        var i :| 0 <= i < |versions| && id in versions[i].files;
        assert id in versions[..last][i].files;
      }
    }
  }

  lemma AllReferenced(r: LocalResult)
    requires ReferencedIds(r.media.versions) <= AssetIds(r.assets)
    ensures ReferencedIds(r.media.versions) == AssetIds(r.assets)
            <==> forall i | 0 <= i < |r.assets| :: Referenced(r.media.versions, r.assets[i].id)
  {
    forall i | 0 <= i < |r.assets|
      ensures r.assets[i].id in ReferencedIds(r.media.versions) <==> Referenced(r.media.versions, r.assets[i].id)
    {
      ReferencedMeans(r.media.versions, r.assets[i].id);
    }
    assert ReferencedIds(r.media.versions) == AssetIds(r.assets) ==>
        forall i | 0 <= i < |r.assets| :: r.assets[i].id in ReferencedIds(r.media.versions);
  }

  lemma VersionsVerdict(r: LocalResult)
    requires VersionsValidSoFar(r, |r.media.versions|) && ReferencedIds(r.media.versions) <= AssetIds(r.assets)
    ensures VersionsValid(r) <==>
            && ReferencedIds(r.media.versions) == AssetIds(r.assets)
            && LinkCount(r.media.versions) <= MAX_FILE_LINKS
            && (r.media.kind.Movie? ==> r.media.versions != [])
  {
    assert r.media.versions[..|r.media.versions|] == r.media.versions;
    AllReferenced(r);
  }

  /** `count` is how many versions the owner has with this one. */
  method ValidateVersion(r: LocalResult, i: nat, ids: set<Id>, known: set<Id>, referenced: set<Id>, count: nat)
    returns (ok: bool, referenced': set<Id>)
    requires i < |r.media.versions| && VersionsValidSoFar(r, i)
    requires ids == (set k | 0 <= k < i :: r.media.versions[k].id) && known == AssetIds(r.assets)
    requires count == OwnedBy(r.media.versions[..i], r.media.versions[i].owner) + 1
    requires referenced <= known
    ensures ok ==> VersionsValidSoFar(r, i + 1)
    ensures ok ==> referenced' == referenced + SetOf(r.media.versions[i].files) <= known
    ensures !ok ==> !VersionsValid(r)
  {
    OneMoreVersion(r, i);
    var version := r.media.versions[i];
    referenced' := referenced;
    ok := version.id !in ids && VersionShape(r, version) && count <= 32;
    if ok {
      ok, referenced' := ValidateFiles(version.files, known, referenced);
    }
    if !ok {
      StaysInvalid(r, i + 1);
    }
  }

  method ValidateVersions(r: LocalResult) returns (ok: bool)
    ensures ok <==> VersionsValid(r)
  {
    var versions, known := r.media.versions, AssetIds(r.assets);
    var ids: set<Id>, referenced: set<Id>, owners: map<Option<Id>, nat>, links := {}, {}, map[], 0;
    for i := 0 to |versions|
      invariant VersionsValidSoFar(r, i)
      invariant ids == set k | 0 <= k < i :: versions[k].id
      invariant referenced == ReferencedIds(versions[..i]) <= known
      invariant forall owner :: OwnedBy(versions[..i], owner) == if owner in owners then owners[owner] else 0
      invariant links == LinkCount(versions[..i])
    {
      var version := versions[i];
      var count := 1 + if version.owner in owners then owners[version.owner] else 0;
      var fine, referenced' := ValidateVersion(r, i, ids, known, referenced, count);
      if !fine {
        return false;
      }
      assert versions[..i + 1] == versions[..i] + [version];
      ids := ids + {version.id};
      owners := owners[version.owner := count];
      referenced := referenced';
      links := links + |version.files|;
    }
    assert versions[..|versions|] == versions;
    VersionsVerdict(r);
    ok := referenced == known && links <= MAX_FILE_LINKS && (r.media.kind.Movie? ==> versions != []);
  }

  method ValidateMetadata(metadata: seq<Value>) returns (ok: bool)
    ensures ok <==> MetadataValid(metadata)
  {
    var fields: set<string> := {};
    for i := 0 to |metadata|
      invariant fields == set k | 0 <= k < i :: metadata[k].field
      invariant MetadataValid(metadata[..i])
    {
      var value := metadata[i];
      if value.field in fields || !ValueValid(value) {
        return false;
      }
      fields := fields + {value.field};
    }
    assert metadata[..|metadata|] == metadata;
    ok := true;
  }

  method ValidateArtworks(artwork: seq<Artwork>) returns (ok: bool)
    ensures ok <==> ArtworksValid(artwork)
  {
    if |artwork| > 2 {
      return false;
    }
    var ids: set<Id>, kinds: set<ArtworkKind> := {}, {};
    for i := 0 to |artwork|
      invariant ids == set k | 0 <= k < i :: artwork[k].id
      invariant kinds == set k | 0 <= k < i :: artwork[k].kind
      invariant ArtworksValid(artwork[..i])
    {
      var ref := artwork[i];
      if ref.id in ids || ref.kind in kinds || !ArtworkValid(ref) {
        return false;
      }
      ids, kinds := ids + {ref.id}, kinds + {ref.kind};
    }
    assert artwork[..|artwork|] == artwork;
    ok := true;
  }

  method ValidateResult(r: LocalResult) returns (ok: bool)
    ensures ok <==> ResultValid(r)
  {
    if !ShapeValid(r) {
      return false;
    }
    var ids: set<Id>;
    ok, ids := ValidateNodes(r.media);
    if ok {
      ok, ids := ValidateAssets(r.assets);
    }
    if ok {
      ok := ValidateVersions(r);
    }
    if ok {
      ok := ValidateMetadata(r.media.metadata);
    }
    if ok {
      ok := ValidateArtworks(r.media.artwork);
    }
  }

  // ---- Rows of a result -------------------------------------------------------------------------

  /** The table that holds the rows, inserted in order. */
  function Rows<K, V>(rows: seq<(K, V)>): map<K, V> {
    if rows == [] then map[] else Rows(rows[..|rows| - 1])[rows[|rows| - 1].0 := rows[|rows| - 1].1]
  }

  predicate DistinctKeys<K(==), V>(rows: seq<(K, V)>) {
    forall i, j | 0 <= i < j < |rows| :: rows[i].0 != rows[j].0
  }

  lemma {:induction false} RowsAt<K, V>(rows: seq<(K, V)>, i: nat)
    requires DistinctKeys(rows) && i < |rows|
    ensures rows[i].0 in Rows(rows) && Rows(rows)[rows[i].0] == rows[i].1
  {
    if i < |rows| - 1 {
      RowsAt(rows[..|rows| - 1], i);
    }
  }

  lemma {:induction false} RowsFrom<K, V>(rows: seq<(K, V)>, k: K) returns (i: nat)
    requires k in Rows(rows)
    ensures i < |rows| && rows[i].0 == k
  {
    if rows[|rows| - 1].0 == k {
      i := |rows| - 1;
    } else {
      i := RowsFrom(rows[..|rows| - 1], k);
    }
  }

  predicate Free<K, V>(table: map<K, V>, rows: seq<(K, V)>) {
    forall i | 0 <= i < |rows| :: rows[i].0 !in table
  }

  /** One INSERT after the other; a key that is taken fails the transaction. */
  method InsertRows<K(==), V>(table: map<K, V>, rows: seq<(K, V)>) returns (ok: bool, result: map<K, V>)
    ensures ok <==> DistinctKeys(rows) && Free(table, rows)
    ensures ok ==> result == table + Rows(rows)
  {
    result := table;
    for i := 0 to |rows|
      invariant DistinctKeys(rows[..i]) && forall k | 0 <= k < i :: rows[k].0 !in table
      invariant result == table + Rows(rows[..i])
      invariant forall k | 0 <= k < i :: rows[k].0 in result
    {
      if rows[i].0 in result {
        if rows[i].0 !in table {
          var j := RowsFrom(rows[..i], rows[i].0);
          assert rows[j].0 == rows[i].0;
        }
        return false, result;
      }
      assert rows[..i + 1][..i] == rows[..i];
      result := result[rows[i].0 := rows[i].1];
    }
    assert rows[..|rows|] == rows;
    ok := true;
  }

  function NodeRows(media: Id, nodes: seq<Node>): seq<(Id, NodeRow)> {
    seq(|nodes|, i requires 0 <= i < |nodes| => (nodes[i].id, NodeRow(media, nodes[i])))
  }

  function AssetRows(account: Id, media: Id, assets: seq<Asset>): seq<(Id, AssetRow)> {
    seq(|assets|, i requires 0 <= i < |assets| => (assets[i].id, AssetRow(account, media, assets[i])))
  }

  function VersionRows(media: Id, versions: seq<Version>): seq<(Id, VersionRow)> {
    seq(|versions|, i requires 0 <= i < |versions| =>
      (versions[i].id, VersionRow(media, versions[i].owner, versions[i].caption)))
  }

  function FileRows(media: Id, version: Version): seq<(Key, LinkRow)> {
    seq(|version.files|, k requires 0 <= k < |version.files| => (Key(version.id, k), LinkRow(media, version.files[k])))
  }

  /** A file's slot is its version and its position in it. */
  function LinkRows(media: Id, versions: seq<Version>): seq<(Key, LinkRow)> {
    if versions == [] then []
    else LinkRows(media, versions[..|versions| - 1]) + FileRows(media, versions[|versions| - 1])
  }

  function ValueRows(media: Id, metadata: seq<Value>): seq<(Field, Value)> {
    seq(|metadata|, i requires 0 <= i < |metadata| => (Field(media, metadata[i].field), metadata[i]))
  }

  function ArtworkRows(media: Id, artwork: seq<Artwork>): seq<(Id, ArtworkRow)> {
    seq(|artwork|, i requires 0 <= i < |artwork| => (artwork[i].id, ArtworkRow(media, artwork[i])))
  }

  // ---- Replacing a projection -------------------------------------------------------------------

  function Without<K, V>(table: map<K, V>, mine: (K, V) -> bool): map<K, V> {
    map k | k in table && !mine(k, table[k]) :: table[k]
  }

  function OfNode(media: Id): (Id, NodeRow) -> bool { (k, row: NodeRow) => row.media == media }

  function OfVersion(media: Id): (Id, VersionRow) -> bool { (k, row: VersionRow) => row.media == media }

  function OfLink(media: Id): (Key, LinkRow) -> bool { (k, row: LinkRow) => row.media == media }

  function OfAsset(media: Id): (Id, AssetRow) -> bool { (k, row: AssetRow) => row.media == media }

  function OfValue(media: Id): (Field, Value) -> bool { (k: Field, row) => k.media == media }

  function OfArtwork(media: Id): (Id, ArtworkRow) -> bool { (k, row: ArtworkRow) => row.media == media }

  function Cleared(db: Tables, media: Id): Tables {
    db.(links := Without(db.links, OfLink(media)), versions := Without(db.versions, OfVersion(media)),
    nodes := Without(db.nodes, OfNode(media)), assets := Without(db.assets, OfAsset(media)),
    metadata := Without(db.metadata, OfValue(media)), artwork := Without(db.artwork, OfArtwork(media)))
  }

  /** No other account asset holds one of these file revisions. */
  predicate RevisionsFree(assets: map<Id, AssetRow>, account: Id, added: seq<Asset>) {
    forall id, i | id in assets && 0 <= i < |added| ::
      assets[id].account == account ==> assets[id].asset.revision != added[i].revision
  }

  /** Whether every row of the result can be inserted: the keys of other items' rows are taken. */
  predicate Insertable(db: Tables, account: Id, r: LocalResult) {
    && Free(db.nodes, NodeRows(r.media.id, r.media.nodes))
    && Free(db.assets, AssetRows(account, r.media.id, r.assets)) && RevisionsFree(db.assets, account, r.assets)
    && Free(db.versions, VersionRows(r.media.id, r.media.versions))
    && Free(db.links, LinkRows(r.media.id, r.media.versions))
    && Free(db.metadata, ValueRows(r.media.id, r.media.metadata))
    && Free(db.artwork, ArtworkRows(r.media.id, r.media.artwork))
  }

  function Inserted(db: Tables, account: Id, r: LocalResult): Tables {
    db.(
    nodes := db.nodes + Rows(NodeRows(r.media.id, r.media.nodes)),
    assets := db.assets + Rows(AssetRows(account, r.media.id, r.assets)),
    versions := db.versions + Rows(VersionRows(r.media.id, r.media.versions)),
    links := db.links + Rows(LinkRows(r.media.id, r.media.versions)),
    metadata := db.metadata + Rows(ValueRows(r.media.id, r.media.metadata)),
    artwork := db.artwork + Rows(ArtworkRows(r.media.id, r.media.artwork)))
  }

  function PosterKeys(artwork: map<Id, ArtworkRow>, media: Id): set<Key> {
    set id | id in artwork && artwork[id].media == media && artwork[id].artwork.kind.Poster? :: Key(0, id)
  }

  function FindPoster(artwork: map<Id, ArtworkRow>, media: Id): Option<Artwork> {
    var keys := PosterKeys(artwork, media);
    if keys == {} then None else Some(artwork[Least(keys).minor].artwork)
  }

  function ItemOf(account: Id, r: LocalResult, version: I64, createdAt: I64, now: I64): Item {
    Item(account, r.library, r.media.kind, r.media.title, r.media.normalized, r.media.year, r.media.status, r.nfo,
         version, createdAt, now)
  }

  /** What the triggers on the item table append. */
  function HistoryOf(media: Id, item: Item, poster: Option<Artwork>): HistoryRow {
    HistoryRow(media, item.account, item.library, item.kind, item.title, item.normalized, item.year, item.status,
               poster, item.updatedAt)
  }

  predicate OwnsRevisions(db: Tables, inbox: Id, assets: seq<Asset>) {
    forall i | 0 <= i < |assets| :: assets[i].revision in db.revisions && db.revisions[assets[i].revision] == inbox
  }

  predicate NormalizedFits(normalized: string) {
    1 <= |normalized| <= 1024
  }

  /** Why the result is not applied: it is invalid, known already, or not the account's to apply. */
  function Refused(db: Tables, account: Id, r: LocalResult): Option<Result<Id, Error>> {
    if !ResultValid(r) then Some(Err(ValidationFailed))
    else if r.id in db.applied then
      var before := db.applied[r.id];
      Some(if before.account == account && before.result == r then Ok(before.media) else Err(RequestConflict))
    else if r.task !in db.tasks || db.tasks[r.task].account != account then Some(Err(NotFound))
    else if !OwnsRevisions(db, db.tasks[r.task].inbox, r.assets) then Some(Err(NotFound))
    else if r.media.id in db.items && db.items[r.media.id].account != account then Some(Err(RequestConflict))
    else if !NormalizedFits(r.media.normalized) then Some(Err(Internal))
    else None
  }

  /** A new item starts its history; the rows of a known one give way. */
  function BeginReplacement(db: Tables, account: Id, r: LocalResult, now: I64): Tables {
    var media := r.media.id;
    if media in db.items then Cleared(db, media)
    else db.(history := db.history + [HistoryOf(media, ItemOf(account, r, 1, now, now), FindPoster(db.artwork, media))])
  }

  function NextItem(db: Tables, account: Id, r: LocalResult, now: I64): Item {
    var media := r.media.id;
    if media in db.items then ItemOf(account, r, SatAdd(db.items[media].version, 1), db.items[media].createdAt, now)
    else ItemOf(account, r, 1, now, now)
  }

  function FinishReplacement(tx: Tables, account: Id, r: LocalResult, item: Item, created: bool, now: I64): Tables {
    var media := r.media.id;
    tx.(
    items := tx.items[media := item],
    history := tx.history + [HistoryOf(media, item, FindPoster(tx.artwork, media))],
    applied := tx.applied[r.id := Applied(account, r.task, media, r, now)],
    outbox := tx.outbox + [Changed(media, item.version, created)])
  }

  function ApplyTx(db: Tables, account: Id, r: LocalResult, now: I64): (Tables, Result<Id, Error>) {
    var refused := Refused(db, account, r);
    if refused.Some? then (db, refused.value)
    else
      var begun := BeginReplacement(db, account, r, now);
      if !Insertable(begun, account, r) then (db, Err(Internal))
      else
        (FinishReplacement(Inserted(begun, account, r), account, r, NextItem(db, account, r, now), r.media.id !in db.items, now),
         Ok(r.media.id))
  }

  lemma {:induction false} LinkRowFrom(media: Id, versions: seq<Version>, i: nat) returns (v: nat, k: nat)
    requires i < |LinkRows(media, versions)|
    ensures v < |versions| && k < |versions[v].files|
    ensures LinkRows(media, versions)[i] == (Key(versions[v].id, k), LinkRow(media, versions[v].files[k]))
  {
    var earlier := LinkRows(media, versions[..|versions| - 1]);
    if i < |earlier| {
      v, k := LinkRowFrom(media, versions[..|versions| - 1], i);
    } else {
      v, k := |versions| - 1, i - |earlier|;
    }
  }

  lemma {:induction false} LinkRowsAreDistinct(media: Id, versions: seq<Version>)
    requires DistinctVersions(versions)
    ensures DistinctKeys(LinkRows(media, versions))
  {
    if versions != [] {
      var last := |versions| - 1;
      LinkRowsAreDistinct(media, versions[..last]);
      var earlier, rows := LinkRows(media, versions[..last]), LinkRows(media, versions);
      forall i, j | 0 <= i < j < |rows|
        ensures rows[i].0 != rows[j].0
      {
        if i < |earlier| <= j {
          var v, k := LinkRowFrom(media, versions[..last], i);
        }
      }
    }
  }

  lemma RowsAreDistinct(account: Id, r: LocalResult)
    requires ResultValid(r)
    ensures var media := r.media.id;
            && DistinctKeys(NodeRows(media, r.media.nodes)) && DistinctKeys(AssetRows(account, media, r.assets))
            && DistinctKeys(VersionRows(media, r.media.versions)) && DistinctKeys(LinkRows(media, r.media.versions))
            && DistinctKeys(ValueRows(media, r.media.metadata)) && DistinctKeys(ArtworkRows(media, r.media.artwork))
  {
    LinkRowsAreDistinct(r.media.id, r.media.versions);
  }

  // ---- Reading one item back ----------------------------------------------------------------------

  datatype FileView = FileView(id: Id, sourcePath: string, currentPath: string, size: nat)
  datatype VersionView = VersionView(id: Id, caption: Option<string>, files: seq<FileView>)
  datatype ChildView = ChildView(
    id: Id, parent: Option<Id>, kind: NodeKind, title: string, ordinal: nat, versions: seq<VersionView>)

  /** Metadata and related tasks are kept as sets. */
  datatype Detail = Detail(
    item: Item, poster: Option<Artwork>, metadata: set<Value>, versions: seq<VersionView>, children: seq<ChildView>,
    tasks: set<Id>)

  function KindRank(kind: NodeKind): nat {
    match kind
    case Season => 0
    case Episode => 1
    case GenericVideoItem => 2
  }

  /** Seasons, then episodes, then videos; by ordinal and identity within each. */
  function NodeKey(node: Node): Key {
    Key(KindRank(node.kind) * 100_000 + node.ordinal, node.id)
  }

  function NodeKeys(nodes: map<Id, NodeRow>, media: Id): set<Key> {
    set id | id in nodes && nodes[id].media == media :: NodeKey(nodes[id].node)
  }

  /** Versions without an owner come first. */
  function OwnerRank(owner: Option<Id>): nat {
    if owner.Some? then owner.value + 1 else 0
  }

  function VersionKeys(versions: map<Id, VersionRow>, media: Id): set<Key> {
    set id | id in versions && versions[id].media == media :: Key(OwnerRank(versions[id].owner), id)
  }

  function LinkKeys(links: map<Key, LinkRow>, media: Id): set<Key> {
    set k | k in links && links[k].media == media
  }

  /** The rows of an ordered query that belong to one group. */
  function Group(keys: set<Key>, major: int): set<Key> {
    set k | k in keys && k.major == major
  }

  function FileOf(db: Tables, k: Key): (r: Option<FileView>) {
    if k in db.links && db.links[k].asset in db.assets then
      var a := db.assets[db.links[k].asset].asset;
      Some(FileView(a.id, a.sourcePath, a.currentPath, a.size))
    else None
  }

  /** The joined rows in the order of their keys; a link without its file does not join. */
  function FilesAt(db: Tables, keys: seq<Key>): seq<FileView> {
    if keys == [] then []
    else
      var file := FileOf(db, keys[|keys| - 1]);
      FilesAt(db, keys[..|keys| - 1]) + if file.Some? then [file.value] else []
  }

  function VersionAt(db: Tables, media: Id, id: Id): VersionView
    requires id in db.versions
  {
    VersionView(id, db.versions[id].caption, FilesAt(db, Ascending(Group(LinkKeys(db.links, media), id))))
  }

  function VersionsAt(db: Tables, media: Id, keys: seq<Key>): seq<VersionView> {
    if keys == [] then []
    else
      var k := keys[|keys| - 1];
      VersionsAt(db, media, keys[..|keys| - 1])
        + if k.minor >= 0 && k.minor in db.versions then [VersionAt(db, media, k.minor)] else []
  }

  function OwnedVersions(db: Tables, media: Id, owner: Option<Id>): seq<VersionView> {
    VersionsAt(db, media, Ascending(Group(VersionKeys(db.versions, media), OwnerRank(owner))))
  }

  function ChildAt(db: Tables, media: Id, id: Id): ChildView
    requires id in db.nodes
  {
    var node := db.nodes[id].node;
    ChildView(id, node.parent, node.kind, node.title, node.ordinal, OwnedVersions(db, media, Some(id)))
  }

  function ChildrenAt(db: Tables, media: Id, keys: seq<Key>): seq<ChildView> {
    if keys == [] then []
    else
      var k := keys[|keys| - 1];
      ChildrenAt(db, media, keys[..|keys| - 1])
        + if k.minor >= 0 && k.minor in db.nodes then [ChildAt(db, media, k.minor)] else []
  }

  function ValuesOf(metadata: map<Field, Value>, media: Id): set<Value> {
    set f | f in metadata && f.media == media :: metadata[f]
  }

  function RelatedTasks(applied: map<Id, Applied>, account: Id, media: Id): set<Id> {
    set id | id in applied && applied[id].account == account && applied[id].media == media :: applied[id].task
  }

  /** The detail of an item: every node with its own versions, every version with its own files. */
  function DetailTx(db: Tables, account: Id, media: Id): Result<Detail, Error> {
    if media !in db.items || db.items[media].account != account then Err(NotFound)
    else if |ValuesOf(db.metadata, media)| > MAX_METADATA
            || |NodeKeys(db.nodes, media)| > MAX_NODES
            || |VersionKeys(db.versions, media)| > MAX_VERSIONS
            || |LinkKeys(db.links, media)| > MAX_FILE_LINKS
            || |RelatedTasks(db.applied, account, media)| > MAX_TASKS then Err(Internal)
    else
      Ok(Detail(
           db.items[media], FindPoster(db.artwork, media), ValuesOf(db.metadata, media),
           OwnedVersions(db, media, None), ChildrenAt(db, media, Ascending(NodeKeys(db.nodes, media))),
           RelatedTasks(db.applied, account, media)))
  }

  // ---- Grouping sorted rows in one pass -----------------------------------------------------------

  function Filter(keys: seq<Key>, major: int): seq<Key> {
    if keys == [] then []
    else
      var k := keys[|keys| - 1];
      Filter(keys[..|keys| - 1], major) + if k.major == major then [k] else []
  }

  lemma {:induction false} FilterKeeps(keys: seq<Key>, major: int)
    requires Increasing(keys)
    ensures Increasing(Filter(keys, major))
    ensures forall k :: k in Filter(keys, major) <==> k in keys && k.major == major
  {
    if keys != [] {
      var earlier, k := keys[..|keys| - 1], keys[|keys| - 1];
      FilterKeeps(earlier, major);
      assert keys == earlier + [k];
      assert forall x | x in earlier :: Below(x, k);
    }
  }

  /** The rows one pass finds for a group are the group's own ordered query. */
  lemma FilterIsTheGroup(keys: set<Key>, major: int)
    ensures Filter(Ascending(keys), major) == Ascending(Group(keys, major))
  {
    FilterKeeps(Ascending(keys), major);
    AscendingIsUnique(Group(keys, major), Filter(Ascending(keys), major));
  }

  function At<K, V>(groups: map<K, seq<V>>, k: K): seq<V> {
    if k in groups then groups[k] else []
  }

  /** One more row lengthens its own group only. */
  lemma NextRow(keys: seq<Key>, i: nat, major: int)
    requires i < |keys|
    ensures Filter(keys[..i + 1], major)
            == if keys[i].major == major then Filter(keys[..i], major) + [keys[i]] else Filter(keys[..i], major)
  {
    assert keys[..i + 1][..i] == keys[..i];
  }

  lemma NextFile(db: Tables, keys: seq<Key>, k: Key)
    ensures FilesAt(db, keys + [k]) == FilesAt(db, keys) + if FileOf(db, k).Some? then [FileOf(db, k).value] else []
  {
    assert (keys + [k])[..|keys|] == keys;
  }

  lemma NextVersion(db: Tables, media: Id, keys: seq<Key>, k: Key)
    requires k.minor >= 0 && k.minor in db.versions
    ensures VersionsAt(db, media, keys + [k]) == VersionsAt(db, media, keys) + [VersionAt(db, media, k.minor)]
  {
    assert (keys + [k])[..|keys|] == keys;
  }

  ghost predicate FilesGrouped(db: Tables, keys: seq<Key>, files: map<int, seq<FileView>>) {
    forall v :: At(files, v) == FilesAt(db, Filter(keys, v))
  }

  lemma FilesGroupedNext(db: Tables, keys: seq<Key>, i: nat, files: map<int, seq<FileView>>)
    requires i < |keys| && FilesGrouped(db, keys[..i], files)
    ensures var file := FileOf(db, keys[i]);
            FilesGrouped(db, keys[..i + 1],
                         if file.Some? then files[keys[i].major := At(files, keys[i].major) + [file.value]] else files)
  {
    var file := FileOf(db, keys[i]);
    var next := if file.Some? then files[keys[i].major := At(files, keys[i].major) + [file.value]] else files;
    forall v
      ensures At(next, v) == FilesAt(db, Filter(keys[..i + 1], v))
    {
      assert At(files, v) == FilesAt(db, Filter(keys[..i], v));
      NextRow(keys, i, v);
      if keys[i].major == v {
        NextFile(db, Filter(keys[..i], v), keys[i]);
      }
    }
  }

  method GroupFiles(db: Tables, media: Id) returns (files: map<int, seq<FileView>>)
    ensures FilesGrouped(db, Ascending(LinkKeys(db.links, media)), files)
  {
    var rows := Ascending(LinkKeys(db.links, media));
    files := map[];
    for i := 0 to |rows|
      invariant FilesGrouped(db, rows[..i], files)
    {
      FilesGroupedNext(db, rows, i, files);
      var file := FileOf(db, rows[i]);
      if file.Some? {
        files := files[rows[i].major := At(files, rows[i].major) + [file.value]];
      }
    }
    assert rows[..|rows|] == rows;
  }

  ghost predicate VersionsGrouped(db: Tables, media: Id, keys: seq<Key>, versions: map<int, seq<VersionView>>) {
    forall o :: At(versions, o) == VersionsAt(db, media, Filter(keys, o))
  }

  lemma VersionsGroupedNext(db: Tables, media: Id, keys: seq<Key>, i: nat, versions: map<int, seq<VersionView>>)
    requires i < |keys| && VersionsGrouped(db, media, keys[..i], versions)
    requires keys[i].minor >= 0 && keys[i].minor in db.versions
    ensures VersionsGrouped(db, media, keys[..i + 1],
                            versions[keys[i].major := At(versions, keys[i].major) + [VersionAt(db, media, keys[i].minor)]])
  {
    var next := versions[keys[i].major := At(versions, keys[i].major) + [VersionAt(db, media, keys[i].minor)]];
    forall o
      ensures At(next, o) == VersionsAt(db, media, Filter(keys[..i + 1], o))
    {
      assert At(versions, o) == VersionsAt(db, media, Filter(keys[..i], o));
      NextRow(keys, i, o);
      if keys[i].major == o {
        NextVersion(db, media, Filter(keys[..i], o), keys[i]);
      }
    }
  }

  lemma GroupedFilesAreTheVersions(db: Tables, media: Id, files: map<int, seq<FileView>>, id: Id)
    requires FilesGrouped(db, Ascending(LinkKeys(db.links, media)), files) && id in db.versions
    ensures VersionView(id, db.versions[id].caption, At(files, id)) == VersionAt(db, media, id)
  {
    assert At(files, id) == FilesAt(db, Filter(Ascending(LinkKeys(db.links, media)), id));
    FilterIsTheGroup(LinkKeys(db.links, media), id);
  }

  method GroupVersions(db: Tables, media: Id) returns (versions: map<int, seq<VersionView>>)
    ensures VersionsGrouped(db, media, Ascending(VersionKeys(db.versions, media)), versions)
  {
    var files := GroupFiles(db, media);
    var rows := Ascending(VersionKeys(db.versions, media));
    versions := map[];
    for i := 0 to |rows|
      invariant VersionsGrouped(db, media, rows[..i], versions)
    {
      assert rows[i] in VersionKeys(db.versions, media);
      var id := rows[i].minor;
      VersionsGroupedNext(db, media, rows, i, versions);
      GroupedFilesAreTheVersions(db, media, files, id);
      var version := VersionView(id, db.versions[id].caption, At(files, id));
      versions := versions[rows[i].major := At(versions, rows[i].major) + [version]];
    }
    assert rows[..|rows|] == rows;
  }

  lemma GroupedVersionsAreOwned(db: Tables, media: Id, versions: map<int, seq<VersionView>>, owner: Option<Id>)
    requires VersionsGrouped(db, media, Ascending(VersionKeys(db.versions, media)), versions)
    ensures At(versions, OwnerRank(owner)) == OwnedVersions(db, media, owner)
  {
    FilterIsTheGroup(VersionKeys(db.versions, media), OwnerRank(owner));
  }

  /** Node rows are stored under their own identity. */
  predicate Keyed(nodes: map<Id, NodeRow>) {
    forall id | id in nodes :: nodes[id].node.id == id
  }

  lemma NextChild(db: Tables, media: Id, keys: seq<Key>, i: nat, versions: map<int, seq<VersionView>>)
    requires VersionsGrouped(db, media, Ascending(VersionKeys(db.versions, media)), versions)
    requires i < |keys| && keys[i].minor >= 0 && keys[i].minor in db.nodes
    ensures var node := db.nodes[keys[i].minor].node;
            ChildrenAt(db, media, keys[..i + 1])
            == ChildrenAt(db, media, keys[..i])
               + [ChildView(keys[i].minor, node.parent, node.kind, node.title, node.ordinal,
                            At(versions, OwnerRank(Some(keys[i].minor))))]
  {
    GroupedVersionsAreOwned(db, media, versions, Some(keys[i].minor));
    assert keys[..i + 1][..i] == keys[..i];
  }

  method BuildChildren(db: Tables, media: Id, versions: map<int, seq<VersionView>>) returns (children: seq<ChildView>)
    requires VersionsGrouped(db, media, Ascending(VersionKeys(db.versions, media)), versions) && Keyed(db.nodes)
    ensures children == ChildrenAt(db, media, Ascending(NodeKeys(db.nodes, media)))
  {
    var rows := Ascending(NodeKeys(db.nodes, media));
    children := [];
    for i := 0 to |rows|
      invariant children == ChildrenAt(db, media, rows[..i])
    {
      assert rows[i] in NodeKeys(db.nodes, media);
      var id := rows[i].minor;
      var node := db.nodes[id].node;
      NextChild(db, media, rows, i, versions);
      children := children
        + [ChildView(id, node.parent, node.kind, node.title, node.ordinal, At(versions, OwnerRank(Some(id))))];
    }
    assert rows[..|rows|] == rows;
  }
}
