/**
 Listing the catalog by pages. The order history only grows; a cursor pins the history revision of the
 first page, so a walk by cursor sees one frozen snapshot while writers go on.
 */
module CatalogPages {
  import opened Outcomes
  import opened Int64
  import opened Ordering
  import opened Texts
  import opened Catalog

  const MAX_PAGE_LIMIT := 200

  datatype Filter = Filter(kind: Option<ItemKind>, library: Option<Id>, status: Option<LocalStatus>, query: Option<string>)

  /** The digest of the filter stands for the filter. */
  datatype Cursor = Cursor(account: Id, filter: Filter, updatedAt: I64, media: Id, snapshot: nat)

  datatype Page = Page(items: seq<HistoryRow>, next: Option<Cursor>)

  predicate FilterValid(filter: Filter) {
    filter.query.Some? ==> |filter.query.value| <= 200 && Plain(filter.query.value)
  }

  predicate Matches(filter: Filter, row: HistoryRow) {
    && (filter.kind.Some? ==> row.kind == filter.kind.value)
    && (filter.library.Some? ==> row.library == filter.library.value)
    && (filter.status.Some? ==> row.status == filter.status.value)
    && (filter.query.Some? ==> Contains(row.normalized, filter.query.value))
  }

  /** The index of the newest of the first `n` rows of the item. */
  function Latest(history: seq<HistoryRow>, n: nat, media: Id): (r: Option<nat>)
    requires n <= |history|
    ensures r.Some? ==> r.value < n && history[r.value].media == media
    ensures forall i | 0 <= i < n && history[i].media == media :: r.Some? && i <= r.value
  {
    if n == 0 then None
    else if history[n - 1].media == media then Some(n - 1)
    else Latest(history, n - 1, media)
  }

  /** The newest revision of the account's rows; revisions count from 1. */
  function LastRevision(history: seq<HistoryRow>, account: Id): (r: Option<nat>)
    ensures r.Some? ==> 1 <= r.value <= |history|
    ensures r.None? <==> forall i | 0 <= i < |history| :: history[i].account != account
    ensures r.Some? ==> forall i | r.value <= i < |history| :: history[i].account != account
  {
    if history == [] then None
    else if history[|history| - 1].account == account then Some(|history|)
    else LastRevision(history[..|history| - 1], account)
  }

  /** Newest first, the larger identity first among equals. */
  function Mirrored(updatedAt: int, media: int): Key {
    Key(-updatedAt, -media)
  }

  function SortKey(row: HistoryRow): Key {
    Mirrored(row.updatedAt, row.media)
  }

  predicate InSnapshot(history: seq<HistoryRow>, n: nat, account: Id, filter: Filter, i: nat)
    requires n <= |history|
  {
    && i < n && history[i].account == account
    && Latest(history, n, history[i].media) == Some(i)
    && Matches(filter, history[i])
  }

  function SnapshotKeys(history: seq<HistoryRow>, n: nat, account: Id, filter: Filter): set<Key>
    requires n <= |history|
  {
    set i: nat | 0 <= i < n && InSnapshot(history, n, account, filter, i) :: SortKey(history[i])
  }

  /** The row of the snapshot with this sort key. */
  function RowAt(history: seq<HistoryRow>, n: nat, k: Key): Option<HistoryRow>
    requires n <= |history|
  {
    if k.minor > 0 then None
    else
      var i := Latest(history, n, -k.minor);
      if i.Some? then Some(history[i.value]) else None
  }

  function RowsAt(history: seq<HistoryRow>, n: nat, keys: seq<Key>): (rows: seq<HistoryRow>)
    requires n <= |history|
  {
    if keys == [] then []
    else
      var row := RowAt(history, n, keys[|keys| - 1]);
      RowsAt(history, n, keys[..|keys| - 1]) + if row.Some? then [row.value] else []
  }

  /** The whole snapshot an unbounded query would return. */
  function Snapshot(history: seq<HistoryRow>, n: nat, account: Id, filter: Filter): seq<HistoryRow>
    requires n <= |history|
  {
    RowsAt(history, n, Ascending(SnapshotKeys(history, n, account, filter)))
  }

  function Past(keys: set<Key>, cursor: Option<Cursor>): set<Key> {
    if cursor.None? then keys
    else set k | k in keys && Below(Mirrored(cursor.value.updatedAt, cursor.value.media), k)
  }

  function Take(keys: seq<Key>, limit: nat): seq<Key> {
    if |keys| > limit then keys[..limit] else keys
  }

  function ListTx(history: seq<HistoryRow>, account: Id, filter: Filter, cursor: Option<Cursor>, limit: nat):
    Result<Page, Error>
  {
    if limit == 0 || limit > MAX_PAGE_LIMIT then Err(ValidationFailed)
    else if !FilterValid(filter) then Err(ValidationFailed)
    else if cursor.Some? && (cursor.value.account != account || cursor.value.filter != filter) then Err(ValidationFailed)
    else
      var snapshot := if cursor.Some? then Some(cursor.value.snapshot) else LastRevision(history, account);
      if snapshot.None? then Ok(Page([], None))
      else
        var n := if snapshot.value < |history| then snapshot.value else |history|;
        var keys := Ascending(Past(SnapshotKeys(history, n, account, filter), cursor));
        var selected := Take(keys, limit);
        var next := if |keys| > limit then
                      var last := selected[limit - 1];
                      var row := RowAt(history, n, last);
                      if row.Some? then Some(Cursor(account, filter, row.value.updatedAt, row.value.media, snapshot.value)) else None
                    else None;
        Ok(Page(RowsAt(history, n, selected), next))
  }

  // ---- A walk by cursor ---------------------------------------------------------------------------

  /** How much of the history each page finds: writers only append between pages. */
  ghost predicate Growing(sizes: seq<nat>, total: nat) {
    forall i, j | 0 <= i <= j < |sizes| :: sizes[i] <= sizes[j] <= total
  }

  ghost predicate LimitsValid(limits: seq<nat>) {
    forall k | 0 <= k < |limits| :: 1 <= limits[k] <= MAX_PAGE_LIMIT
  }

  /** The items of the pages from page `k` on; None if a page fails or the pages run out too early. */
  ghost function Walk(history: seq<HistoryRow>, sizes: seq<nat>, limits: seq<nat>, account: Id, filter: Filter,
                      cursor: Option<Cursor>, k: nat): Option<seq<HistoryRow>>
    requires k <= |sizes| == |limits| && Growing(sizes, |history|)
    decreases |sizes| - k
  {
    if k == |sizes| then None
    else
      var page := ListTx(history[..sizes[k]], account, filter, cursor, limits[k]);
      if page.Err? then None
      else if page.value.next.None? then Some(page.value.items)
      else
        var rest := Walk(history, sizes, limits, account, filter, page.value.next, k + 1);
        if rest.Some? then Some(page.value.items + rest.value) else None
  }

  lemma {:induction false} LatestIsFrozen(history: seq<HistoryRow>, later: seq<HistoryRow>, n: nat, media: Id)
    requires history <= later && n <= |history|
    ensures Latest(later, n, media) == Latest(history, n, media)
  {
    if n > 0 {
      LatestIsFrozen(history, later, n - 1, media);
    }
  }

  lemma {:induction false} RowsAreFrozen(history: seq<HistoryRow>, later: seq<HistoryRow>, n: nat, keys: seq<Key>)
    requires history <= later && n <= |history|
    ensures RowsAt(later, n, keys) == RowsAt(history, n, keys)
  {
    if keys != [] {
      RowsAreFrozen(history, later, n, keys[..|keys| - 1]);
      if keys[|keys| - 1].minor <= 0 {
        LatestIsFrozen(history, later, n, -keys[|keys| - 1].minor);
      }
    }
  }

  /** Appending to the history leaves an older snapshot as it is. */
  lemma SnapshotIsFrozen(history: seq<HistoryRow>, later: seq<HistoryRow>, n: nat, account: Id, filter: Filter)
    requires history <= later && n <= |history|
    ensures SnapshotKeys(later, n, account, filter) == SnapshotKeys(history, n, account, filter)
  {
    forall i: nat | i < n
      ensures InSnapshot(later, n, account, filter, i) == InSnapshot(history, n, account, filter, i)
    {
      LatestIsFrozen(history, later, n, history[i].media);
    }
    assert forall i: nat | i < n :: SortKey(later[i]) == SortKey(history[i]);
    forall k
      ensures k in SnapshotKeys(later, n, account, filter) <==> k in SnapshotKeys(history, n, account, filter)
    {
    }
  }

  lemma KeysHaveRows(history: seq<HistoryRow>, n: nat, account: Id, filter: Filter, k: Key)
    requires n <= |history| && k in SnapshotKeys(history, n, account, filter)
    ensures RowAt(history, n, k).Some? && SortKey(RowAt(history, n, k).value) == k
  {
  }

  lemma RestOfIncreasing(q: seq<Key>, i: nat, k: Key)
    requires Increasing(q) && 0 < i <= |q|
    ensures Increasing(q[i..])
    ensures k in q[i..] <==> k in q && Below(q[i - 1], k)
  {
    if k in q[i..] {
      var j :| 0 <= j < |q[i..]| && q[i..][j] == k;
      assert q[i + j] == k;
    }
    if k in q && Below(q[i - 1], k) {
      var j :| 0 <= j < |q| && q[j] == k;
      assert j >= i;
      assert q[i..][j - i] == k;
    }
  }

  /** What remains after the first `i` keys is what lies past the last of them. */
  lemma PastIsTheRest(keys: set<Key>, q: seq<Key>, i: nat, cursor: Cursor)
    requires Increasing(q) && (forall k :: k in q <==> k in keys) && 0 < i <= |q|
    requires q[i - 1] == Mirrored(cursor.updatedAt, cursor.media)
    ensures Ascending(Past(keys, Some(cursor))) == q[i..]
  {
    forall k
      ensures k in q[i..] <==> k in Past(keys, Some(cursor))
    {
      RestOfIncreasing(q, i, k);
    }
    RestOfIncreasing(q, i, q[0]);
    AscendingIsUnique(Past(keys, Some(cursor)), q[i..]);
  }

  lemma {:induction false} RowsJoin(history: seq<HistoryRow>, n: nat, a: seq<Key>, b: seq<Key>)
    requires n <= |history|
    ensures RowsAt(history, n, a + b) == RowsAt(history, n, a) + RowsAt(history, n, b)
  {
    if b == [] {
      assert a + b == a;
    } else {
      RowsJoin(history, n, a, b[..|b| - 1]);
      assert (a + b)[..|a + b| - 1] == a + b[..|b| - 1];
    }
  }

  /** The snapshot's keys in the order of the list. */
  ghost function Order(history: seq<HistoryRow>, n: nat, account: Id, filter: Filter): seq<Key>
    requires n <= |history|
  {
    Ascending(SnapshotKeys(history, n, account, filter))
  }

  /** The cursor stands after the first `i` of the snapshot's keys `q`. */
  ghost predicate StandsAt(q: seq<Key>, n: nat, account: Id, filter: Filter, cursor: Option<Cursor>, i: nat) {
    if cursor.None? then i == 0
    else
      && 0 < i <= |q| && cursor.value.account == account && cursor.value.filter == filter && cursor.value.snapshot == n
      && q[i - 1] == Mirrored(cursor.value.updatedAt, cursor.value.media)
  }

  /** The first page takes the newest revision for its snapshot. */
  ghost predicate Pins(history: seq<HistoryRow>, n: nat, account: Id, cursor: Option<Cursor>) {
    cursor.None? ==> LastRevision(history, account) == Some(n)
  }

  /** The cursor after a page whose last key is `k`. */
  ghost function After(history: seq<HistoryRow>, n: nat, account: Id, filter: Filter, k: Key): Option<Cursor>
    requires n <= |history|
  {
    var row := RowAt(history, n, k);
    if row.Some? then Some(Cursor(account, filter, row.value.updatedAt, row.value.media, n)) else None
  }

  lemma ListUnfolds(history: seq<HistoryRow>, n: nat, account: Id, filter: Filter, cursor: Option<Cursor>,
                    limit: nat, rest: seq<Key>)
    requires n <= |history| && FilterValid(filter) && 1 <= limit <= MAX_PAGE_LIMIT
    requires if cursor.None? then LastRevision(history, account) == Some(n)
             else cursor.value.account == account && cursor.value.filter == filter && cursor.value.snapshot == n
    requires Ascending(Past(SnapshotKeys(history, n, account, filter), cursor)) == rest
    ensures ListTx(history, account, filter, cursor, limit)
            == Ok(Page(RowsAt(history, n, Take(rest, limit)),
                       if |rest| > limit then After(history, n, account, filter, rest[limit - 1]) else None))
  {
  }

  lemma TakeOfRest(q: seq<Key>, i: nat, limit: nat)
    requires i <= |q|
    ensures Take(q[i..], limit) == q[i..if |q| - i > limit then i + limit else |q|]
  {
  }

  lemma RestAtCursor(history: seq<HistoryRow>, n: nat, account: Id, filter: Filter, cursor: Option<Cursor>, i: nat)
    requires n <= |history| && StandsAt(Order(history, n, account, filter), n, account, filter, cursor, i)
    ensures var q := Order(history, n, account, filter);
            i <= |q| && Ascending(Past(SnapshotKeys(history, n, account, filter), cursor)) == q[i..]
  {
    if cursor.Some? {
      PastIsTheRest(SnapshotKeys(history, n, account, filter), Order(history, n, account, filter), i, cursor.value);
    }
  }

  lemma CursorAfter(history: seq<HistoryRow>, n: nat, account: Id, filter: Filter, j: nat)
    requires n <= |history| && 0 < j <= |Order(history, n, account, filter)|
    ensures var q := Order(history, n, account, filter);
            var next := After(history, n, account, filter, q[j - 1]);
            next.Some? && StandsAt(q, n, account, filter, next, j)
  {
    var q := Order(history, n, account, filter);
    assert q[j - 1] in q;
    KeysHaveRows(history, n, account, filter, q[j - 1]);
  }

  function Until(total: nat, i: nat, limit: nat): nat {
    if total - i > limit then i + limit else total
  }

  /** The page holds the next stretch of the snapshot, and a cursor exactly when more is left. */
  ghost predicate GivesTheStretch(page: Page, history: seq<HistoryRow>, n: nat, q: seq<Key>, i: nat, limit: nat)
    requires n <= |history|
  {
    && i <= |q| && limit >= 1
    && page.items == RowsAt(history, n, q[i..Until(|q|, i, limit)])
    && (page.next.None? <==> Until(|q|, i, limit) == |q|)
  }

  lemma TakenStretch(history: seq<HistoryRow>, n: nat, account: Id, filter: Filter, i: nat, limit: nat)
    requires n <= |history| && limit >= 1 && i <= |Order(history, n, account, filter)|
    ensures var q := Order(history, n, account, filter);
            var rest := q[i..];
            var next := if |rest| > limit then After(history, n, account, filter, rest[limit - 1]) else None;
            && GivesTheStretch(Page(RowsAt(history, n, Take(rest, limit)), next), history, n, q, i, limit)
            && (next.Some? ==> StandsAt(q, n, account, filter, next, Until(|q|, i, limit)))
  {
    var q := Order(history, n, account, filter);
    TakeOfRest(q, i, limit);
    if |q| - i > limit {
      CursorAfter(history, n, account, filter, i + limit);
    }
  }

  lemma PageIsTheNextStretch(history: seq<HistoryRow>, n: nat, account: Id, filter: Filter, cursor: Option<Cursor>,
                             i: nat, limit: nat)
    requires n <= |history| && FilterValid(filter) && 1 <= limit <= MAX_PAGE_LIMIT
    requires Pins(history, n, account, cursor) && StandsAt(Order(history, n, account, filter), n, account, filter, cursor, i)
    ensures var q := Order(history, n, account, filter);
            var page := ListTx(history, account, filter, cursor, limit);
            && page.Ok? && GivesTheStretch(page.value, history, n, q, i, limit)
            && (page.value.next.Some? ==> StandsAt(q, n, account, filter, page.value.next, Until(|q|, i, limit)))
  {
    RestAtCursor(history, n, account, filter, cursor, i);
    var q := Order(history, n, account, filter);
    ListUnfolds(history, n, account, filter, cursor, limit, q[i..]);
    TakenStretch(history, n, account, filter, i, limit);
  }

  /** A page on a grown history is the same page. */
  lemma PageIsFrozen(history: seq<HistoryRow>, size: nat, n: nat, account: Id, filter: Filter, cursor: Option<Cursor>,
                     i: nat, limit: nat)
    requires n <= size <= |history| && FilterValid(filter) && 1 <= limit <= MAX_PAGE_LIMIT
    requires Pins(history[..size], n, account, cursor)
    requires StandsAt(Order(history, n, account, filter), n, account, filter, cursor, i)
    ensures var q := Order(history, n, account, filter);
            var page := ListTx(history[..size], account, filter, cursor, limit);
            && page.Ok? && GivesTheStretch(page.value, history, n, q, i, limit)
            && (page.value.next.Some? ==> StandsAt(q, n, account, filter, page.value.next, Until(|q|, i, limit)))
  {
    SnapshotIsFrozen(history[..size], history, n, account, filter);
    PageIsTheNextStretch(history[..size], n, account, filter, cursor, i, limit);
    var q := Order(history, n, account, filter);
    RowsAreFrozen(history[..size], history, n, q[i..Until(|q|, i, limit)]);
  }

  /** The pages from row `i` on give the rest of the snapshot, and end when there are enough of them. */
  ghost predicate GivesTheRest(items: Option<seq<HistoryRow>>, pages: nat, history: seq<HistoryRow>, n: nat, q: seq<Key>, i: nat)
    requires n <= |history|
  {
    && i <= |q|
    && (items.Some? ==> items.value == RowsAt(history, n, q[i..]))
    && (pages > |q| - i ==> items.Some?)
  }

  lemma OnePageMore(page: Page, rest: Option<seq<HistoryRow>>, pages: nat, history: seq<HistoryRow>,
                    n: nat, q: seq<Key>, i: nat, limit: nat)
    requires n <= |history| && pages >= 1 && GivesTheStretch(page, history, n, q, i, limit)
    requires page.next.Some? ==> GivesTheRest(rest, pages - 1, history, n, q, Until(|q|, i, limit))
    ensures var items := if page.next.None? then Some(page.items)
                         else if rest.Some? then Some(page.items + rest.value) else None;
            GivesTheRest(items, pages, history, n, q, i)
  {
    var j := Until(|q|, i, limit);
    if page.next.Some? {
      RowsJoin(history, n, q[i..j], q[j..]);
      assert q[i..j] + q[j..] == q[i..];
    } else {
      assert q[i..j] == q[i..];
    }
  }

  lemma WalkFromPage(history: seq<HistoryRow>, sizes: seq<nat>, limits: seq<nat>, account: Id, filter: Filter,
                     cursor: Option<Cursor>, k: nat, page: Page, n: nat, q: seq<Key>, i: nat)
    requires k < |sizes| == |limits| && Growing(sizes, |history|) && n <= |history|
    requires ListTx(history[..sizes[k]], account, filter, cursor, limits[k]) == Ok(page)
    requires GivesTheStretch(page, history, n, q, i, limits[k])
    requires page.next.Some? ==>
               GivesTheRest(Walk(history, sizes, limits, account, filter, page.next, k + 1), |sizes| - k - 1, history, n, q,
                            Until(|q|, i, limits[k]))
    ensures GivesTheRest(Walk(history, sizes, limits, account, filter, cursor, k), |sizes| - k, history, n, q, i)
  {
    var rest := if page.next.Some? then Walk(history, sizes, limits, account, filter, page.next, k + 1) else None;
    OnePageMore(page, rest, |sizes| - k, history, n, q, i, limits[k]);
  }

  lemma {:induction false} RestOfTheWalk(history: seq<HistoryRow>, sizes: seq<nat>, limits: seq<nat>, account: Id,
                                         filter: Filter, cursor: Option<Cursor>, k: nat, n: nat, q: seq<Key>, i: nat)
    requires k <= |sizes| == |limits| && Growing(sizes, |history|) && FilterValid(filter) && LimitsValid(limits)
    requires n <= |history| && (k < |sizes| ==> n <= sizes[k] && Pins(history[..sizes[k]], n, account, cursor))
    requires q == Order(history, n, account, filter) && StandsAt(q, n, account, filter, cursor, i)
    ensures GivesTheRest(Walk(history, sizes, limits, account, filter, cursor, k), |sizes| - k, history, n, q, i)
    decreases |sizes| - k
  {
    if k < |sizes| {
      PageIsFrozen(history, sizes[k], n, account, filter, cursor, i, limits[k]);
      var page := ListTx(history[..sizes[k]], account, filter, cursor, limits[k]).value;
      if page.next.Some? {
        RestOfTheWalk(history, sizes, limits, account, filter, page.next, k + 1, n, q, Until(|q|, i, limits[k]));
      }
      WalkFromPage(history, sizes, limits, account, filter, cursor, k, page, n, q, i);
    }
  }

  /**
   Walking the catalog by cursor to the end returns exactly the filtered snapshot the first page saw:
   every item once, newest first, for all page limits and whatever was written between the pages. With
   one page more than there are items the walk does end.
   */
  lemma WalkReturnsTheSnapshot(history: seq<HistoryRow>, sizes: seq<nat>, limits: seq<nat>, account: Id, filter: Filter)
    requires |sizes| == |limits| >= 1 && Growing(sizes, |history|) && FilterValid(filter) && LimitsValid(limits)
    ensures var items := Walk(history, sizes, limits, account, filter, None, 0);
            var last := LastRevision(history[..sizes[0]], account);
            if last.None? then items == Some([])
            else
              && (items.Some? ==> items.value == Snapshot(history, last.value, account, filter))
              && (|sizes| > |SnapshotKeys(history, last.value, account, filter)| ==> items.Some?)
  {
    var last := LastRevision(history[..sizes[0]], account);
    if last.Some? {
      var q := Order(history, last.value, account, filter);
      RestOfTheWalk(history, sizes, limits, account, filter, None, 0, last.value, q, 0);
      assert q[0..] == q;
    }
  }

  // ---- What a snapshot is -----------------------------------------------------------------------

  ghost predicate Newer(a: HistoryRow, b: HistoryRow) {
    a.updatedAt > b.updatedAt || (a.updatedAt == b.updatedAt && a.media > b.media)
  }

  lemma {:induction false} RowsOfKeys(history: seq<HistoryRow>, n: nat, account: Id, filter: Filter, keys: seq<Key>)
    requires n <= |history| && forall k | k in keys :: k in SnapshotKeys(history, n, account, filter)
    ensures var rows := RowsAt(history, n, keys);
            |rows| == |keys| && forall i | 0 <= i < |keys| :: SortKey(rows[i]) == keys[i] && rows[i] in history[..n]
  {
    if keys != [] {
      var k := keys[|keys| - 1];
      assert k in keys;
      RowsOfKeys(history, n, account, filter, keys[..|keys| - 1]);
      KeysHaveRows(history, n, account, filter, k);
      var i := Latest(history, n, -k.minor);
      assert history[..n][i.value] == RowAt(history, n, k).value;
    }
  }

  lemma {:induction false} SameKeySameRow(history: seq<HistoryRow>, n: nat, keys: seq<Key>, i: nat)
    requires n <= |history| && i < |keys| && forall k | k in keys :: RowAt(history, n, k).Some?
    ensures |RowsAt(history, n, keys)| == |keys| && RowsAt(history, n, keys)[i] == RowAt(history, n, keys[i]).value
  {
    assert keys[|keys| - 1] in keys;
    if i < |keys| - 1 {
      SameKeySameRow(history, n, keys[..|keys| - 1], i);
    } else if |keys| > 1 {
      SameKeySameRow(history, n, keys[..|keys| - 1], 0);
    }
  }

  lemma SnapshotIsNewestFirst(history: seq<HistoryRow>, n: nat, account: Id, filter: Filter, i: nat, j: nat)
    requires n <= |history| && i < j < |Snapshot(history, n, account, filter)|
    ensures Newer(Snapshot(history, n, account, filter)[i], Snapshot(history, n, account, filter)[j])
  {
    var q := Order(history, n, account, filter);
    RowsOfKeys(history, n, account, filter, q);
    assert Below(q[i], q[j]);
  }

  lemma KeyIsInOrder(history: seq<HistoryRow>, n: nat, account: Id, filter: Filter, i: nat) returns (j: nat)
    requires n <= |history| && InSnapshot(history, n, account, filter, i)
    ensures var q := Order(history, n, account, filter);
            j < |q| && q[j] == SortKey(history[i]) && RowAt(history, n, q[j]) == Some(history[i])
  {
    var q, key := Order(history, n, account, filter), SortKey(history[i]);
    assert key in SnapshotKeys(history, n, account, filter);
    assert key in q;
    j :| 0 <= j < |q| && q[j] == key;
  }

  lemma OrderHasRows(history: seq<HistoryRow>, n: nat, account: Id, filter: Filter)
    requires n <= |history|
    ensures forall k | k in Order(history, n, account, filter) :: RowAt(history, n, k).Some?
  {
    forall k | k in Order(history, n, account, filter)
      ensures RowAt(history, n, k).Some?
    {
      KeysHaveRows(history, n, account, filter, k);
    }
  }

  lemma SnapshotHas(history: seq<HistoryRow>, n: nat, account: Id, filter: Filter, i: nat)
    requires n <= |history| && InSnapshot(history, n, account, filter, i)
    ensures history[i] in Snapshot(history, n, account, filter)
  {
    var q := Order(history, n, account, filter);
    OrderHasRows(history, n, account, filter);
    var j := KeyIsInOrder(history, n, account, filter, i);
    SameKeySameRow(history, n, q, j);
    assert RowsAt(history, n, q)[j] == history[i];
  }

  lemma {:induction false} RowCount(history: seq<HistoryRow>, n: nat, keys: seq<Key>)
    requires n <= |history|
    ensures |RowsAt(history, n, keys)| <= |keys|
  {
    if keys != [] {
      RowCount(history, n, keys[..|keys| - 1]);
    }
  }

  lemma KeyedRow(history: seq<HistoryRow>, n: nat, account: Id, filter: Filter, k: Key) returns (i: nat)
    requires n <= |history| && k in SnapshotKeys(history, n, account, filter)
    ensures InSnapshot(history, n, account, filter, i) && RowAt(history, n, k) == Some(history[i])
  {
    i :| i < n && InSnapshot(history, n, account, filter, i) && SortKey(history[i]) == k;
  }

  /** Every row of a snapshot is some item's last row up to there. */
  lemma SnapshotRowsAreLatest(history: seq<HistoryRow>, n: nat, account: Id, filter: Filter, row: HistoryRow) returns (i: nat)
    requires n <= |history| && row in Snapshot(history, n, account, filter)
    ensures InSnapshot(history, n, account, filter, i) && history[i] == row
  {
    var q, rows := Order(history, n, account, filter), Snapshot(history, n, account, filter);
    OrderHasRows(history, n, account, filter);
    RowCount(history, n, q);
    var j: nat :| j < |rows| && rows[j] == row;
    SameKeySameRow(history, n, q, j);
    assert q[j] in q;
    i := KeyedRow(history, n, account, filter, q[j]);
  }

  /** The snapshot holds the last row of an item if and only if that row is the account's and matches. */
  lemma SnapshotHoldsLatestRows(history: seq<HistoryRow>, n: nat, account: Id, filter: Filter, i: nat)
    requires n <= |history| && i < n
    ensures history[i] in Snapshot(history, n, account, filter) && Latest(history, n, history[i].media) == Some(i)
            <==> InSnapshot(history, n, account, filter, i)
  {
    if InSnapshot(history, n, account, filter, i) {
      SnapshotHas(history, n, account, filter, i);
    } else if history[i] in Snapshot(history, n, account, filter) && Latest(history, n, history[i].media) == Some(i) {
      var j := SnapshotRowsAreLatest(history, n, account, filter, history[i]);
    }
  }
}
