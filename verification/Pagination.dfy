/** Listing Runs page by page (api.py `_list_runs`, store.py `list_runs`). */
module Pagination {
  import opened Prelude
  import opened Order

  /** What listing looks at in a Run row. Job ids and statuses are texts, as in the database. */
  datatype Row = Row(status: string, updatedAt: real)
  type Table = map<string, Row>

  /** A position in the listing, and the content of a cursor. */
  datatype Key = Key(updatedAt: real, job: string)

  /** `a` is listed no later than `b`: newest first, then the greater job id first. */
  predicate KeyLeq(a: Key, b: Key) {
    a.updatedAt > b.updatedAt || (a.updatedAt == b.updatedAt && TextLeq(b.job, a.job))
  }

  /** The cursor condition: strictly later in the listing than `cursor`. */
  predicate After(cursor: Option<Key>, k: Key) { cursor.Some? ==> cursor.value != k && KeyLeq(cursor.value, k) }

  lemma KeyIsTotalOrder()
    ensures TotalOrder(KeyLeq)
  {
    TextIsTotalOrder();
    forall a, b ensures KeyLeq(a, b) || KeyLeq(b, a) { assert TextLeq(a.job, b.job) || TextLeq(b.job, a.job); }
    forall a, b | KeyLeq(a, b) && KeyLeq(b, a) ensures a == b { assert TextLeq(a.job, b.job) && TextLeq(b.job, a.job); }
    forall a, b, c | KeyLeq(a, b) && KeyLeq(b, c) ensures KeyLeq(a, c) {
      if a.updatedAt == b.updatedAt == c.updatedAt { assert TextLeq(c.job, b.job) && TextLeq(b.job, a.job); }
    }
  }

  /** The rows a query selects. An absent or empty status selects every Run. */
  function Selected(table: Table, status: Option<string>): set<Key> {
    set j | j in table && (status.None? || status.value == "" || table[j].status == status.value) ::
      Key(table[j].updatedAt, j)
  }

  function Matching(table: Table, status: Option<string>, cursor: Option<Key>): set<Key> {
    set k | k in Selected(table, status) && After(cursor, k)
  }

  // ---------------------------------------------------------------- the listing of a set of rows

  ghost predicate IsListing(s: seq<Key>, keys: set<Key>) { Sorted(KeyLeq, s) && multiset(s) == multiset(keys) }

  lemma {:induction false} ListingExists(keys: set<Key>)
    ensures exists s :: IsListing(s, keys)
  {
    if keys == {} {
      assert IsListing([], keys);
    } else {
      KeyIsTotalOrder();
      var k :| k in keys;
      ListingExists(keys - {k});
      var t :| IsListing(t, keys - {k});
      InsertSorts(KeyLeq, k, t);
      InsertAdds(KeyLeq, k, t);
      assert multiset(keys) == multiset(keys - {k}) + multiset{k};
      assert IsListing(Insert(KeyLeq, k, t), keys);
    }
  }

  /** The rows in (updated_at descending, job_id descending) order. */
  ghost function Listing(keys: set<Key>): (s: seq<Key>)
    ensures IsListing(s, keys)
  {
    ListingExists(keys);
    var s :| IsListing(s, keys);
    s
  }

  lemma ListingIs(s: seq<Key>, keys: set<Key>)
    requires IsListing(s, keys)
    ensures s == Listing(keys)
  {
    KeyIsTotalOrder();
    SortedIsUnique(KeyLeq, s, Listing(keys));
  }

  lemma CountOfTwo(s: seq<Key>, i: nat, l: nat)
    requires i < l < |s|
    ensures s[i] == s[l] ==> multiset(s)[s[i]] >= 2
  {
    assert s == s[..l] + [s[l]] + s[l + 1..];
    assert s[..l][i] in multiset(s[..l]);
  }

  /** A listing holds each key once, and later entries are strictly after earlier ones. */
  lemma ListingIsStrict(s: seq<Key>, keys: set<Key>)
    requires IsListing(s, keys)
    ensures forall k :: k in s <==> k in keys
    ensures forall i, l :: 0 <= i < l < |s| ==> After(Some(s[i]), s[l])
    ensures |s| == |keys|
  {
    forall k ensures k in s <==> k in keys { assert k in multiset(s) <==> k in multiset(keys); }
    forall i, l | 0 <= i < l < |s| ensures s[i] != s[l] {
      CountOfTwo(s, i, l);
      assert multiset(keys)[s[i]] <= 1;
    }
    assert |multiset(s)| == |s| && |multiset(keys)| == |keys|;
  }

  // ---------------------------------------------------------------- one query

  /** `list_runs`: the first `limit` selected rows after the cursor. */
  method ListRuns(table: Table, status: Option<string>, limit: nat, cursor: Option<Key>) returns (rows: seq<Key>)
    ensures var all := Listing(Matching(table, status, cursor));
            rows == all[..if limit < |all| then limit else |all|]
  {
    var keys := Matching(table, status, cursor);
    var rest := keys;
    rows := [];
    KeyIsTotalOrder();
    while |rows| < limit && rest != {}
      invariant |rows| <= limit && Leading(rows, rest, keys)
      decreases rest
    {
      var k := First(rest);
      FirstTaken(rows, rest, k, keys);
      rows, rest := rows + [k], rest - {k};
    }
    Completed(rows, rest, keys);
  }

  /** Sorted rows, all of them before everything left, and together with it just `keys`. */
  ghost predicate Leading(rows: seq<Key>, rest: set<Key>, keys: set<Key>) {
    && Sorted(KeyLeq, rows) && multiset(rows) + multiset(rest) == multiset(keys)
    && forall i, k :: 0 <= i < |rows| && k in rest ==> KeyLeq(rows[i], k)
  }

  lemma FirstTaken(rows: seq<Key>, rest: set<Key>, k: Key, keys: set<Key>)
    requires Leading(rows, rest, keys) && k in rest && forall i :: i in rest ==> KeyLeq(k, i)
    ensures Leading(rows + [k], rest - {k}, keys)
  {
    assert multiset(rest) == multiset(rest - {k}) + multiset{k};
    assert multiset(rows + [k]) == multiset(rows) + multiset{k};
  }

  /** Sorted rows followed by the listing of the rest, all of which comes later, are the whole listing. */
  lemma Completed(rows: seq<Key>, rest: set<Key>, keys: set<Key>)
    requires Leading(rows, rest, keys)
    ensures Listing(keys) == rows + Listing(rest) && |Listing(rest)| == |rest|
  {
    var t := Listing(rest);
    ListingIsStrict(t, rest);
    forall i, l | 0 <= i < |rows| && 0 <= l < |t| ensures KeyLeq(rows[i], t[l]) { assert t[l] in rest; }
    assert Sorted(KeyLeq, rows + t);
    ListingIs(rows + t, keys);
  }

  method First(keys: set<Key>) returns (k: Key)
    requires keys != {}
    ensures k in keys && forall i :: i in keys ==> KeyLeq(k, i)
  {
    KeyIsTotalOrder();
    k :| k in keys;
    var rest := keys - {k};
    while rest != {}
      invariant k in keys && rest <= keys
      invariant forall i :: i in keys - rest ==> KeyLeq(k, i)
      decreases rest
    {
      var i :| i in rest;
      if !KeyLeq(k, i) { k := i; }
      rest := rest - {i};
    }
  }

  // ---------------------------------------------------------------- one page

  /** The cursor parameter after decoding; `Malformed` is one that does not decode. */
  datatype CursorParam = Absent | Malformed | At(key: Key)
  {
    function Position(): Option<Key> { if At? then Some(key) else None }
  }

  datatype Response = BadRequest | Page(items: seq<Key>, next: Option<Key>)

  /**
   * The page holds the first `limit` rows after the cursor, and a next cursor exactly when more follow: its last row.
   */
  ghost predicate PageOf(r: Response, table: Table, status: Option<string>, cursor: Option<Key>, limit: nat) {
    && r.Page?
    && var all := Listing(Matching(table, status, cursor));
       if |all| <= limit then r.items == all && r.next.None?
       else r.items == all[..limit] && 0 < limit && r.next == Some(all[limit - 1])
  }

  /** One request. The limit is absent, a number, or (None) not a number; absent means 25. */
  method ListPage(table: Table, status: Option<string>, limit: Option<int>, cursor: CursorParam) returns (r: Response)
    ensures r.BadRequest? <==> limit.None? || !(1 <= limit.value <= 100) || cursor.Malformed?
    ensures !r.BadRequest? ==> PageOf(r, table, status, cursor.Position(), limit.value)
  {
    if limit.None? || !(1 <= limit.value <= 100) || cursor.Malformed? { return BadRequest; }
    var n := limit.value;
    var rows := ListRuns(table, status, n + 1, cursor.Position());
    var page := rows[..if n < |rows| then n else |rows|];
    r := Page(page, if |rows| > n then Some(page[|page| - 1]) else None);
  }

  /** Every row after the cursor is on the page or after its next cursor; the page is strictly ordered. */
  lemma PageCovers(r: Response, table: Table, status: Option<string>, cursor: Option<Key>, limit: nat)
    requires PageOf(r, table, status, cursor, limit)
    ensures forall i, l :: 0 <= i < l < |r.items| ==> After(Some(r.items[i]), r.items[l])
    ensures forall k :: k in r.items ==> k in Selected(table, status) && After(cursor, k)
    ensures forall k :: k in Matching(table, status, cursor) ==> k in r.items || (r.next.Some? && After(r.next, k))
    ensures r.next.Some? ==> |r.items| == limit && r.next.value == r.items[limit - 1]
  {
    var keys := Matching(table, status, cursor);
    var all := Listing(keys);
    ListingIsStrict(all, keys);
    forall k | k in keys ensures k in r.items || (r.next.Some? && After(r.next, k))
    {
      var i :| 0 <= i < |all| && all[i] == k;
      if r.next.Some? && i >= limit { assert After(Some(all[limit - 1]), all[i]); }
      else { assert r.items[i] == k; }
    }
    forall k | k in r.items ensures k in keys { assert k in all; }
  }

  lemma AfterTransitive(a: Key, b: Key, c: Key)
    requires After(Some(a), b) && After(Some(b), c)
    ensures After(Some(a), c)
  {
    KeyIsTotalOrder();
  }

  // ---------------------------------------------------------------- following next_cursor

  /** Strictly in listing order: in particular no entry twice. */
  ghost predicate Strict(items: seq<Key>) { forall i, l :: 0 <= i < l < |items| ==> After(Some(items[i]), items[l]) }

  /** The Run is in every one of these tables with this very row, and the query selects it. */
  ghost predicate Untouched(tables: seq<Table>, status: Option<string>, k: Key) {
    forall p :: 0 <= p < |tables| ==> k in Selected(tables[p], status)
  }

  lemma PageAppended(items: seq<Key>, page: seq<Key>)
    requires Strict(items) && Strict(page)
    requires items != [] ==> forall k :: k in page ==> After(Some(items[|items| - 1]), k)
    ensures Strict(items + page)
  {
    forall i, l | 0 <= i < |items| && 0 <= l < |page| ensures After(Some(items[i]), page[l]) {
      assert page[l] in page;
      if i < |items| - 1 { AfterTransitive(items[i], items[|items| - 1], page[l]); }
    }
  }

  /** Each entry is a selected row of the table its page was answered from; pages come in order. */
  ghost predicate Answered(items: seq<Key>, origin: seq<nat>, tables: seq<Table>, used: nat, status: Option<string>) {
    && |origin| == |items| && used <= |tables|
    && (forall i :: 0 <= i < |items| ==> origin[i] < used && items[i] in Selected(tables[origin[i]], status))
    && (forall i, l :: 0 <= i <= l < |items| ==> origin[i] <= origin[l])
  }

  lemma AnsweredMore(items: seq<Key>, origin: seq<nat>, tables: seq<Table>, used: nat, status: Option<string>,
                     page: seq<Key>)
    requires Answered(items, origin, tables, used, status) && used < |tables|
    requires forall k :: k in page ==> k in Selected(tables[used], status)
    ensures Answered(items + page, origin + seq(|page|, _ => used), tables, used + 1, status)
  {
  }

  /** Every untouched Run has been returned, or is still to come after the cursor. */
  ghost predicate Covered(items: seq<Key>, next: Option<Key>, complete: bool, tables: seq<Table>, used: nat,
                          status: Option<string>)
    requires used <= |tables|
  {
    forall k :: Untouched(tables[..used], status, k) ==> k in items || (!complete && After(next, k))
  }

  lemma CoveredMore(items: seq<Key>, cursor: Option<Key>, tables: seq<Table>, used: nat, status: Option<string>,
                    r: Response)
    requires used < |tables| && Covered(items, cursor, false, tables, used, status) && r.Page?
    requires forall k :: k in Matching(tables[used], status, cursor) ==>
      k in r.items || (r.next.Some? && After(r.next, k))
    ensures Covered(items + r.items, r.next, r.next.None?, tables, used + 1, status)
  {
    forall k | Untouched(tables[..used + 1], status, k)
      ensures k in items + r.items || (r.next.Some? && After(r.next, k))
    {
      assert tables[..used + 1][used] == tables[used];
      assert Untouched(tables[..used], status, k) by {
        forall p | 0 <= p < used
          ensures k in Selected(tables[..used][p], status)
        {
          assert tables[..used + 1][p] == tables[p];
        }
      }
    }
  }

  /**
   * A walk whose i-th page is answered from `tables[i]`: others may update Runs between pages. The result is strictly
   * in listing order, each entry is the row of the page it came from, and a completed walk returns every Run that was
   * untouched throughout (exactly once, the order being strict).
   */
  method Walk(tables: seq<Table>, status: Option<string>, limit: int)
    returns (items: seq<Key>, complete: bool, ghost origin: seq<nat>, ghost used: nat)
    requires 1 <= limit <= 100
    ensures Strict(items) && Answered(items, origin, tables, used, status)
    ensures complete ==> 0 < used && forall k :: Untouched(tables[..used], status, k) ==> k in items
    ensures !complete ==> used == |tables| && |items| >= used
  {
    var cursor := None;
    items, complete, origin, used := [], false, [], 0;
    var i := 0;
    while i < |tables| && !complete
      invariant i == used <= |tables| && Strict(items) && Answered(items, origin, tables, used, status)
      invariant Covered(items, cursor, complete, tables, used, status)
      invariant complete ==> 0 < used
      invariant !complete ==> |items| >= i && cursor == if i == 0 then None else Some(items[|items| - 1])
      invariant i == 0 ==> items == []
      decreases |tables| - i, !complete
    {
      var r := ListPage(tables[i], status, Some(limit), if cursor.Some? then At(cursor.value) else Absent);
      PageCovers(r, tables[i], status, cursor, limit);
      PageAppended(items, r.items);
      AnsweredMore(items, origin, tables, used, status, r.items);
      CoveredMore(items, cursor, tables, used, status, r);
      items, origin := items + r.items, origin + seq(|r.items|, _ => i);
      cursor, complete := r.next, r.next.None?;
      i, used := i + 1, used + 1;
    }
  }

  /** The clock only advances: between pages no Run's `updated_at` goes back. */
  ghost predicate UpdatedForward(tables: seq<Table>) {
    forall p, q, j :: 0 <= p <= q < |tables| && j in tables[p] && j in tables[q] ==>
      tables[p][j].updatedAt <= tables[q][j].updatedAt
  }

  lemma SameRunMovesForward(items: seq<Key>, origin: seq<nat>, tables: seq<Table>, used: nat, status: Option<string>,
                            i: nat, l: nat)
    requires Answered(items, origin, tables, used, status) && UpdatedForward(tables) && i < l < |items|
    ensures items[i].job == items[l].job ==> items[i].updatedAt <= items[l].updatedAt
  {
    assert items[i] in Selected(tables[origin[i]], status) && items[l] in Selected(tables[origin[l]], status);
  }

  /** However Runs are updated during a walk, no Run is returned twice. */
  lemma NoRunTwice(items: seq<Key>, origin: seq<nat>, tables: seq<Table>, used: nat, status: Option<string>, i: nat,
                   l: nat)
    requires Strict(items) && Answered(items, origin, tables, used, status) && UpdatedForward(tables) && i < l < |items|
    ensures items[i].job != items[l].job
  {
    SameRunMovesForward(items, origin, tables, used, status, i, l);
    assert After(Some(items[i]), items[l]);
  }

  lemma {:induction false} StrictHasNoRepeats(items: seq<Key>, keys: set<Key>)
    requires Strict(items) && forall k :: k in items ==> k in keys
    ensures Sorted(KeyLeq, items) && |items| <= |keys|
    ensures |items| == |keys| || (forall k :: k in keys ==> k in items) ==> multiset(items) == multiset(keys)
    decreases |items|
  {
    if items == [] {
      assert keys != {} ==> exists k :: k in keys;
    } else {
      var k := items[0];
      forall i | 0 < i < |items| ensures items[i] != k { assert After(Some(items[0]), items[i]); }
      StrictHasNoRepeats(items[1..], keys - {k});
      assert items == [k] + items[1..];
      assert multiset(keys) == multiset(keys - {k}) + multiset{k};
    }
  }

  /**
   * On a fixed store, following `next_cursor` to the end terminates and concatenates to exactly the selected Runs, in
   * order.
   */
  method WalkFixed(table: Table, status: Option<string>, limit: int) returns (items: seq<Key>)
    requires 1 <= limit <= 100
    ensures items == Listing(Selected(table, status))
  {
    var tables := seq(|table| + 1, _ => table);
    var complete;
    ghost var origin, used;
    items, complete, origin, used := Walk(tables, status, limit);
    ghost var keys := Selected(table, status);
    forall k | k in items ensures k in keys { }
    StrictHasNoRepeats(items, keys);
    SelectedCount(table, status);
    assert complete;
    forall k | k in keys ensures k in items { assert Untouched(tables[..used], status, k); }
    ListingIs(items, keys);
  }

  /** A query selects no more rows than there are. */
  lemma SelectedCount(table: Table, status: Option<string>)
    ensures |Selected(table, status)| <= |table|
  {
    var jobs := set k | k in Selected(table, status) :: k.job;
    JobsOf(Selected(table, status), jobs);
    assert jobs <= table.Keys;
    SubsetCount(jobs, table.Keys);
  }

  lemma {:induction false} JobsOf(keys: set<Key>, jobs: set<string>)
    requires jobs == set k | k in keys :: k.job
    requires forall a, b :: a in keys && b in keys && a.job == b.job ==> a == b
    ensures |keys| == |jobs|
    decreases keys
  {
    if keys != {} {
      var k :| k in keys;
      JobsOf(keys - {k}, jobs - {k.job});
    }
  }

}
