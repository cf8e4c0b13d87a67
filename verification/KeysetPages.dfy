/**
 * Keyset pagination in descending (createdAt, id) order (src/lib/pagination.ts and the
 * listings of src/modules/admin/admin.service.ts).  Between two pages the table may change
 * in any way; at every moment it is listed in its index order.
 */
module KeysetPages {
  import opened Common

  /** Ids are ordered as the database collates them. */
  datatype Key = Key(createdAt: int, id: int)

  datatype Row<D> = Row(key: Key, data: D)

  predicate Below(a: Key, b: Key) {
    a.createdAt < b.createdAt || (a.createdAt == b.createdAt && a.id < b.id)
  }

  /** The order is total: by time, and among rows of one time by id. */
  lemma Ordered(a: Key, b: Key, c: Key)
    ensures a.createdAt < b.createdAt ==> Below(a, b)
    ensures a.createdAt == b.createdAt ==> (Below(a, b) <==> a.id < b.id)
    ensures a == b || Below(a, b) || Below(b, a)
    ensures !(Below(a, b) && Below(b, a)) && (Below(a, b) && Below(b, c) ==> Below(a, c))
  {}

  ghost predicate Descending<D>(rows: seq<Row<D>>) {
    forall i, k :: 0 <= i < k < |rows| ==> Below(rows[k].key, rows[i].key)
  }

  /** `encode` writes a cursor; `decode` is None where the text is refused. */
  datatype Codec = Codec(encode: Key -> string, decode: string -> Option<Key>)

  ghost predicate Faithful(c: Codec) {
    forall k :: c.decode(c.encode(k)) == Some(k) && c.encode(k) != ""
  }

  function ParseCursorLimit(limit: Option<int>, defaultLimit: int): (n: nat)
    ensures 1 <= n <= 100
    ensures limit == None || limit == Some(0) ==> n == Min(100, Max(1, defaultLimit))
    ensures limit.Some? && limit.value < 0 ==> n == 1
    ensures limit.Some? && limit.value > 100 ==> n == 100
    ensures limit.Some? && 1 <= limit.value <= 100 ==> n == limit.value
  {
    Min(100, Max(1, if limit == None || limit == Some(0) then defaultLimit else limit.value))
  }

  /** The `where` clause: the listing's own filter and, with a cursor, only rows below it. */
  predicate Selects<D>(matches: D -> bool, cursor: Option<Key>, r: Row<D>) {
    matches(r.data) && (cursor.Some? ==> Below(r.key, cursor.value))
  }

  function Select<D>(rows: seq<Row<D>>, matches: D -> bool, cursor: Option<Key>): seq<Row<D>> {
    if rows == [] then []
    else (if Selects(matches, cursor, rows[0]) then [rows[0]] else []) + Select(rows[1..], matches, cursor)
  }

  datatype Page<D> = Page(items: seq<Row<D>>, nextCursor: Option<string>, hasNextPage: bool)

  /** The page made from the first n + 1 selected rows. */
  function PageOf<D>(c: Codec, found: seq<Row<D>>, n: nat): Page<D>
    requires n >= 1
  {
    var taken := if |found| > n + 1 then found[..n + 1] else found;
    var hasNextPage := |taken| > n;
    var items := if hasNextPage then taken[..|taken| - 1] else taken;
    Page(items, if hasNextPage then Some(c.encode(items[|items| - 1].key)) else None, hasNextPage)
  }

  /** One page; None is the validation error for a cursor that does not decode. */
  function List<D>(c: Codec, rows: seq<Row<D>>, matches: D -> bool, cursor: string,
                   limit: Option<int>): Option<Page<D>> {
    if cursor != "" && c.decode(cursor) == None then None
    else Some(PageOf(c, Select(rows, matches, if cursor != "" then c.decode(cursor) else None), LimitOf(limit)))
  }

  function OrElseSome(limit: Option<int>, fallback: int): Option<int> { if limit.Some? then limit else Some(fallback) }

  function LimitOf(limit: Option<int>): (n: nat)
    ensures n == if limit == None || limit == Some(0) then 50
                 else if limit.value < 1 then 1
                 else if limit.value > 100 then 100
                 else limit.value
  {
    ParseCursorLimit(OrElseSome(limit, 50), 50)
  }

  // --- One page -------------------------------------------------------------------------

  lemma {:induction false} SelectMembers<D(!new)>(rows: seq<Row<D>>, matches: D -> bool, cursor: Option<Key>)
    ensures forall r :: r in Select(rows, matches, cursor) <==> r in rows && Selects(matches, cursor, r)
  {
    if rows == [] {
    } else {
      assert rows == [rows[0]] + rows[1..];
      SelectMembers(rows[1..], matches, cursor);
    }
  }

  lemma {:induction false} SelectDescends<D(!new)>(rows: seq<Row<D>>, matches: D -> bool, cursor: Option<Key>)
    requires Descending(rows)
    ensures Descending(Select(rows, matches, cursor))
  {
    if rows == [] {
    } else {
      SelectDescends(rows[1..], matches, cursor);
      SelectMembers(rows[1..], matches, cursor);
      var rest := Select(rows[1..], matches, cursor);
      forall i | 0 <= i < |rest| ensures Below(rest[i].key, rows[0].key) {
        assert rest[i] in rest;
      }
    }
  }

  lemma PageOfIsPrefix<D>(c: Codec, found: seq<Row<D>>, n: nat)
    requires n >= 1
    ensures PageOf(c, found, n)
         == if |found| > n then Page(found[..n], Some(c.encode(found[n - 1].key)), true) else Page(found, None, false)
  {
    if |found| > n {
      assert found[..n + 1][..n] == found[..n];
    }
  }

  /** A page is the start of the selection; with a next cursor it is full, and the cursor is its last row. */
  lemma PageIsPrefix<D(!new)>(c: Codec, rows: seq<Row<D>>, matches: D -> bool, cursor: Option<Key>, limit: Option<int>)
    requires Faithful(c)
    ensures var found, n := Select(rows, matches, cursor), LimitOf(limit);
            var page := List(c, rows, matches, TextOf(c, cursor), limit);
            && page.Some?
            && (page.value.hasNextPage <==> |found| > n)
            && page.value.items == (if |found| > n then found[..n] else found)
            && page.value.nextCursor == (if |found| > n then Some(TextOf(c, Some(found[n - 1].key))) else None)
  {
    PageOfIsPrefix(c, Select(rows, matches, cursor), LimitOf(limit));
  }

  function TextOf(c: Codec, cursor: Option<Key>): string { if cursor.Some? then c.encode(cursor.value) else "" }

  /** A request is refused exactly for a cursor that does not decode; without a cursor the listing starts at its top. */
  lemma CursorRefused<D>(c: Codec, rows: seq<Row<D>>, matches: D -> bool, cursor: string, limit: Option<int>)
    ensures List(c, rows, matches, cursor, limit) == None <==> cursor != "" && c.decode(cursor) == None
    ensures cursor == "" ==>
              List(c, rows, matches, cursor, limit) == Some(PageOf(c, Select(rows, matches, None), LimitOf(limit)))
  {}

  // --- Walking ----------------------------------------------------------------------------

  /** The table and the limit at the time of one request. */
  datatype Visit<D> = Visit(rows: seq<Row<D>>, limit: Option<int>)

  datatype Walked<D> = Walked(items: seq<Row<D>>, ended: bool, failed: bool)

  /** Following `nextCursor` through the visits; `ended` once it was null. */
  function Walk<D>(c: Codec, visits: seq<Visit<D>>, matches: D -> bool, cursor: string): Walked<D>
    decreases |visits|
  {
    if visits == [] then Walked([], false, false)
    else
      match List(c, visits[0].rows, matches, cursor, visits[0].limit)
      case None => Walked([], false, true)
      case Some(page) =>
        if page.nextCursor == None then Walked(page.items, true, false)
        else
          var rest := Walk(c, visits[1..], matches, page.nextCursor.value);
          Walked(page.items + rest.items, rest.ended, rest.failed)
  }

  /** The walk in terms of the selection its first request makes. */
  lemma WalkStep<D(!new)>(c: Codec, visits: seq<Visit<D>>, matches: D -> bool, cursor: Option<Key>)
    requires Faithful(c) && visits != []
    ensures var found, n := Select(visits[0].rows, matches, cursor), LimitOf(visits[0].limit);
            Walk(c, visits, matches, TextOf(c, cursor))
            == if |found| <= n then Walked(found, true, false)
               else var rest := Walk(c, visits[1..], matches, TextOf(c, Some(found[n - 1].key)));
                    Walked(found[..n] + rest.items, rest.ended, rest.failed)
  {
    PageIsPrefix(c, visits[0].rows, matches, cursor, visits[0].limit);
  }

  ghost predicate AllDescending<D>(visits: seq<Visit<D>>) {
    forall i :: 0 <= i < |visits| ==> Descending(visits[i].rows)
  }

  ghost predicate AllBelow<D>(rows: seq<Row<D>>, cursor: Option<Key>) {
    cursor.Some? ==> forall i :: 0 <= i < |rows| ==> Below(rows[i].key, cursor.value)
  }

  lemma SelectAllBelow<D(!new)>(rows: seq<Row<D>>, matches: D -> bool, cursor: Option<Key>)
    ensures AllBelow(Select(rows, matches, cursor), cursor)
  {
    SelectMembers(rows, matches, cursor);
    var found := Select(rows, matches, cursor);
    assert forall i :: 0 <= i < |found| ==> found[i] in found;
  }

  lemma DescendingJoin<D(!new)>(page: seq<Row<D>>, rest: seq<Row<D>>)
    requires Descending(page) && page != [] && Descending(rest) && AllBelow(rest, Some(page[|page| - 1].key))
    ensures Descending(page + rest)
  {
    var all, last := page + rest, page[|page| - 1].key;
    forall i, k | 0 <= i < k < |all| ensures Below(all[k].key, all[i].key) {
      if i < |page| <= k {
        assert i == |page| - 1 || Below(last, page[i].key);
      }
    }
  }

  /** The pages of a walk, one after another, never go back: no row is returned twice. */
  lemma {:induction false} WalkDescends<D(!new)>(c: Codec, visits: seq<Visit<D>>, matches: D -> bool,
                                                 cursor: Option<Key>)
    requires Faithful(c) && AllDescending(visits)
    ensures var w := Walk(c, visits, matches, TextOf(c, cursor));
            !w.failed && Descending(w.items) && AllBelow(w.items, cursor)
    decreases |visits|
  {
    if visits == [] {
    } else {
      var rows, n := visits[0].rows, LimitOf(visits[0].limit);
      var found := Select(rows, matches, cursor);
      WalkStep(c, visits, matches, cursor);
      SelectDescends(rows, matches, cursor);
      SelectAllBelow(rows, matches, cursor);
      if |found| > n {
        var next := Some(found[n - 1].key);
        WalkDescends(c, visits[1..], matches, next);
        DescendingJoin(found[..n], Walk(c, visits[1..], matches, TextOf(c, next)).items);
      }
    }
  }

  /** The table has a matching row with this key. */
  ghost predicate Holds<D>(rows: seq<Row<D>>, matches: D -> bool, key: Key) {
    exists i :: 0 <= i < |rows| && rows[i].key == key && matches(rows[i].data)
  }

  ghost predicate HeldThroughout<D>(visits: seq<Visit<D>>, matches: D -> bool, key: Key) {
    forall i :: 0 <= i < |visits| ==> Holds(visits[i].rows, matches, key)
  }

  ghost predicate Returned<D>(items: seq<Row<D>>, key: Key) {
    exists i :: 0 <= i < |items| && items[i].key == key
  }

  lemma HeldIsSelected<D(!new)>(rows: seq<Row<D>>, matches: D -> bool, cursor: Option<Key>, key: Key)
    requires Holds(rows, matches, key) && (cursor.Some? ==> Below(key, cursor.value))
    ensures Returned(Select(rows, matches, cursor), key)
  {
    SelectMembers(rows, matches, cursor);
    var i :| 0 <= i < |rows| && rows[i].key == key && matches(rows[i].data);
    assert rows[i] in Select(rows, matches, cursor);
  }

  /** A walk that ended has returned every row that was there, and matched, all along. */
  lemma {:induction false} WalkComplete<D(!new)>(c: Codec, visits: seq<Visit<D>>, matches: D -> bool,
                                               cursor: Option<Key>, key: Key)
    requires Faithful(c) && AllDescending(visits) && HeldThroughout(visits, matches, key)
    requires cursor.Some? ==> Below(key, cursor.value)
    requires Walk(c, visits, matches, TextOf(c, cursor)).ended
    ensures Returned(Walk(c, visits, matches, TextOf(c, cursor)).items, key)
    decreases |visits|
  {
    var rows, n := visits[0].rows, LimitOf(visits[0].limit);
    var found := Select(rows, matches, cursor);
    WalkStep(c, visits, matches, cursor);
    assert Returned(found, key) by {
      HeldIsSelected(rows, matches, cursor, key);
    }
    if |found| > n {
      var next := Some(found[n - 1].key);
      if Below(key, next.value) {
        WalkComplete(c, visits[1..], matches, next, key);
      }
      SelectDescends(rows, matches, cursor);
      ReturnedLater(found, n, Walk(c, visits[1..], matches, TextOf(c, next)).items, key);
    }
  }

  /** A selected key is on the page or below its last row. */
  lemma ReturnedLater<D>(found: seq<Row<D>>, n: nat, rest: seq<Row<D>>, key: Key)
    requires Descending(found) && 1 <= n < |found| && Returned(found, key)
    requires Below(key, found[n - 1].key) ==> Returned(rest, key)
    ensures Returned(found[..n] + rest, key)
  {
    var i :| 0 <= i < |found| && found[i].key == key;
    if i < n {
      assert (found[..n] + rest)[i].key == key;
    } else {
      assert Below(found[i].key, found[n - 1].key);
      var k :| 0 <= k < |rest| && rest[k].key == key;
      assert (found[..n] + rest)[n + k].key == key;
    }
  }

  /** And once only. */
  lemma ReturnedOnce<D(!new)>(c: Codec, visits: seq<Visit<D>>, matches: D -> bool, key: Key)
    requires Faithful(c) && AllDescending(visits) && HeldThroughout(visits, matches, key)
    requires Walk(c, visits, matches, "").ended
    ensures var items := Walk(c, visits, matches, "").items;
            exists i :: 0 <= i < |items| && items[i].key == key
                        && forall k :: 0 <= k < |items| && items[k].key == key ==> k == i
  {
    WalkDescends(c, visits, matches, None);
    WalkComplete(c, visits, matches, None, key);
    var items := Walk(c, visits, matches, "").items;
    var i :| 0 <= i < |items| && items[i].key == key;
    forall k | 0 <= k < |items| && items[k].key == key ensures k == i {
      assert !Below(items[i].key, items[k].key) && !Below(items[k].key, items[i].key);
    }
  }

  /** Every row returned matched, and was in the table at the time of some request. */
  lemma {:induction false} NothingInvented<D(!new)>(c: Codec, visits: seq<Visit<D>>, matches: D -> bool,
                                                  cursor: Option<Key>, r: Row<D>)
    requires Faithful(c) && r in Walk(c, visits, matches, TextOf(c, cursor)).items
    ensures matches(r.data) && exists i :: 0 <= i < |visits| && r in visits[i].rows
    decreases |visits|
  {
    var rows, n := visits[0].rows, LimitOf(visits[0].limit);
    var found := Select(rows, matches, cursor);
    WalkStep(c, visits, matches, cursor);
    SelectMembers(rows, matches, cursor);
    if r in found {
      assert r in visits[0].rows;
    } else {
      NothingInvented(c, visits[1..], matches, Some(found[n - 1].key), r);
      var i :| 0 <= i < |visits[1..]| && r in visits[1..][i].rows;
      assert r in visits[i + 1].rows;
    }
  }

  // --- A fixed table -------------------------------------------------------------------------

  lemma SelectCons<D>(r: Row<D>, rest: seq<Row<D>>, matches: D -> bool, cursor: Option<Key>)
    ensures Select([r] + rest, matches, cursor)
         == (if Selects(matches, cursor, r) then [r] else []) + Select(rest, matches, cursor)
  {
    assert ([r] + rest)[1..] == rest;
  }

  lemma {:induction false} SelectAgain<D>(rows: seq<Row<D>>, matches: D -> bool, cursor: Option<Key>, next: Key)
    requires cursor.Some? ==> Below(next, cursor.value)
    ensures Select(rows, matches, Some(next)) == Select(Select(rows, matches, cursor), matches, Some(next))
  {
    if rows == [] {
    } else {
      var r, rest := rows[0], Select(rows[1..], matches, cursor);
      SelectAgain(rows[1..], matches, cursor, next);
      if Selects(matches, cursor, r) {
        SelectCons(r, rest, matches, Some(next));
      } else {
        assert !Selects(matches, Some(next), r);
        assert [] + rest == rest;
      }
    }
  }

  lemma {:induction false} SelectAll<D>(rows: seq<Row<D>>, matches: D -> bool, cursor: Option<Key>)
    requires forall i :: 0 <= i < |rows| ==> Selects(matches, cursor, rows[i])
    ensures Select(rows, matches, cursor) == rows
  {
    if rows == [] {
    } else {
      SelectAll(rows[1..], matches, cursor);
      assert rows == [rows[0]] + rows[1..];
    }
  }

  lemma {:induction false} SelectNone<D>(skipped: seq<Row<D>>, rest: seq<Row<D>>, matches: D -> bool,
                                        cursor: Option<Key>)
    requires forall i :: 0 <= i < |skipped| ==> !Selects(matches, cursor, skipped[i])
    ensures Select(skipped + rest, matches, cursor) == Select(rest, matches, cursor)
  {
    if skipped == [] {
      assert skipped + rest == rest;
    } else {
      SelectNone(skipped[1..], rest, matches, cursor);
      assert skipped + rest == [skipped[0]] + (skipped[1..] + rest);
      SelectCons(skipped[0], skipped[1..] + rest, matches, cursor);
    }
  }

  lemma SelectRest<D>(skipped: seq<Row<D>>, rest: seq<Row<D>>, matches: D -> bool, last: Key)
    requires forall i :: 0 <= i < |skipped| ==> !Below(skipped[i].key, last)
    requires forall i :: 0 <= i < |rest| ==> Below(rest[i].key, last) && matches(rest[i].data)
    ensures Select(skipped + rest, matches, Some(last)) == rest
  {
    SelectNone(skipped, rest, matches, Some(last));
    SelectAll(rest, matches, Some(last));
  }

  lemma SplitAt<D>(found: seq<Row<D>>, n: nat)
    requires Descending(found) && 1 <= n <= |found|
    ensures found == found[..n] + found[n..]
    ensures forall i :: 0 <= i < n ==> !Below(found[..n][i].key, found[n - 1].key)
    ensures forall i :: 0 <= i < |found| - n ==> Below(found[n..][i].key, found[n - 1].key)
  {
    forall i | 0 <= i < n ensures !Below(found[i].key, found[n - 1].key) {
      assert i == n - 1 || Below(found[n - 1].key, found[i].key);
    }
  }

  /** The rest of the listing of a table that did not change is what the next page starts from. */
  lemma NextStartsAfter<D(!new)>(rows: seq<Row<D>>, matches: D -> bool, cursor: Option<Key>, n: nat)
    requires Descending(rows) && 1 <= n <= |Select(rows, matches, cursor)|
    ensures var found := Select(rows, matches, cursor);
            Select(rows, matches, Some(found[n - 1].key)) == found[n..]
  {
    var found := Select(rows, matches, cursor);
    SelectDescends(rows, matches, cursor);
    SelectMembers(rows, matches, cursor);
    assert found[n - 1] in found;
    SelectAgain(rows, matches, cursor, found[n - 1].key);
    SplitAt(found, n);
    assert forall i :: 0 <= i < |found| - n ==> found[n..][i] in found;
    SelectRest(found[..n], found[n..], matches, found[n - 1].key);
  }

  /** How many pages of size n a listing of `count` rows has. */
  function PagesNeeded(count: nat, n: nat): (pages: nat)
    requires n >= 1
    ensures pages >= 1
  {
    if count <= n then 1 else 1 + PagesNeeded(count - n, n)
  }

  /** That many pages hold the rows, and one page fewer does not. */
  lemma {:induction false} PagesNeededIsCeiling(count: nat, n: nat)
    requires n >= 1
    ensures var pages := PagesNeeded(count, n); count <= pages * n && (pages > 1 ==> (pages - 1) * n < count)
  {
    if count > n {
      PagesNeededIsCeiling(count - n, n);
      var fewer := PagesNeeded(count - n, n);
      assert (fewer + 1) * n == fewer * n + n;
      assert fewer * n == (fewer - 1) * n + n;
    }
  }

  /** The walk ends within the visits exactly when they are as many as needed, and then it is the listing. */
  ghost predicate Finishes<D>(w: Walked<D>, found: seq<Row<D>>, n: nat, visits: nat)
    requires n >= 1
  {
    && (w.ended <==> visits >= PagesNeeded(|found|, n))
    && (w.ended ==> w.items == found)
  }

  lemma OnePageMore<D>(w: Walked<D>, found: seq<Row<D>>, rest: Walked<D>, others: seq<Row<D>>, n: nat, visits: nat)
    requires n >= 1 && |found| > n && others == found[n..] && Finishes(rest, others, n, visits)
    requires w == Walked(found[..n] + rest.items, rest.ended, rest.failed)
    ensures Finishes(w, found, n, visits + 1)
  {
    assert found[..n] + others == found;
  }

  /** Every request finds the same rows and asks for the same limit. */
  ghost predicate Unchanged<D>(visits: seq<Visit<D>>, rows: seq<Row<D>>, limit: Option<int>) {
    forall i :: 0 <= i < |visits| ==> visits[i] == Visit(rows, limit)
  }

  /** On a fixed table the walk ends after exactly the pages needed, and is then the whole listing in order. */
  lemma {:induction false} FixedTable<D(!new)>(c: Codec, visits: seq<Visit<D>>, rows: seq<Row<D>>, matches: D -> bool,
                                               cursor: Option<Key>, limit: Option<int>)
    requires Faithful(c) && Descending(rows) && Unchanged(visits, rows, limit)
    ensures Finishes(Walk(c, visits, matches, TextOf(c, cursor)),
                     Select(rows, matches, cursor), LimitOf(limit), |visits|)
    decreases |visits|
  {
    var n, found := LimitOf(limit), Select(rows, matches, cursor);
    if visits == [] {
    } else if |found| <= n {
      FixedLast(c, visits, rows, matches, cursor, limit);
    } else {
      var next := Some(found[n - 1].key);
      NextStartsAfter(rows, matches, cursor, n);
      FixedTable(c, visits[1..], rows, matches, next, limit);
      FixedMore(c, visits, matches, cursor, found, Select(rows, matches, next), n, TextOf(c, next));
    }
  }

  lemma FixedLast<D(!new)>(c: Codec, visits: seq<Visit<D>>, rows: seq<Row<D>>, matches: D -> bool,
                           cursor: Option<Key>, limit: Option<int>)
    requires Faithful(c) && visits != [] && visits[0] == Visit(rows, limit)
    requires |Select(rows, matches, cursor)| <= LimitOf(limit)
    ensures Finishes(Walk(c, visits, matches, TextOf(c, cursor)),
                     Select(rows, matches, cursor), LimitOf(limit), |visits|)
  {
    WalkStep(c, visits, matches, cursor);
  }

  lemma FixedMore<D(!new)>(c: Codec, visits: seq<Visit<D>>, matches: D -> bool, cursor: Option<Key>,
                           found: seq<Row<D>>, others: seq<Row<D>>, n: nat, next: string)
    requires Faithful(c) && visits != [] && n == LimitOf(visits[0].limit)
    requires found == Select(visits[0].rows, matches, cursor) && |found| > n && others == found[n..]
    requires next == TextOf(c, Some(found[n - 1].key))
    requires Finishes(Walk(c, visits[1..], matches, next), others, n, |visits| - 1)
    ensures Finishes(Walk(c, visits, matches, TextOf(c, cursor)), found, n, |visits|)
  {
    var w, rest := Walk(c, visits, matches, TextOf(c, cursor)), Walk(c, visits[1..], matches, next);
    assert w == Walked(found[..n] + rest.items, rest.ended, rest.failed) by {
      WalkStep(c, visits, matches, cursor);
    }
    OnePageMore(w, found, rest, others, n, |visits| - 1);
  }
}
