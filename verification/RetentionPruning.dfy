/**
 * Deleting old rows in batches (`pruneByIdBatches`, src/services/retentionPruning.service.ts).
 * A table is listed in (createdAt, id) order and nobody else writes it meanwhile.
 */
module RetentionPruning {
  import opened Common
  import RefreshTokens

  datatype Row<R> = Row(id: string, data: R)

  /** Ids are unique. */
  ghost predicate Distinct<R>(rows: seq<Row<R>>) {
    forall i, k :: 0 <= i < k < |rows| ==> rows[i].id != rows[k].id
  }

  function Count<R>(rows: seq<Row<R>>, matches: R -> bool): nat {
    if rows == [] then 0 else (if matches(rows[0].data) then 1 else 0) + Count(rows[1..], matches)
  }

  /** The ids of the first n matching rows. */
  function Find<R>(rows: seq<Row<R>>, matches: R -> bool, n: nat): seq<string> {
    if rows == [] || n == 0 then []
    else if matches(rows[0].data) then [rows[0].id] + Find(rows[1..], matches, n - 1)
    else Find(rows[1..], matches, n)
  }

  /** The rows whose id is not listed. */
  function Minus<R>(rows: seq<Row<R>>, ids: seq<string>): seq<Row<R>> {
    if rows == [] then []
    else (if rows[0].id in ids then [] else [rows[0]]) + Minus(rows[1..], ids)
  }

  /** The rows that do not match. */
  function Unmatched<R>(rows: seq<Row<R>>, matches: R -> bool): seq<Row<R>> {
    if rows == [] then []
    else (if matches(rows[0].data) then [] else [rows[0]]) + Unmatched(rows[1..], matches)
  }

  /** The rows without the first n matching ones. */
  ghost function Without<R>(rows: seq<Row<R>>, matches: R -> bool, n: nat): seq<Row<R>> {
    if rows == [] || n == 0 then rows
    else if matches(rows[0].data) then Without(rows[1..], matches, n - 1)
    else [rows[0]] + Without(rows[1..], matches, n)
  }

  lemma {:induction false} FindIsListed<R>(rows: seq<Row<R>>, matches: R -> bool, n: nat)
    ensures |Find(rows, matches, n)| == Min(n, Count(rows, matches))
    ensures forall id :: id in Find(rows, matches, n) ==> exists i :: 0 <= i < |rows| && rows[i].id == id
  {
    if rows == [] || n == 0 {
    } else {
      var rest := Find(rows[1..], matches, if matches(rows[0].data) then n - 1 else n);
      FindIsListed(rows[1..], matches, if matches(rows[0].data) then n - 1 else n);
      forall id | id in rest ensures exists i :: 0 <= i < |rows| && rows[i].id == id {
        var i :| 0 <= i < |rows[1..]| && rows[1..][i].id == id;
        assert rows[i + 1].id == id;
      }
      assert rows[0].id == rows[0].id;
    }
  }

  lemma {:induction false} MinusOther<R>(rows: seq<Row<R>>, id: string, ids: seq<string>)
    requires forall i :: 0 <= i < |rows| ==> rows[i].id != id
    ensures Minus(rows, [id] + ids) == Minus(rows, ids)
  {
    if rows == [] {
    } else {
      MinusOther(rows[1..], id, ids);
    }
  }

  lemma {:induction false} MinusNothing<R>(rows: seq<Row<R>>)
    ensures Minus(rows, []) == rows
  {
    if rows == [] {
    } else {
      MinusNothing(rows[1..]);
      assert rows == [rows[0]] + rows[1..];
    }
  }

  /** Deleting the found rows by their ids takes out the first n matching rows and no other. */
  lemma {:induction false} DeleteFound<R>(rows: seq<Row<R>>, matches: R -> bool, n: nat)
    requires Distinct(rows)
    ensures Minus(rows, Find(rows, matches, n)) == Without(rows, matches, n)
  {
    if n == 0 {
      MinusNothing(rows);
    } else if rows != [] {
      if matches(rows[0].data) {
        DeleteFound(rows[1..], matches, n - 1);
        MinusOther(rows[1..], rows[0].id, Find(rows[1..], matches, n - 1));
      } else {
        FindIsListed(rows[1..], matches, n);
        DeleteFound(rows[1..], matches, n);
      }
    }
  }

  lemma {:induction false} WithoutLess<R>(rows: seq<Row<R>>, matches: R -> bool, n: nat)
    ensures |Without(rows, matches, n)| == |rows| - Min(n, Count(rows, matches))
    ensures Without(rows, matches, n) == Without(rows, matches, Min(n, Count(rows, matches)))
  {
    if rows == [] || n == 0 {
    } else {
      WithoutLess(rows[1..], matches, if matches(rows[0].data) then n - 1 else n);
      if !matches(rows[0].data) && Count(rows, matches) == 0 {
        assert rows == [rows[0]] + rows[1..];
      }
    }
  }

  lemma {:induction false} WithoutTwice<R>(rows: seq<Row<R>>, matches: R -> bool, n: nat, m: nat)
    requires n <= Count(rows, matches)
    ensures Without(Without(rows, matches, n), matches, m) == Without(rows, matches, n + m)
    ensures Count(Without(rows, matches, n), matches) == Count(rows, matches) - n
  {
    if rows == [] || n == 0 {
    } else {
      if matches(rows[0].data) {
        WithoutTwice(rows[1..], matches, n - 1, m);
      } else {
        WithoutTwice(rows[1..], matches, n, m);
        assert ([rows[0]] + Without(rows[1..], matches, n))[1..] == Without(rows[1..], matches, n);
      }
    }
  }

  lemma {:induction false} WithoutAll<R>(rows: seq<Row<R>>, matches: R -> bool)
    ensures Without(rows, matches, Count(rows, matches)) == Unmatched(rows, matches)
  {
    if rows == [] {
    } else {
      WithoutAll(rows[1..], matches);
      var n := Count(rows, matches);
      if matches(rows[0].data) {
        assert Without(rows, matches, n) == Without(rows[1..], matches, n - 1);
      } else if n > 0 {
        assert Without(rows, matches, n) == [rows[0]] + Without(rows[1..], matches, n);
      } else {
        assert Without(rows[1..], matches, 0) == rows[1..];
        assert rows == [rows[0]] + rows[1..];
      }
    }
  }

  lemma {:induction false} WithoutIsListed<R>(rows: seq<Row<R>>, matches: R -> bool, n: nat)
    requires Distinct(rows)
    ensures Distinct(Without(rows, matches, n))
    ensures forall r :: r in Without(rows, matches, n) ==> r in rows
  {
    if rows == [] || n == 0 {
    } else {
      if matches(rows[0].data) {
        WithoutIsListed(rows[1..], matches, n - 1);
      } else {
        WithoutIsListed(rows[1..], matches, n);
        var rest := Without(rows[1..], matches, n);
        forall i | 0 <= i < |rest| ensures rest[i].id != rows[0].id {
          assert rest[i] in rows[1..];
        }
      }
    }
  }

  /** One turn of the loop, seen from the table before pruning started. */
  lemma PruneTurn<R>(before: seq<Row<R>>, matches: R -> bool, deleted: nat, batchSize: nat,
                     rows: seq<Row<R>>, page: seq<string>)
    requires Distinct(before) && deleted <= Count(before, matches)
    requires rows == Without(before, matches, deleted) && page == Find(rows, matches, batchSize)
    ensures |page| == Min(batchSize, Count(before, matches) - deleted)
    ensures Minus(rows, page) == Without(before, matches, deleted + |page|)
    ensures |Minus(rows, page)| == |rows| - |page|
  {
    WithoutIsListed(before, matches, deleted);
    FindIsListed(rows, matches, batchSize);
    DeleteFound(rows, matches, batchSize);
    WithoutLess(rows, matches, batchSize);
    WithoutTwice(before, matches, deleted, |page|);
  }

  class Table<R> {
    var rows: seq<Row<R>>

    constructor (rows: seq<Row<R>>)
      ensures this.rows == rows
    {
      this.rows := rows;
    }

    /** `deleteMany({ where: { id: { in } } })` reports how many rows it removed. */
    method DeleteMany(ids: seq<string>) returns (count: int)
      modifies this
      ensures rows == Minus(old(rows), ids)
      ensures count == |old(rows)| - |rows|
    {
      count := |rows|;
      rows := Minus(rows, ids);
      count := count - |rows|;
    }

    /**
     * All matching rows go, and no other, whatever the batch size; with a batch size of 0
     * the first page is empty and nothing goes.
     */
    method PruneByIdBatches(matches: R -> bool, batchSize: nat, dryRun: bool) returns (candidates: nat, deleted: nat)
      requires Distinct(rows)
      modifies this
      ensures candidates == Count(old(rows), matches)
      ensures dryRun || batchSize == 0 ==> rows == old(rows) && deleted == 0
      ensures !dryRun && batchSize > 0 ==> rows == Unmatched(old(rows), matches) && deleted == candidates
    {
      ghost var before := rows;
      candidates := Count(rows, matches);
      deleted := 0;
      WithoutAll(before, matches);
      if dryRun || candidates == 0 {
        return;
      }
      while true
        invariant deleted <= candidates && rows == Without(before, matches, deleted)
        invariant batchSize == 0 ==> deleted == 0
        decreases candidates - deleted
      {
        var page := Find(rows, matches, batchSize);
        PruneTurn(before, matches, deleted, batchSize, rows, page);
        if |page| == 0 {
          break;
        }
        var count := DeleteMany(page);
        deleted := deleted + count;
        if count < |page| {
          break;
        }
      }
    }
  }

  // --- The refresh token and login session targets ----------------------------------------

  /** The rows list exactly the table. */
  ghost predicate Lists<R(!new)>(rows: seq<Row<R>>, table: map<string, R>) {
    forall r: Row<R> :: r in rows <==> r.id in table && table[r.id] == r.data
  }

  lemma {:induction false} UnmatchedMembers<R(!new)>(rows: seq<Row<R>>, matches: R -> bool)
    ensures forall r :: r in Unmatched(rows, matches) <==> r in rows && !matches(r.data)
  {
    if rows == [] {
    } else {
      assert rows == [rows[0]] + rows[1..];
      UnmatchedMembers(rows[1..], matches);
    }
  }

  /** Pruning the token table with the refresh token filter is the pruning step of the token families. */
  lemma PruningIsTheStep(rows: seq<Row<RefreshTokens.Token>>, t: RefreshTokens.Tables, cutoff: int, now: int)
    requires Lists(rows, t.tokens)
    ensures Lists(Unmatched(rows, (x: RefreshTokens.Token) => RefreshTokens.TokenPrunable(x, cutoff, now)),
                  RefreshTokens.PruneTokens(t, cutoff, now).tokens)
  {
    UnmatchedMembers(rows, (x: RefreshTokens.Token) => RefreshTokens.TokenPrunable(x, cutoff, now));
  }

  /** And pruning the session table with the login session filter is theirs for sessions. */
  lemma SessionPruningIsTheStep(rows: seq<Row<RefreshTokens.Session>>, t: RefreshTokens.Tables, cutoff: int, now: int)
    requires Lists(rows, t.sessions)
    ensures Lists(Unmatched(rows, (x: RefreshTokens.Session) => RefreshTokens.SessionPrunable(x, cutoff, now)),
                  RefreshTokens.PruneSessions(t, cutoff, now).sessions)
  {
    UnmatchedMembers(rows, (x: RefreshTokens.Session) => RefreshTokens.SessionPrunable(x, cutoff, now));
  }
}
