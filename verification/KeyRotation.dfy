/**
 * Re-encryption of provider credentials (src/services/keyRotation.service.ts): a loop
 * over the table in batches, following the id of the last row seen.
 */
module KeyRotation {
  import opened Common
  import opened CredentialEncryption

  /** `version` is the key version column, which need not agree with the payload's own. */
  datatype Row = Row(id: int, secrets: Payload, version: Option<int>)

  datatype Summary = Summary(activeVersion: int, scanned: nat, candidates: nat, updated: nat, failed: nat, dryRun: bool)

  /** How the environment behaves: which row updates fail, and the nonce drawn for a row. */
  datatype World = World(writeFails: int -> bool, nonce: int -> string)

  datatype Fate = Current | Updated | Failed | Spared

  predicate IsCurrent(cfg: Config, row: Row) { OrElse(row.version, 0) == cfg.activeVersion }

  function FateOf(cfg: Config, c: Cipher, w: World, dryRun: bool, row: Row): Fate {
    if IsCurrent(cfg, row) then Current
    else if Decrypt(cfg, c, row.secrets).None? then Failed
    else if dryRun then Spared
    else if w.writeFails(row.id) then Failed
    else Updated
  }

  function Reencrypted(cfg: Config, c: Cipher, w: World, dryRun: bool, row: Row): Row {
    match FateOf(cfg, c, w, dryRun, row)
    case Updated =>
      Row(row.id, Encrypt(cfg, c, Decrypt(cfg, c, row.secrets).value, w.nonce(row.id)), Some(cfg.activeVersion))
    case _ => row
  }

  function All(cfg: Config, c: Cipher, w: World, dryRun: bool, rows: seq<Row>): seq<Row> {
    seq(|rows|, i requires 0 <= i < |rows| => Reencrypted(cfg, c, w, dryRun, rows[i]))
  }

  function Count(cfg: Config, c: Cipher, w: World, dryRun: bool, rows: seq<Row>, fate: Fate): nat {
    if rows == [] then 0
    else
      Count(cfg, c, w, dryRun, rows[..|rows| - 1], fate)
      + if FateOf(cfg, c, w, dryRun, rows[|rows| - 1]) == fate then 1 else 0
  }

  ghost predicate ById(rows: seq<Row>) {
    forall i, k :: 0 <= i < k < |rows| ==> rows[i].id < rows[k].id
  }

  /** The table after its first n rows have been visited. */
  function VisitedTo(cfg: Config, c: Cipher, w: World, dryRun: bool, rows: seq<Row>, n: nat): seq<Row>
    requires n <= |rows|
  {
    All(cfg, c, w, dryRun, rows[..n]) + rows[n..]
  }

  /** The summary after the first n rows, all but `scanned`. */
  function TallyTo(cfg: Config, c: Cipher, w: World, dryRun: bool, rows: seq<Row>, n: nat): (nat, nat, nat)
    requires n <= |rows|
  {
    var seen := rows[..n];
    (Count(cfg, c, w, dryRun, seen, Updated) + Count(cfg, c, w, dryRun, seen, Failed)
     + Count(cfg, c, w, dryRun, seen, Spared),
     Count(cfg, c, w, dryRun, seen, Updated), Count(cfg, c, w, dryRun, seen, Failed))
  }

  lemma VisitTurn(cfg: Config, c: Cipher, w: World, dryRun: bool, rows: seq<Row>, n: nat)
    requires n < |rows|
    ensures VisitedTo(cfg, c, w, dryRun, rows, n)[n] == rows[n]
    ensures VisitedTo(cfg, c, w, dryRun, rows, n + 1)
         == VisitedTo(cfg, c, w, dryRun, rows, n)[n := Reencrypted(cfg, c, w, dryRun, rows[n])]
    ensures var (candidates, updated, failed) := TallyTo(cfg, c, w, dryRun, rows, n);
            var fate := FateOf(cfg, c, w, dryRun, rows[n]);
            TallyTo(cfg, c, w, dryRun, rows, n + 1)
              == (candidates + (if fate != Current then 1 else 0), updated + (if fate == Updated then 1 else 0),
                  failed + (if fate == Failed then 1 else 0))
  {
    assert rows[..n + 1][..n] == rows[..n];
  }

  function One(b: bool): nat { if b then 1 else 0 }

  function Totals(cfg: Config, c: Cipher, w: World, dryRun: bool, rows: seq<Row>): Summary {
    var (candidates, updated, failed) := TallyTo(cfg, c, w, dryRun, rows, |rows|);
    Summary(cfg.activeVersion, |rows|, candidates, updated, failed, dryRun)
  }

  /** Rows after the cursor row, in id order. */
  function After(rows: seq<Row>, cursor: Option<int>): seq<Row> {
    if rows != [] && cursor.Some? && rows[0].id <= cursor.value then After(rows[1..], cursor) else rows
  }

  /** findMany ordered by id, skipping the cursor row: at most `take` rows after it. */
  function FindMany(rows: seq<Row>, cursor: Option<int>, take: nat): seq<Row> {
    var rest := After(rows, cursor);
    rest[..Min(take, |rest|)]
  }

  function CursorAt(rows: seq<Row>, n: nat): Option<int>
    requires n <= |rows|
  {
    if n == 0 then None else Some(rows[n - 1].id)
  }

  lemma {:induction false} AfterPrefix(rows: seq<Row>, n: nat, cursor: int)
    requires ById(rows) && 0 < n <= |rows| && rows[n - 1].id == cursor
    ensures After(rows, Some(cursor)) == rows[n..]
  {
    assert rows[0].id <= cursor;
    if n == 1 {
      assert rows[1..] == [] || rows[1..][0].id > cursor;
    } else {
      AfterPrefix(rows[1..], n - 1, cursor);
    }
  }

  /** The cursor points right behind the visited rows, so the next batch starts with the first one not visited. */
  lemma FindsNext(cfg: Config, c: Cipher, w: World, dryRun: bool, rows: seq<Row>, n: nat, table: seq<Row>,
                  cursor: Option<int>, take: nat)
    requires n <= |rows| && ById(rows)
    requires table == VisitedTo(cfg, c, w, dryRun, rows, n) && cursor == CursorAt(rows, n)
    ensures var batch := FindMany(table, cursor, take);
            && n + |batch| <= |rows| && batch == rows[n..n + |batch|]
            && |batch| == Min(take, |rows| - n)
  {
    IdsKept(cfg, c, w, dryRun, rows, n);
    if n > 0 {
      AfterPrefix(table, n, rows[n - 1].id);
    }
    assert After(table, cursor) == rows[n..];
  }

  lemma VisitedEnds(cfg: Config, c: Cipher, w: World, dryRun: bool, rows: seq<Row>)
    ensures VisitedTo(cfg, c, w, dryRun, rows, 0) == rows
    ensures VisitedTo(cfg, c, w, dryRun, rows, |rows|) == All(cfg, c, w, dryRun, rows)
    ensures TallyTo(cfg, c, w, dryRun, rows, 0) == (0, 0, 0)
  {
    assert rows[..|rows|] == rows;
  }

  /** Where the outer loop stands when the first n rows have been visited. */
  ghost predicate Progress(cfg: Config, c: Cipher, w: World, dryRun: bool, before: seq<Row>, n: nat, rows: seq<Row>,
                           cursor: Option<int>, tally: (nat, nat, nat))
  {
    && n <= |before| && rows == VisitedTo(cfg, c, w, dryRun, before, n)
    && cursor == CursorAt(before, n) && tally == TallyTo(cfg, c, w, dryRun, before, n)
  }

  class CredentialTable {
    var rows: seq<Row>

    constructor (rows: seq<Row>)
      ensures this.rows == rows
    {
      this.rows := rows;
    }

    /** The body of the inner loop, for the row at place `at`. */
    method VisitRow(cfg: Config, c: Cipher, w: World, dryRun: bool, at: nat)
        returns (candidates: nat, updated: nat, failed: nat)
      requires at < |rows|
      modifies this
      ensures rows == old(rows)[at := Reencrypted(cfg, c, w, dryRun, old(rows)[at])]
      ensures var fate := FateOf(cfg, c, w, dryRun, old(rows)[at]);
              candidates == One(fate != Current) && updated == One(fate == Updated) && failed == One(fate == Failed)
    {
      var row := rows[at];
      candidates, updated, failed := 0, 0, 0;
      if IsCurrent(cfg, row) {
        return;
      }
      candidates := 1;
      var payload := Decrypt(cfg, c, row.secrets);
      if payload.None? {
        failed := 1;
      } else if !dryRun {
        if w.writeFails(row.id) {
          failed := 1;
        } else {
          var sealed := Encrypt(cfg, c, payload.value, w.nonce(row.id));
          rows := rows[at := Row(row.id, sealed, Some(OrElse(sealed.version, cfg.activeVersion)))];
          updated := 1;
        }
      }
    }

    /** The inner loop: the counters go on from `from`, and the cursor follows the rows. */
    method VisitBatch(cfg: Config, c: Cipher, w: World, dryRun: bool, batch: seq<Row>, start: nat, end: nat,
                      from: (nat, nat, nat), ghost before: seq<Row>) returns (to: (nat, nat, nat), cursor: Option<int>)
      requires ById(before) && start < end <= |before| && batch == before[start..end]
      requires rows == VisitedTo(cfg, c, w, dryRun, before, start) && from == TallyTo(cfg, c, w, dryRun, before, start)
      modifies this
      ensures rows == VisitedTo(cfg, c, w, dryRun, before, end)
      ensures to == TallyTo(cfg, c, w, dryRun, before, end)
      ensures cursor == CursorAt(before, end)
    {
      to := from;
      cursor := None;
      var at := start;
      while at < end
        invariant start <= at <= end
        invariant rows == VisitedTo(cfg, c, w, dryRun, before, at)
        invariant to == TallyTo(cfg, c, w, dryRun, before, at)
        invariant at > start ==> cursor == CursorAt(before, at)
      {
        VisitTurn(cfg, c, w, dryRun, before, at);
        cursor := Some(batch[at - start].id);
        var candidates, updated, failed := VisitRow(cfg, c, w, dryRun, at);
        to := (to.0 + candidates, to.1 + updated, to.2 + failed);
        at := at + 1;
      }
    }

    /** The body of the outer loop. */
    method NextBatch(cfg: Config, c: Cipher, w: World, dryRun: bool, start: nat, after: Option<int>,
                     from: (nat, nat, nat), batchSize: nat, ghost before: seq<Row>)
        returns (scanned: nat, cursor: Option<int>, tally: (nat, nat, nat), more: bool)
      requires ById(before) && batchSize >= 1
      requires Progress(cfg, c, w, dryRun, before, start, rows, after, from)
      modifies this
      ensures Progress(cfg, c, w, dryRun, before, scanned, rows, cursor, tally)
      ensures if more then start < scanned else scanned == |before|
    {
      var batch := FindMany(rows, after, batchSize);
      FindsNext(cfg, c, w, dryRun, before, start, rows, after, batchSize);
      scanned := start + |batch|;
      if |batch| == 0 {
        return start, after, from, false;
      }
      tally, cursor := VisitBatch(cfg, c, w, dryRun, batch, start, scanned, from, before);
      more := |batch| >= batchSize;
    }

    /** Every row is visited once, in id order, whatever the batch size. */
    method ReencryptProviderCredentials(cfg: Config, c: Cipher, w: World, dryRun: bool, batchOption: Option<int>)
        returns (summary: Summary)
      requires ById(rows)
      modifies this
      ensures rows == All(cfg, c, w, dryRun, old(rows))
      ensures summary == Totals(cfg, c, w, dryRun, old(rows))
    {
      ghost var before := rows;
      var batchSize := Max(1, Min(OrElse(batchOption, 100), 1000));
      var cursor: Option<int> := None;
      var scanned := 0;
      var tally: (nat, nat, nat) := (0, 0, 0);
      var more := true;
      VisitedEnds(cfg, c, w, dryRun, before);
      while more
        invariant Progress(cfg, c, w, dryRun, before, scanned, rows, cursor, tally)
        invariant !more ==> scanned == |before|
        decreases |before| - scanned, more
      {
        scanned, cursor, tally, more := NextBatch(cfg, c, w, dryRun, scanned, cursor, tally, batchSize, before);
      }
      return Summary(cfg.activeVersion, scanned, tally.0, tally.1, tally.2, dryRun);
    }
  }

  lemma IdsKept(cfg: Config, c: Cipher, w: World, dryRun: bool, rows: seq<Row>, n: nat)
    requires n <= |rows| && ById(rows)
    ensures ById(VisitedTo(cfg, c, w, dryRun, rows, n))
    ensures forall i :: 0 <= i < |rows| ==> VisitedTo(cfg, c, w, dryRun, rows, n)[i].id == rows[i].id
    ensures forall i :: n <= i < |rows| ==> VisitedTo(cfg, c, w, dryRun, rows, n)[i] == rows[i]
  {}

  // --- What a run means for the credentials --------------------------------------------

  /** An updated row carries the same secret under the active key; any other row is untouched. */
  lemma SecretKept(cfg: Config, c: Cipher, w: World, dryRun: bool, row: Row)
    requires Sound(c)
    ensures var after := Reencrypted(cfg, c, w, dryRun, row);
            && Decrypt(cfg, c, after.secrets) == Decrypt(cfg, c, row.secrets)
            && (FateOf(cfg, c, w, dryRun, row) == Updated ==>
                  IsCurrent(cfg, after) && after.secrets.version == Some(cfg.activeVersion))
            && (FateOf(cfg, c, w, dryRun, row) != Updated ==> after == row)
            && (dryRun ==> after == row)
  {
    if FateOf(cfg, c, w, dryRun, row) == Updated {
      RoundTrip(cfg, c, Decrypt(cfg, c, row.secrets).value, w.nonce(row.id));
    }
  }

  /** The row's column names another version than the active one; a missing version counts as 0. */
  predicate Outdated(cfg: Config, row: Row) {
    if row.version == None then cfg.activeVersion != 0 else row.version.value != cfg.activeVersion
  }

  /** Its secret opens under the key of the version the payload names. */
  predicate Opens(cfg: Config, c: Cipher, row: Row) { Decrypt(cfg, c, row.secrets) != None }

  /**
   * What a run leaves of each row: one with an outdated column that opens and can be written has the active version in
   * the column and in the payload and opens to what it opened to before; every other one is as it was.
   */
  lemma RunLeaves(cfg: Config, c: Cipher, w: World, dryRun: bool, rows: seq<Row>, i: nat)
    requires Sound(c) && i < |rows|
    ensures var row, after := rows[i], All(cfg, c, w, dryRun, rows)[i];
            && |All(cfg, c, w, dryRun, rows)| == |rows|
            && (!dryRun && Outdated(cfg, row) && Opens(cfg, c, row) && !w.writeFails(row.id) ==>
                  && after.id == row.id && after.version == Some(cfg.activeVersion) && !Outdated(cfg, after)
                  && after.secrets.version == Some(cfg.activeVersion)
                  && after.secrets.box
                     == c.seal(KeyFor(cfg, cfg.activeVersion), Decrypt(cfg, c, row.secrets).value, w.nonce(row.id))
                  && Decrypt(cfg, c, after.secrets) == Decrypt(cfg, c, row.secrets))
            && (dryRun || !Outdated(cfg, row) || !Opens(cfg, c, row) || w.writeFails(row.id) ==> after == row)
  {
    SecretKept(cfg, c, w, dryRun, rows[i]);
  }

  /** What becomes of a row, written out. */
  lemma FateIs(cfg: Config, c: Cipher, w: World, dryRun: bool, row: Row)
    ensures var fate, due := FateOf(cfg, c, w, dryRun, row), Outdated(cfg, row);
            && (fate == Updated <==> due && Opens(cfg, c, row) && !dryRun && !w.writeFails(row.id))
            && (fate == Failed <==> due && (!Opens(cfg, c, row) || (!dryRun && w.writeFails(row.id))))
            && (fate == Spared <==> due && Opens(cfg, c, row) && dryRun)
  {}

  /** And what it reports: how many were scanned, were outdated, got the active version, and could not be moved. */
  lemma RunReports(cfg: Config, c: Cipher, w: World, dryRun: bool, rows: seq<Row>)
    ensures var outdated := set i | 0 <= i < |rows| && Outdated(cfg, rows[i]);
            var moved := set i | i in outdated && Opens(cfg, c, rows[i]) && !dryRun && !w.writeFails(rows[i].id);
            var stuck := set i | i in outdated && (!Opens(cfg, c, rows[i]) || (!dryRun && w.writeFails(rows[i].id)));
            Totals(cfg, c, w, dryRun, rows)
            == Summary(cfg.activeVersion, |rows|, |outdated|, |moved|, |stuck|, dryRun)
  {
    var outdated := set i | 0 <= i < |rows| && Outdated(cfg, rows[i]);
    var moved := set i | i in outdated && Opens(cfg, c, rows[i]) && !dryRun && !w.writeFails(rows[i].id);
    var stuck := set i | i in outdated && (!Opens(cfg, c, rows[i]) || (!dryRun && w.writeFails(rows[i].id)));
    var fates := seq(|rows|, i requires 0 <= i < |rows| => FateOf(cfg, c, w, dryRun, rows[i]));
    forall i | 0 <= i < |rows|
      ensures fates[i] == Updated <==> i in moved
      ensures fates[i] == Failed <==> i in stuck
      ensures fates[i] != Current <==> i in outdated
    {
      FateIs(cfg, c, w, dryRun, rows[i]);
    }
    CountIs(cfg, c, w, dryRun, rows, fates, Updated);
    CountIs(cfg, c, w, dryRun, rows, fates, Failed);
    CountIs(cfg, c, w, dryRun, rows, fates, Spared);
    SharedOut(fates, outdated, moved, stuck);
    assert rows[..|rows|] == rows;
  }

  lemma SharedOut(fates: seq<Fate>, outdated: set<int>, moved: set<int>, stuck: set<int>)
    requires forall i :: i in outdated <==> 0 <= i < |fates| && fates[i] != Current
    requires forall i :: i in moved <==> 0 <= i < |fates| && fates[i] == Updated
    requires forall i :: i in stuck <==> 0 <= i < |fates| && fates[i] == Failed
    ensures moved == Places(fates, Updated) && stuck == Places(fates, Failed)
    ensures |outdated| == |moved| + |stuck| + |Places(fates, Spared)|
  {
    assert moved == Places(fates, Updated) && stuck == Places(fates, Failed);
    assert outdated == moved + stuck + Places(fates, Spared);
  }

  function Places(fates: seq<Fate>, fate: Fate): set<int> { set i | 0 <= i < |fates| && fates[i] == fate }

  lemma {:induction false} CountIs(cfg: Config, c: Cipher, w: World, dryRun: bool, rows: seq<Row>, fates: seq<Fate>,
                                   fate: Fate)
    requires |fates| == |rows| && forall i :: 0 <= i < |rows| ==> fates[i] == FateOf(cfg, c, w, dryRun, rows[i])
    ensures Count(cfg, c, w, dryRun, rows, fate) == |Places(fates, fate)|
  {
    if rows == [] {
      assert Places(fates, fate) == {};
    } else {
      var n := |rows| - 1;
      CountIs(cfg, c, w, dryRun, rows[..n], fates[..n], fate);
      PlacesSnoc(fates, fate);
    }
  }

  lemma PlacesSnoc(fates: seq<Fate>, fate: Fate)
    requires fates != []
    ensures var n := |fates| - 1; |Places(fates, fate)| == |Places(fates[..n], fate)| + One(fates[n] == fate)
  {
    var n := |fates| - 1;
    assert Places(fates, fate) == Places(fates[..n], fate) + if fates[n] == fate then {n} else {};
  }

  /** A second run in the same world updates nothing and fails on exactly the rows the first one failed on. */
  lemma {:induction false} SecondRunIdle(cfg: Config, c: Cipher, w: World, again: World, rows: seq<Row>)
    requires Sound(c) && (forall id :: again.writeFails(id) == w.writeFails(id))
    ensures var after := All(cfg, c, w, false, rows);
            && All(cfg, c, again, false, after) == after
            && Count(cfg, c, again, false, after, Updated) == 0
            && Count(cfg, c, again, false, after, Failed) == Count(cfg, c, w, false, rows, Failed)
  {
    if rows == [] {
    } else {
      var init, last := rows[..|rows| - 1], rows[|rows| - 1];
      SecondRunIdle(cfg, c, w, again, init);
      SecretKept(cfg, c, w, false, last);
      var after, done := All(cfg, c, w, false, rows), All(cfg, c, w, false, init);
      assert after == done + [Reencrypted(cfg, c, w, false, last)];
      assert after[..|after| - 1] == done;
      assert All(cfg, c, again, false, after) == All(cfg, c, again, false, done) + [after[|after| - 1]];
    }
  }

  /** A real run: every candidate was either updated or failed. */
  lemma {:induction false} NothingSpared(cfg: Config, c: Cipher, w: World, rows: seq<Row>)
    ensures Count(cfg, c, w, false, rows, Spared) == 0
    ensures var (candidates, updated, failed) := TallyTo(cfg, c, w, false, rows, |rows|); candidates == updated + failed
  {
    assert rows[..|rows|] == rows;
    if rows == [] {
    } else {
      NothingSpared(cfg, c, w, rows[..|rows| - 1]);
      assert rows[..|rows| - 1][..|rows| - 1] == rows[..|rows| - 1];
    }
  }
}
