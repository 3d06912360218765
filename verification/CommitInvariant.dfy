/** A turn commit keeps the invariant of the public delivery queue. */
module CommitInvariant {
  import opened Options
  import opened Tables
  import opened PublicQueue
  import opened QueueInvariant
  import opened TurnWrites
  import opened TurnCommit
  import opened TurnTables
  import History

  // ------------------------------------------------------------ cancelling

  predicate IsSuperseded(r: PublicRow, w: TurnWrite) {
    r.turn.lead == w.Lead() && r.turn.turn in w.superseded
  }

  function Cancelling(db: Db, w: TurnWrite): Db {
    db.(outbox := CancelTurns(db.outbox, w.Lead(), w.superseded))
  }

  /** A row that an accepted commit supersedes holds no dispatch slot. */
  lemma SupersededRow(db: Db, w: TurnWrite, p: Id)
    requires AllCancellable(db, w) && p in db.outbox && IsSuperseded(db.outbox[p], w)
    ensures db.outbox[p].status == Pending || db.outbox[p].status == Leased
    ensures db.outbox[p].slots == 0 && COMPLETION_TURN <= db.outbox[p].turn.turn.text
  {
    var i :| 0 <= i < |w.superseded| && w.superseded[i] == db.outbox[p].turn.turn;
    assert CancelError(db.events, db.outbox, w, w.superseded[i]).None?;
    assert IsUnattemptedCompletion(db.outbox, TurnKey(w.Lead(), w.superseded[i]));
  }

  /** Every row is as it was, or an unsent row was cancelled. */
  predicate CancelsUnsent(outbox: map<Id, PublicRow>, outbox': map<Id, PublicRow>) {
    && outbox'.Keys == outbox.Keys
    && forall p :: p in outbox ==>
         outbox'[p] == outbox[p]
         || (outbox'[p] == CancelledRow(outbox[p]) && outbox[p].slots == 0
             && (outbox[p].status == Pending || outbox[p].status == Leased))
  }

  lemma CancellingCancelsUnsent(db: Db, w: TurnWrite)
    requires AllCancellable(db, w)
    ensures CancelsUnsent(db.outbox, Cancelling(db, w).outbox)
  {
    var outbox' := CancelTurns(db.outbox, w.Lead(), w.superseded);
    forall p | p in db.outbox && outbox'[p] != db.outbox[p]
      ensures outbox'[p] == CancelledRow(db.outbox[p]) && db.outbox[p].slots == 0
      ensures db.outbox[p].status == Pending || db.outbox[p].status == Leased
    {
      SupersededRow(db, w, p);
    }
  }

  lemma CancelKeepsLink(db: Db, db': Db)
    requires TwoTables(db) && CancelsUnsent(db.outbox, db'.outbox) && db'.authority == db.authority
    ensures TwoTables(db')
  {
    forall p | p in db'.outbox ensures Linked(db', p) { assert Linked(db, p); }
    forall k | k in db'.authority ensures BackLinked(db', k) { assert BackLinked(db, k); }
  }

  lemma CancelKeepsOrder(db: Db, db': Db)
    requires Shape(db) && Ordered(db) && CancelsUnsent(db.outbox, db'.outbox) && db'.events == db.events
    ensures Shape(db') && Ordered(db')
  {
    forall p | p in db.outbox ensures Advances(db.outbox[p], db'.outbox[p]) && (Started(db'.outbox[p]) ==> Started(db.outbox[p])) {
      assert db'.outbox[p] == db.outbox[p] || db'.outbox[p] == CancelledRow(db.outbox[p]);
    }
    OrderKept(db, db');
  }

  lemma CancellingKeepsInv(db: Db, w: TurnWrite)
    requires QueueInv(db) && AllCancellable(db, w)
    ensures QueueInv(Cancelling(db, w))
  {
    CancellingCancelsUnsent(db, w);
    CancelKeepsLink(db, Cancelling(db, w));
    CancelKeepsOrder(db, Cancelling(db, w));
  }

  // ------------------------------------------------------------- appending

  predicate NoLaterEvent(events: map<TurnKey, EventRow>, lead: Id, version: nat) {
    forall k :: k in events && k.lead == lead ==> events[k].version <= version
  }

  /** `db'` has the rows of the turn `w` on top of those of `db`. */
  ghost predicate GainsTurn(db: Db, db': Db, w: TurnWrite) {
    && db'.events == db.events[w.Key() := NewEvent(w)] && EventInsertable(db.events, w)
    && GainsRows(db.outbox, db'.outbox, w)
    && BindsRows(db.authority, db'.authority, w)
    && forall i: nat :: i < |w.rows| ==> RowWellFormed(w, i)
  }

  predicate RowWellFormed(w: TurnWrite, i: nat)
    requires i < |w.rows|
  {
    w.rows[i].chunk.ordinal == i && w.rows[i].chunk.turn == w.receipt.turn && TermsCheck(w.rows[i].terms)
  }

  ghost predicate GainsRows(outbox: map<Id, PublicRow>, outbox': map<Id, PublicRow>, w: TurnWrite) {
    && (forall p :: p in outbox ==> p in outbox' && outbox'[p] == outbox[p] && outbox[p].turn != w.Key())
    && (forall p :: p in outbox' && p !in outbox ==> exists i: nat :: IsRow(w, i, p))
    && (forall i: nat :: i < |w.rows| ==> w.rows[i].rowId in outbox' && outbox'[w.rows[i].rowId] == NewPublic(w, i))
  }

  predicate IsRow(w: TurnWrite, i: nat, p: Id) {
    i < |w.rows| && w.rows[i].rowId == p
  }

  ghost predicate BindsRows(auth: map<AuthKey, AuthRow>, auth': map<AuthKey, AuthRow>, w: TurnWrite) {
    && auth'.Keys == auth.Keys
    && (forall k :: k in auth && auth'[k] != auth[k] ==> exists i: nat :: IsKey(w, i, k))
    && (forall i: nat :: i < |w.rows| ==>
          w.rows[i].key in auth && AllocationFree(auth, w, i)
          && auth'[w.rows[i].key] == BoundAuth(auth[w.rows[i].key], w.rows[i].rowId))
  }

  predicate IsKey(w: TurnWrite, i: nat, k: AuthKey) {
    i < |w.rows| && w.rows[i].key == k
  }

  lemma AppendedGainsRows(outbox: map<Id, PublicRow>, w: TurnWrite)
    requires OutboxInsertable(outbox, w, |w.rows|)
    requires forall p :: p in outbox ==> outbox[p].turn != w.Key()
    ensures GainsRows(outbox, WithPublic(outbox, w, |w.rows|), w)
  {
    forall i: nat | i < |w.rows| ensures RowIdFresh(outbox, w, i) {
      assert PublicInsertable(WithPublic(outbox, w, i), w, i);
    }
    PublicTable(outbox, w, |w.rows|);
    var outbox' := WithPublic(outbox, w, |w.rows|);
    forall i: nat | i < |w.rows|
      ensures w.rows[i].rowId in outbox' && outbox'[w.rows[i].rowId] == NewPublic(w, i)
    {
      PublicRowAt(outbox, w, |w.rows|, i);
    }
    forall p | p in outbox' && p !in outbox ensures exists i: nat :: IsRow(w, i, p) {
      var i: nat :| i < |w.rows| && p == w.rows[i].rowId;
      assert IsRow(w, i, p);
    }
  }

  lemma AppendedBindsRows(auth: map<AuthKey, AuthRow>, w: TurnWrite)
    requires AllocationsFree(auth, w, |w.rows|)
    ensures BindsRows(auth, WithBound(auth, w, |w.rows|), w)
  {
    BoundTable(auth, w, |w.rows|);
    var auth' := WithBound(auth, w, |w.rows|);
    forall k | k in auth && auth'[k] != auth[k] ensures exists i: nat :: IsKey(w, i, k) {
      var i: nat :| i < |w.rows| && k == w.rows[i].key;
      assert IsKey(w, i, k);
    }
  }

  lemma RowsWellFormed(w: TurnWrite, i: nat)
    requires WritesValid(w) && ReceiptBinds(w) && i < |w.rows|
    ensures RowWellFormed(w, i)
  {
    assert w.receipt.chunks == ChunkRows(w.rows);
    assert w.receipt.chunks[i].1 == i;
  }

  lemma AppendedGainsTurn(db: Db, w: TurnWrite)
    requires Shape(db) && WritesValid(w) && PreCheck(w).None? && w.Lead() in db.states
    requires EventInsertable(db.events, w)
    requires PublicRowsInsertable(db.authority, db.outbox, w, |w.rows|)
    ensures GainsTurn(db, Appended(db, w), w)
  {
    AppendedGainsRows(db.outbox, w);
    AppendedBindsRows(db.authority, w);
    forall i: nat | i < |w.rows| ensures RowWellFormed(w, i) { RowsWellFormed(w, i); }
  }

  lemma GainedRowLinked(db: Db, db': Db, w: TurnWrite, i: nat)
    requires GainsTurn(db, db', w) && i < |w.rows|
    ensures w.rows[i].rowId in db'.outbox && Linked(db', w.rows[i].rowId)
  {
    NewRowChecks(w, i);
    var r := db'.outbox[w.rows[i].rowId];
    assert r == NewPublic(w, i) && AllocationFree(db.authority, w, i);
    assert db'.authority[r.content.key] == BoundAuth(db.authority[r.content.key], w.rows[i].rowId);
  }

  lemma NewRowChecks(w: TurnWrite, i: nat)
    requires i < |w.rows| && RowWellFormed(w, i)
    ensures var r := NewPublic(w, i);
            PublicRowCheck(r) && r.status == Pending && r.content.chunkIndex == w.rows[i].chunk.ordinal
            && r.content.key == w.rows[i].key && r.content.terms == w.rows[i].terms
  {
  }

  lemma OldRowLinked(db: Db, db': Db, w: TurnWrite, p: Id)
    requires GainsTurn(db, db', w) && p in db.outbox && Linked(db, p)
    ensures p in db'.outbox && Linked(db', p)
  {
    var k := db.outbox[p].content.key;
    forall i: nat | i < |w.rows| ensures !IsKey(w, i, k) {
      assert AllocationFree(db.authority, w, i);
    }
  }

  lemma GainedBackLinked(db: Db, db': Db, w: TurnWrite, k: AuthKey)
    requires GainsTurn(db, db', w) && k in db.authority && BackLinked(db, k)
    ensures k in db'.authority && BackLinked(db', k)
  {
    if db'.authority[k] != db.authority[k] {
      var i: nat :| IsKey(w, i, k);
      assert AllocationFree(db.authority, w, i);
      BoundAuthChecks(k, db.authority[k], w.rows[i].rowId);
    }
  }

  lemma BoundAuthChecks(k: AuthKey, a: AuthRow, p: Id)
    requires AuthRowCheck(k, a) && !a.header && a.state == Available
    ensures AuthRowCheck(k, BoundAuth(a, p))
  {
  }

  lemma AppendingKeepsLink(db: Db, db': Db, w: TurnWrite)
    requires TwoTables(db) && GainsTurn(db, db', w)
    ensures TwoTables(db')
  {
    forall p | p in db'.outbox ensures Linked(db', p) {
      if p in db.outbox {
        OldRowLinked(db, db', w, p);
      } else {
        var i: nat :| IsRow(w, i, p);
        GainedRowLinked(db, db', w, i);
      }
    }
    forall k | k in db'.authority ensures BackLinked(db', k) { GainedBackLinked(db, db', w, k); }
  }

  lemma GainedRowChunked(db: Db, db': Db, w: TurnWrite, i: nat)
    requires GainsTurn(db, db', w) && i < |w.rows|
    ensures w.rows[i].rowId in db'.outbox && Chunked(db', w.rows[i].rowId)
  {
    assert RowWellFormed(w, i);
    if i > 0 {
      assert RowWellFormed(w, i - 1);
      assert IsPrevious(db', w.rows[i - 1].rowId, w.rows[i].rowId);
    }
  }

  lemma OldRowChunked(db: Db, db': Db, w: TurnWrite, p: Id)
    requires GainsTurn(db, db', w) && p in db.outbox && Chunked(db, p)
    ensures p in db'.outbox && Chunked(db', p)
  {
    if db.outbox[p].content.chunkIndex > 0 {
      var q :| IsPrevious(db, q, p);
      assert IsPrevious(db', q, p);
    }
  }

  lemma GainedSlots(db: Db, db': Db, w: TurnWrite, p: Id, q: Id)
    requires Shape(db) && GainsTurn(db, db', w)
    requires p in db'.outbox && q in db'.outbox && SameSlot(db', p, q)
    ensures p == q
  {
    if p in db.outbox || q in db.outbox {
      assert SameSlot(db, p, q);
    } else {
      var i: nat :| IsRow(w, i, p);
      var j: nat :| IsRow(w, j, q);
      assert RowWellFormed(w, i) && RowWellFormed(w, j);
    }
  }

  lemma AppendingKeepsShape(db: Db, db': Db, w: TurnWrite)
    requires Shape(db) && GainsTurn(db, db', w)
    ensures Shape(db')
  {
    forall p | p in db'.outbox ensures db'.outbox[p].turn in db'.events && Chunked(db', p) {
      if p in db.outbox {
        OldRowChunked(db, db', w, p);
      } else {
        var i: nat :| IsRow(w, i, p);
        GainedRowChunked(db, db', w, i);
      }
    }
    forall p, q | p in db'.outbox && q in db'.outbox && SameSlot(db', p, q) ensures p == q {
      GainedSlots(db, db', w, p, q);
    }
    History.VersionsStayUnique(db.events, w);
  }

  lemma OldRowJustified(db: Db, db': Db, w: TurnWrite, p: Id)
    requires Shape(db) && GainsTurn(db, db', w) && p in db.outbox && Justified(db, p)
    requires NoLaterEvent(db.events, w.Lead(), w.expected) && w.commit.state.version == w.expected + 1
    ensures p in db'.outbox && db'.outbox[p] == db.outbox[p] && db'.outbox[p].turn in db'.events && Justified(db', p)
  {
    forall q | q in db'.outbox ensures !Blocks(db', q, p) {
      if q in db.outbox {
        assert !Blocks(db, q, p);
      } else {
        var i: nat :| IsRow(w, i, q);
      }
    }
    if db.outbox[p].content.chunkIndex != 0 {
      var q :| q in db.outbox && db.outbox[q].turn == db.outbox[p].turn
        && Some(db.outbox[q].content.chunkHash) == db.outbox[p].content.predecessor
        && db.outbox[q].status == Delivered;
      assert db'.outbox[q] == db.outbox[q];
    }
  }

  lemma AppendingKeepsOrder(db: Db, db': Db, w: TurnWrite)
    requires Shape(db) && Ordered(db) && GainsTurn(db, db', w)
    requires NoLaterEvent(db.events, w.Lead(), w.expected) && w.commit.state.version == w.expected + 1
    ensures Shape(db') && Ordered(db')
  {
    AppendingKeepsShape(db, db', w);
    forall p | p in db'.outbox && (Started(db'.outbox[p]) || NeedsClaim(db'.outbox[p].status))
      ensures Started(db'.outbox[p]) && Justified(db', p)
    {
      forall i: nat | i < |w.rows| ensures !IsRow(w, i, p) {
        assert db'.outbox[w.rows[i].rowId] == NewPublic(w, i);
      }
      assert Justified(db, p);
      OldRowJustified(db, db', w, p);
    }
  }

  lemma CommittedGainsRows(db: Db, w: TurnWrite)
    requires Shape(db) && WritesValid(w) && Accepts(db, w)
    ensures GainsRows(Cancelling(db, w).outbox, Committed(db, w).outbox, w)
  {
    AppendedGainsRows(Cancelling(db, w).outbox, w);
  }

  /** A commit keeps both tables in step, every turn chunked and every claim justified. */
  lemma CommittedKeepsInv(db: Db, w: TurnWrite)
    requires QueueInv(db) && WritesValid(w) && Accepts(db, w)
    requires NoLaterEvent(db.events, w.Lead(), w.expected)
    ensures QueueInv(Committed(db, w))
  {
    CancellingKeepsInv(db, w);
    var db1, db2 := Cancelling(db, w), Committed(db, w);
    AppendedGainsTurn(db1, w);
    AppendingKeepsLink(db1, db2, w);
    AppendingKeepsOrder(db1, db2, w);
  }
}
