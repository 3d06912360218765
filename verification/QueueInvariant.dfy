/** The invariant of the public delivery queue, and that every queue operation keeps it. */
module QueueInvariant {
  import opened Options
  import opened Tables
  import opened PublicQueue

  // -------------------------------------------------------- two-table link

  /** What a public row's status says about the state of its allocation. */
  predicate Agree(s: PublicStatus, a: AuthState) {
    match s
    case Pending => a == Bound
    case Leased => a == Bound
    case DispatchFenced => a == AuthFenced
    case Delivered => a == Terminal
    case ManualReview => a == AuthManualReview
    case Cancelled => a == Closed || a == Bound
  }

  predicate Linked(db: Db, p: Id)
    requires p in db.outbox
  {
    var r := db.outbox[p];
    && PublicRowCheck(r)
    && r.content.key in db.authority
    && var a := db.authority[r.content.key];
       && !a.header && a.terms == r.content.terms && a.ordinal == Some(r.content.chunkIndex)
       && a.publicRow == Some(p)
       && Agree(r.status, a.state)
  }

  predicate BackLinked(db: Db, k: AuthKey)
    requires k in db.authority
  {
    && AuthRowCheck(k, db.authority[k])
    && (db.authority[k].publicRow.Some? ==>
          db.authority[k].publicRow.value in db.outbox
          && db.outbox[db.authority[k].publicRow.value].content.key == k)
  }

  ghost predicate TwoTables(db: Db) {
    && (forall p {:trigger Linked(db, p)} :: p in db.outbox ==> Linked(db, p))
    && (forall k {:trigger BackLinked(db, k)} :: k in db.authority ==> BackLinked(db, k))
  }

  // -------------------------------------------------------------- chunking

  /** `q` is the chunk just before `p` in the same turn. */
  predicate IsPrevious(db: Db, q: Id, p: Id)
    requires p in db.outbox
  {
    && q in db.outbox && db.outbox[q].turn == db.outbox[p].turn
    && db.outbox[q].content.chunkIndex + 1 == db.outbox[p].content.chunkIndex
    && Some(db.outbox[q].content.chunkHash) == db.outbox[p].content.predecessor
  }

  ghost predicate Chunked(db: Db, p: Id)
    requires p in db.outbox
  {
    var r := db.outbox[p];
    && r.content.chunkJson.Canonical?
    && r.content.chunkJson.value.turn == r.turn.turn
    && r.content.chunkJson.value.ordinal == r.content.chunkIndex
    && r.content.chunkHash == ChunkDigest(r.content.chunkJson.value)
    && (r.content.chunkIndex == 0 ==> r.content.predecessor.None?)
    && (r.content.chunkIndex > 0 ==> exists q :: IsPrevious(db, q, p))
  }

  predicate SameSlot(db: Db, p: Id, q: Id)
    requires p in db.outbox && q in db.outbox
  {
    db.outbox[p].turn == db.outbox[q].turn && db.outbox[p].content.chunkIndex == db.outbox[q].content.chunkIndex
  }

  ghost predicate Shape(db: Db) {
    && (forall p :: p in db.outbox ==> db.outbox[p].turn in db.events)
    && (forall p {:trigger Chunked(db, p)} :: p in db.outbox ==> Chunked(db, p))
    && (forall p, q :: p in db.outbox && q in db.outbox && SameSlot(db, p, q) ==> p == q)
    && VersionsUnique(db.events)
  }

  // -------------------------------------------------------------- ordering

  /** The row was leased to some worker at least once. */
  predicate Started(r: PublicRow) {
    r.claimCount > 0
  }

  predicate NeedsClaim(s: PublicStatus) {
    s != Pending && s != Cancelled
  }

  /** Whatever justified claiming `p` is still true. */
  ghost predicate Justified(db: Db, p: Id)
    requires p in db.outbox && db.outbox[p].turn in db.events
  {
    !Blocked(db, p) && (db.outbox[p].content.chunkIndex == 0 || PredecessorDelivered(db, p))
  }

  ghost predicate Ordered(db: Db)
    requires Shape(db)
  {
    && (forall p :: p in db.outbox && NeedsClaim(db.outbox[p].status) ==> Started(db.outbox[p]))
    && (forall p {:trigger Justified(db, p)} :: p in db.outbox && Started(db.outbox[p]) ==> Justified(db, p))
  }

  ghost predicate QueueInv(db: Db) {
    TwoTables(db) && Shape(db) && Ordered(db)
  }

  // ------------------------------------------------ what the invariant says

  /** The authority row of a public row is the only one an UPDATE by
      `public_row_id` can touch. */
  lemma OnlyAllocation(db: Db, p: Id, states: set<AuthState>)
    requires TwoTables(db) && p in db.outbox && Linked(db, p)
    ensures Matching(db.authority, p, states) ==
            if db.authority[db.outbox[p].content.key].state in states then {db.outbox[p].content.key} else {}
  {
    forall k | k in Matching(db.authority, p, states) ensures k == db.outbox[p].content.key {
      assert BackLinked(db, k);
    }
  }

  /** The allocation and the row bound to it say the same thing about the send. */
  predicate InStep(s: PublicStatus, a: AuthState) {
    && (a == AuthFenced <==> s == DispatchFenced)
    && (a == Terminal <==> s == Delivered)
    && (a == AuthManualReview <==> s == ManualReview)
    && (s == Pending || s == Leased ==> a == Bound)
    && (s == Cancelled ==> a == Closed || a == Bound)
    && (a == Closed ==> s == Cancelled)
  }

  lemma BoundAllocationInStep(db: Db, k: AuthKey)
    requires TwoTables(db) && k in db.authority && db.authority[k].publicRow.Some?
    ensures var p := db.authority[k].publicRow.value;
            p in db.outbox && db.outbox[p].content.key == k && InStep(db.outbox[p].status, db.authority[k].state)
  {
    assert BackLinked(db, k);
    assert Linked(db, db.authority[k].publicRow.value);
  }

  /** The digest in `predecessor_chunk_hash` identifies the previous chunk. */
  lemma PredecessorIsPrevious(db: Db, p: Id) returns (q: Id)
    requires Shape(db) && p in db.outbox && PredecessorDelivered(db, p)
    ensures IsPrevious(db, q, p) && db.outbox[q].status == Delivered
  {
    assert Chunked(db, p);
    q :| q in db.outbox && db.outbox[q].turn == db.outbox[p].turn
      && Some(db.outbox[q].content.chunkHash) == db.outbox[p].content.predecessor
      && db.outbox[q].status == Delivered;
    assert db.outbox[p].content.chunkIndex > 0;
    var prev :| IsPrevious(db, prev, p);
    assert Chunked(db, q) && Chunked(db, prev);
    assert SameSlot(db, q, prev);
  }

  predicate InFlight(s: PublicStatus) {
    s == Leased || s == DispatchFenced
  }

  /** A claimed chunk was preceded by every earlier chunk of its turn being delivered. */
  lemma {:induction false} DeliveredPrefix(db: Db, p: Id, j: nat) returns (q: Id)
    requires QueueInv(db) && p in db.outbox && Started(db.outbox[p])
    requires j < db.outbox[p].content.chunkIndex
    ensures q in db.outbox && db.outbox[q].turn == db.outbox[p].turn
    ensures db.outbox[q].content.chunkIndex == j && db.outbox[q].status == Delivered
    decreases db.outbox[p].content.chunkIndex
  {
    assert Justified(db, p);
    var prev := PredecessorIsPrevious(db, p);
    if db.outbox[prev].content.chunkIndex == j {
      q := prev;
    } else {
      q := DeliveredPrefix(db, prev, j);
    }
  }

  /** Two claimed rows of one lead: the one in the later position makes the other terminal. */
  lemma LaterStartedRow(db: Db, p: Id, q: Id)
    requires QueueInv(db) && p in db.outbox && q in db.outbox && p != q
    requires db.outbox[p].turn.lead == db.outbox[q].turn.lead
    requires Started(db.outbox[p]) && Started(db.outbox[q])
    requires !Precedes(db, q, p)
    ensures Precedes(db, p, q) && !Live(db.outbox[p].status)
  {
    assert Justified(db, q);
    var r, s := db.outbox[p], db.outbox[q];
    if r.turn == s.turn {
      if r.content.chunkIndex == s.content.chunkIndex { assert SameSlot(db, p, q); }
      var o := DeliveredPrefix(db, q, r.content.chunkIndex);
      assert SameSlot(db, p, o);
    } else {
      if db.events[r.turn].version == db.events[s.turn].version { assert SameVersion(db.events, r.turn, s.turn); }
      assert !Blocks(db, p, q);
    }
  }

  /** The (state_version, chunk_index) position of a row within its lead. */
  predicate Precedes(db: Db, p: Id, q: Id)
    requires p in db.outbox && q in db.outbox
    requires db.outbox[p].turn in db.events && db.outbox[q].turn in db.events
  {
    var v, w := db.events[db.outbox[p].turn].version, db.events[db.outbox[q].turn].version;
    v < w || (v == w && db.outbox[p].content.chunkIndex < db.outbox[q].content.chunkIndex)
  }

  /** Each lead has at most one row that is leased or dispatch-fenced. */
  lemma OneInFlightPerLead(db: Db, p: Id, q: Id)
    requires QueueInv(db) && p in db.outbox && q in db.outbox
    requires db.outbox[p].turn.lead == db.outbox[q].turn.lead
    requires InFlight(db.outbox[p].status) && InFlight(db.outbox[q].status)
    ensures p == q
  {
    if p != q {
      if Precedes(db, q, p) {
        LaterStartedRow(db, q, p);
      } else {
        LaterStartedRow(db, p, q);
      }
    }
  }

  // ------------------------------------------------------------ preserving

  /** The row keeps its content, does not come back to life, and its delivery is not undone. */
  predicate Advances(r: PublicRow, r': PublicRow) {
    && r'.turn == r.turn && r'.content == r.content
    && (Live(r'.status) ==> Live(r.status))
    && (r.status == Delivered ==> r'.status == Delivered)
    && (NeedsClaim(r'.status) ==> Started(r') || NeedsClaim(r.status))
    && (Started(r) ==> Started(r'))
  }

  /** Every row advances, and a row is claimed for the first time only when justified. */
  ghost predicate Forward(db: Db, db': Db)
    requires Shape(db)
  {
    && db'.events == db.events
    && db'.outbox.Keys == db.outbox.Keys
    && (forall p :: p in db.outbox ==> Advances(db.outbox[p], db'.outbox[p]))
    && (forall p :: p in db.outbox && Started(db'.outbox[p]) ==> Started(db.outbox[p]) || Justified(db, p))
  }

  lemma ShapeKept(db: Db, db': Db)
    requires Shape(db) && Forward(db, db')
    ensures Shape(db')
  {
    forall p | p in db'.outbox ensures Chunked(db', p) {
      assert Chunked(db, p);
      if db.outbox[p].content.chunkIndex > 0 {
        var q :| IsPrevious(db, q, p);
        assert IsPrevious(db', q, p);
      }
    }
    forall p, q | p in db'.outbox && q in db'.outbox && SameSlot(db', p, q) ensures p == q {
      assert SameSlot(db, p, q);
    }
  }

  lemma JustifiedKept(db: Db, db': Db, p: Id)
    requires Shape(db) && Shape(db') && Forward(db, db')
    requires p in db.outbox && Justified(db, p)
    ensures Justified(db', p)
  {
    forall q | q in db'.outbox ensures !Blocks(db', q, p) {
      assert !Blocks(db, q, p);
      assert Advances(db.outbox[q], db'.outbox[q]);
    }
    if db.outbox[p].content.chunkIndex != 0 {
      var q :| q in db.outbox && db.outbox[q].turn == db.outbox[p].turn
        && Some(db.outbox[q].content.chunkHash) == db.outbox[p].content.predecessor
        && db.outbox[q].status == Delivered;
      assert db'.outbox[q].status == Delivered;
      assert db'.outbox[q].turn == db'.outbox[p].turn
        && Some(db'.outbox[q].content.chunkHash) == db'.outbox[p].content.predecessor;
      assert PredecessorDelivered(db', p);
    }
  }

  lemma OrderKept(db: Db, db': Db)
    requires Shape(db) && Ordered(db) && Forward(db, db')
    ensures Shape(db') && Ordered(db')
  {
    ShapeKept(db, db');
    forall p | p in db'.outbox && Started(db'.outbox[p]) ensures Justified(db', p) {
      assert Justified(db, p);
      JustifiedKept(db, db', p);
    }
  }

  lemma RecoverKeepsLink(db: Db, now: Instant)
    requires TwoTables(db)
    ensures TwoTables(Recover(db, now))
  {
    var db' := Recover(db, now);
    forall p | p in db'.outbox ensures Linked(db', p) {
      RecoverLinked(db, p, now);
    }
    forall k | k in db'.authority ensures BackLinked(db', k) {
      assert BackLinked(db, k);
      RecoverBackLinked(db, k, now);
    }
  }

  lemma RecoverLinked(db: Db, p: Id, now: Instant)
    requires p in db.outbox && Linked(db, p)
    ensures Linked(Recover(db, now), p)
  {
  }

  lemma RecoverBackLinked(db: Db, k: AuthKey, now: Instant)
    requires k in db.authority && BackLinked(db, k)
    ensures BackLinked(Recover(db, now), k)
  {
  }

  lemma RecoverRowAdvances(r: PublicRow, now: Instant)
    ensures Advances(r, RecoverRow(r, now)) && RecoverRow(r, now).claimCount == r.claimCount
  {
  }

  lemma RecoverMovesForward(db: Db, now: Instant)
    requires Shape(db)
    ensures Forward(db, Recover(db, now))
  {
    var db' := Recover(db, now);
    forall p | p in db.outbox
      ensures Advances(db.outbox[p], db'.outbox[p]) && db'.outbox[p].claimCount == db.outbox[p].claimCount
    {
      RecoverRowAdvances(db.outbox[p], now);
    }
  }

  lemma RecoverKeepsInv(db: Db, now: Instant)
    requires QueueInv(db)
    ensures QueueInv(Recover(db, now))
  {
    RecoverKeepsLink(db, now);
    RecoverMovesForward(db, now);
    OrderKept(db, Recover(db, now));
  }

  /** A step that changes one public row and, at most, the row of its allocation. */
  lemma OneRowKeepsLink(db: Db, db': Db, p: Id)
    requires TwoTables(db) && p in db.outbox && p in db'.outbox
    requires db'.outbox == db.outbox[p := db'.outbox[p]]
    requires db'.outbox[p].content == db.outbox[p].content
    requires db'.authority.Keys == db.authority.Keys
    requires forall k :: k in db.authority && k != db.outbox[p].content.key ==> db'.authority[k] == db.authority[k]
    requires Linked(db', p)
    requires AuthRowCheck(db.outbox[p].content.key, db'.authority[db.outbox[p].content.key])
    ensures TwoTables(db')
  {
    forall q | q in db'.outbox ensures Linked(db', q) {
      assert Linked(db, q) && Linked(db, p);
    }
    forall k | k in db'.authority ensures BackLinked(db', k) { assert BackLinked(db, k); }
  }

  lemma OneRowKeepsOrder(db: Db, db': Db, p: Id)
    requires Shape(db) && Ordered(db) && p in db.outbox && p in db'.outbox
    requires db'.events == db.events && db'.outbox == db.outbox[p := db'.outbox[p]]
    requires Advances(db.outbox[p], db'.outbox[p])
    requires Started(db'.outbox[p]) ==> Started(db.outbox[p]) || Justified(db, p)
    ensures Shape(db') && Ordered(db')
  {
    OrderKept(db, db');
  }

  lemma StartedRowKeepsOrder(db: Db, db': Db, p: Id)
    requires Shape(db) && Ordered(db) && p in db.outbox && p in db'.outbox
    requires db'.events == db.events && db'.outbox == db.outbox[p := db'.outbox[p]]
    requires db'.outbox[p].content == db.outbox[p].content && db'.outbox[p].turn == db.outbox[p].turn
    requires InFlight(db.outbox[p].status) && db'.outbox[p].claimCount == db.outbox[p].claimCount
    ensures Shape(db') && Ordered(db')
  {
    OneRowKeepsOrder(db, db', p);
  }

  lemma LeasingKeepsLink(db: Db, p: Id, worker: Id, now: Instant, expires: Instant)
    requires TwoTables(db) && p in db.outbox && db.outbox[p].status == Pending
    ensures TwoTables(Leasing(db, p, worker, now, expires))
  {
    assert Linked(db, p) && BackLinked(db, db.outbox[p].content.key);
    OneRowKeepsLink(db, Leasing(db, p, worker, now, expires), p);
  }

  lemma LeasingKeepsOrder(db: Db, p: Id, worker: Id, now: Instant, expires: Instant)
    requires Shape(db) && Ordered(db) && Eligible(db, now, p)
    ensures var db' := Leasing(db, p, worker, now, expires); Shape(db') && Ordered(db')
  {
    assert Justified(db, p);
    assert Advances(db.outbox[p], LeasedRow(db.outbox[p], worker, now, expires));
    OneRowKeepsOrder(db, Leasing(db, p, worker, now, expires), p);
  }

  lemma LeasingKeepsInv(db: Db, p: Id, worker: Id, now: Instant, expires: Instant)
    requires QueueInv(db) && Eligible(db, now, p)
    ensures QueueInv(Leasing(db, p, worker, now, expires))
  {
    LeasingKeepsLink(db, p, worker, now, expires);
    LeasingKeepsOrder(db, p, worker, now, expires);
  }

  lemma FencingKeepsLink(db: Db, c: PublicClaim, now: Instant)
    requires TwoTables(db) && CanFence(db, c, now)
    ensures c.key == db.outbox[c.rowId].content.key
    ensures TwoTables(Fencing(db, c, now))
  {
    assert Linked(db, c.rowId) && BackLinked(db, c.key);
    OneRowKeepsLink(db, Fencing(db, c, now), c.rowId);
  }

  lemma FencingKeepsInv(db: Db, c: PublicClaim, now: Instant)
    requires QueueInv(db) && CanFence(db, c, now)
    ensures QueueInv(Fencing(db, c, now))
  {
    FencingKeepsLink(db, c, now);
    StartedRowKeepsOrder(db, Fencing(db, c, now), c.rowId);
  }

  /** An UPDATE by `public_row_id` moves exactly the row's own allocation. */
  lemma MoveTouchesOne(db: Db, p: Id, states: set<AuthState>, target: AuthState)
    requires TwoTables(db) && p in db.outbox
    requires db.outbox[p].content.key in db.authority
    requires db.authority[db.outbox[p].content.key].state in states
    ensures var k := db.outbox[p].content.key;
            Move(db.authority, p, states, target, true) == db.authority[k := Moved(db.authority[k], target, true)]
  {
    assert Linked(db, p);
    forall k | k in db.authority && k != db.outbox[p].content.key
      ensures Move(db.authority, p, states, target, true)[k] == db.authority[k]
    {
      assert BackLinked(db, k);
    }
  }

  /** The common link argument of complete, release and manual review. */
  lemma MovingKeepsLink(db: Db, db': Db, p: Id, states: set<AuthState>, target: AuthState)
    requires TwoTables(db) && p in db.outbox && p in db'.outbox
    requires |Matching(db.authority, p, states)| == 1
    requires db'.authority == Move(db.authority, p, states, target, true)
    requires db'.outbox == db.outbox[p := db'.outbox[p]] && db'.outbox[p].content == db.outbox[p].content
    requires PublicRowCheck(db'.outbox[p]) && Agree(db'.outbox[p].status, target)
    requires target == Bound || target == AuthManualReview || (target == Terminal && states == {AuthFenced})
    ensures TwoTables(db')
  {
    var k := db.outbox[p].content.key;
    assert Linked(db, p) && BackLinked(db, k);
    OnlyAllocation(db, p, states);
    MoveTouchesOne(db, p, states, target);
    OneRowKeepsLink(db, db', p);
  }

  lemma CompletingKeepsInv(db: Db, c: PublicClaim, receipt: AcceptanceReceipt, now: Instant)
    requires QueueInv(db) && CanComplete(db, c, receipt, now)
    ensures QueueInv(Completing(db, c, receipt))
  {
    var db' := Completing(db, c, receipt);
    assert TwoTables(db') by {
      assert Linked(db, c.rowId);
      MovingKeepsLink(db, db', c.rowId, {AuthFenced}, Terminal);
    }
    StartedRowKeepsOrder(db, db', c.rowId);
  }

  lemma ReleasingKeepsInv(db: Db, c: PublicClaim)
    requires QueueInv(db) && CanRelease(db, c)
    ensures QueueInv(Releasing(db, c))
  {
    var db' := Releasing(db, c);
    assert TwoTables(db') by {
      assert Linked(db, c.rowId);
      MovingKeepsLink(db, db', c.rowId, {AuthFenced}, Bound);
    }
    StartedRowKeepsOrder(db, db', c.rowId);
  }

  lemma ReviewingKeepsLink(db: Db, c: PublicClaim)
    requires TwoTables(db) && CanReview(db, c)
    ensures TwoTables(Reviewing(db, c))
  {
    assert Linked(db, c.rowId);
    MovingKeepsLink(db, Reviewing(db, c), c.rowId, {Bound, AuthFenced}, AuthManualReview);
  }

  lemma ReviewingKeepsInv(db: Db, c: PublicClaim)
    requires QueueInv(db) && CanReview(db, c)
    ensures QueueInv(Reviewing(db, c))
  {
    ReviewingKeepsLink(db, c);
    StartedRowKeepsOrder(db, Reviewing(db, c), c.rowId);
  }
}
