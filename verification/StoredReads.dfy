/** What the store's reads accept: a state row, a receipt looked up by its turn, and
    a completion that is to be superseded. */
module StoredReads {
  import opened Options
  import opened Tables
  import opened TurnWrites
  import opened TurnCommit
  import opened BoundaryStore
  import opened History

  /** A state row loads exactly when its text is the canonical one of a state of this
      lead and version whose digest is the stored hash; it yields that state. */
  lemma LoadedStateIs(row: StateRow, lead: Id, v: VersionedState)
    ensures LoadVersioned(row, lead) == Ok(v) <==>
              && row.stateJson == Canonical(v.state) && v.state.leadKey == lead
              && row.version == v.version && v.state.version == v.version
              && row.stateHash == v.hash && v.hash == StateDigest(v.state)
    ensures LoadVersioned(row, lead).Err? ==> LoadVersioned(row, lead) == Err(DataCorruption)
  {
  }

  /** What a commit writes, a load reads back. */
  lemma CommittedStateLoads(db: Db, w: TurnWrite)
    requires StateCurrent(db, w) && w.commit.state.version == w.expected + 1
    ensures var db' := Committed(db, w);
            && w.commit.state.leadKey in db'.states
            && LoadVersioned(db'.states[w.commit.state.leadKey], w.commit.state.leadKey)
               == Ok(VersionedState(w.commit.state, w.expected + 1, StateDigest(w.commit.state)))
  {
  }

  /** And what a genesis writes. */
  lemma GenesisStateLoads(db: Db, lead: Id, i: Import)
    ensures LoadVersioned(Genesis(db, lead).states[lead], lead)
            == Ok(VersionedState(BoundaryState(lead, 0, None, [], "", []), 0, StateDigest(BoundaryState(lead, 0, None, [], "", []))))
    ensures i.state.version == 0 ==>
              LoadVersioned(Imported(db, i).states[i.state.leadKey], i.state.leadKey)
              == Ok(VersionedState(i.state, 0, StateDigest(i.state)))
  {
  }

  /** The one turn of that id, over all leads. */
  predicate OnlyNamed(events: Events, turn: Id, k: TurnKey) {
    k in events && k.turn == turn && forall l :: l in events && l.turn == turn ==> l == k
  }

  lemma NamedOnce(events: Events, turn: Id, k: TurnKey, r: TurnReceipt)
    requires OnlyNamed(events, turn, k)
    ensures TurnsNamed(events, turn) == {k}
    ensures LoadTurnReceipt(events, turn) == Ok(Some(r)) <==> ReceiptIn(events[k], turn, r)
    ensures LoadTurnReceipt(events, turn) != Ok(None)
  {
    assert TurnsNamed(events, turn) == {k};
    OnlyElement(TurnsNamed(events, turn));
  }

  /** A receipt is found exactly when one turn alone has the id and its row holds the
      receipt's canonical text, under its digest, for that turn. */
  lemma LoadedReceiptIs(events: Events, turn: Id, r: TurnReceipt)
    ensures LoadTurnReceipt(events, turn) == Ok(Some(r)) <==>
              exists k :: OnlyNamed(events, turn, k) && ReceiptIn(events[k], turn, r)
    ensures LoadTurnReceipt(events, turn) == Ok(None) <==> forall k :: k in events ==> k.turn != turn
  {
    var named := TurnsNamed(events, turn);
    if |named| == 1 {
      var k := OnlyTurnNamed(events, turn);
      assert OnlyNamed(events, turn, k) by { forall l | l in events && l.turn == turn ensures l == k { assert l in named; } }
      NamedOnce(events, turn, k, r);
      forall l | OnlyNamed(events, turn, l) ensures l == k { assert k in events && k.turn == turn; }
    } else {
      forall k ensures !OnlyNamed(events, turn, k) {
        if OnlyNamed(events, turn, k) { NamedOnce(events, turn, k, r); }
      }
      assert forall k :: k in named <==> k in events && k.turn == turn;
      if named != {} { var k :| k in named; }
    }
  }

  predicate ReceiptIn(e: EventRow, turn: Id, r: TurnReceipt) {
    && e.receiptJson == Canonical(r) && e.receiptHash == ReceiptDigest(r) && r.turn == turn && ReceiptValid(r)
  }

  /** The completion turn has chunks, and none of them was attempted. */
  predicate Unattempted(outbox: map<Id, PublicRow>, lead: Id, turn: Id) {
    && "completion-turn:" <= turn.text
    && (exists p :: p in outbox && outbox[p].turn.lead == lead && outbox[p].turn.turn == turn)
    && forall p :: p in outbox && outbox[p].turn.lead == lead && outbox[p].turn.turn == turn ==>
         (outbox[p].status == Pending || outbox[p].status == Leased) && outbox[p].slots == 0
  }

  /** A turn can be superseded by `w` exactly when its receipt is found, `w` names it as
      a source under that receipt's digest, and none of its chunks was attempted. */
  lemma SupersedesExactly(events: Events, outbox: map<Id, PublicRow>, w: TurnWrite, turn: Id)
    ensures CancelError(events, outbox, w, turn).None? <==>
              && Unattempted(outbox, w.commit.state.leadKey, turn)
              && exists r :: LoadTurnReceipt(events, turn) == Ok(Some(r))
                             && SourceEvent(Id("completion-merge:" + turn.text), ReceiptDigest(r)) in w.receipt.sources
  {
    var key := TurnKey(w.commit.state.leadKey, turn);
    assert forall p :: p in RowsOf(outbox, key) <==> p in outbox && outbox[p].turn.lead == key.lead && outbox[p].turn.turn == turn;
    assert IsUnattemptedCompletion(outbox, key) <==> Unattempted(outbox, key.lead, turn);
  }
}
