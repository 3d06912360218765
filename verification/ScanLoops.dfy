/** The scan itself: loops over leads, events and child rows in the code's
    order, refusing at the first disagreement. */
module ScanLoops {
  import opened Options
  import opened Tables
  import opened Ordering
  import opened TurnWrites
  import opened TurnCommit
  import opened BoundaryStore
  import opened LeaseQueue
  import opened History
  import opened Scan

  // --------------------------------------------------------------- sources

  method ScanSources(t: map<SourceKey, SourceRow>, key: TurnKey, r: TurnReceipt) returns (ok: bool)
    ensures ok <==> SourcesMatch(t, key, r)
  {
    var rows := OrderBy(SourcesOf(t, key), (k: SourceKey) => k.index);
    if |rows| != |r.sources| {
      SourceCount(t, key, r);
      return false;
    }
    for i := 0 to |rows|
      invariant forall j: nat :: j < i ==> rows[j].index == j && SourceMatches(t, key, r, j)
    {
      var k, s := rows[i], r.sources[i];
      if k.index != i || t[k] != SourceRow(s.sourceId, s.sourceHash, Canonical(s), ReceiptDigest(r)) {
        if SourcesMatch(t, key, r) { SourceAtPosition(t, key, r, rows, i); }
        return false;
      }
      assert k == SourceKey(key, i);
    }
    return true;
  }

  lemma SourceCount(t: map<SourceKey, SourceRow>, key: TurnKey, r: TurnReceipt)
    ensures SourcesMatch(t, key, r) ==> |SourcesOf(t, key)| == |r.sources|
  {
    if SourcesMatch(t, key, r) {
      var listed := seq(|r.sources|, i requires 0 <= i < |r.sources| => SourceKey(key, i));
      forall i | 0 <= i < |listed| ensures listed[i] in SourcesOf(t, key) { assert SourceMatches(t, key, r, i); }
      forall k | k in SourcesOf(t, key) ensures k in listed { assert listed[k.index] == k; }
      CoversByCount(SourcesOf(t, key), listed);
    }
  }

  lemma SourceAtPosition(t: map<SourceKey, SourceRow>, key: TurnKey, r: TurnReceipt, rows: seq<SourceKey>, i: nat)
    requires SourcesMatch(t, key, r) && i < |rows| == |r.sources|
    requires Lists(rows, SourcesOf(t, key), (k: SourceKey) => k.index)
    ensures rows[i] == SourceKey(key, i) && SourceMatches(t, key, r, i)
  {
    var rank := (k: SourceKey) => k.index;
    forall j, k | 0 <= j < k < |rows| ensures rank(rows[j]) != rank(rows[k]) {
      assert rows[j] in SourcesOf(t, key) && rows[k] in SourcesOf(t, key);
    }
    RankIsPosition(rows, rank, i);
    assert rows[i] in SourcesOf(t, key);
  }

  // ------------------------------------------------------ commands and queues

  method ScanCommands(t: map<Id, CommandRow>, key: TurnKey, r: TurnReceipt) returns (ok: bool)
    requires Distinct(Ids(r.commandRows))
    ensures ok <==> CommandsMatch(t, key, r)
  {
    var rows := CommandsOf(t, key);
    for i := 0 to |r.commandRows|
      invariant forall j: nat :: j < i ==> CommandMatches(t, key, r, j)
    {
      if !CommandMatches(t, key, r, i) { return false; }
    }
    forall i | 0 <= i < |Ids(r.commandRows)| ensures Ids(r.commandRows)[i] in rows { assert CommandMatches(t, key, r, i); }
    CoversByCount(rows, Ids(r.commandRows));
    return |rows| == |r.commandRows|;
  }

  method ScanRelays(t: Relays, key: TurnKey, r: TurnReceipt) returns (ok: bool)
    requires Distinct(Ids(r.relayRows))
    ensures ok <==> RelaysMatch(t, key, r)
  {
    var rows := RelaysOf(t, key);
    for i := 0 to |r.relayRows|
      invariant forall j: nat :: j < i ==> RelayMatches(t, key, r, j)
    {
      if !RelayMatches(t, key, r, i) { return false; }
    }
    forall i | 0 <= i < |Ids(r.relayRows)| ensures Ids(r.relayRows)[i] in rows { assert RelayMatches(t, key, r, i); }
    CoversByCount(rows, Ids(r.relayRows));
    return |rows| == |r.relayRows|;
  }

  method ScanJobs(t: Jobs, key: TurnKey, r: TurnReceipt) returns (ok: bool)
    requires Distinct(Ids(r.jobRows))
    ensures ok <==> JobsMatch(t, key, r)
  {
    var rows := JobsOf(t, key);
    for i := 0 to |r.jobRows|
      invariant forall j: nat :: j < i ==> JobMatches(t, key, r, j)
    {
      if !JobMatches(t, key, r, i) { return false; }
    }
    forall i | 0 <= i < |Ids(r.jobRows)| ensures Ids(r.jobRows)[i] in rows { assert JobMatches(t, key, r, i); }
    CoversByCount(rows, Ids(r.jobRows));
    return |rows| == |r.jobRows|;
  }

  // ------------------------------------------------------------- artifacts

  method ScanArtifacts(t: map<ArtifactKey, ArtifactRow>, key: TurnKey, r: TurnReceipt) returns (ok: bool)
    ensures ok <==> ArtifactsMatch(t, key, r)
  {
    var rows := OrderBy(ArtifactsOf(t, key), (k: ArtifactKey) => k.index);
    var artifacts: seq<Artifact> := [];
    for i := 0 to |rows|
      invariant forall j: nat :: j < i ==> rows[j] == ArtifactKey(key, j) && rows[j] in t && ArtifactOk(t[rows[j]], r)
      invariant |artifacts| == i && forall j :: 0 <= j < i ==> artifacts[j] == t[rows[j]].artifact
    {
      assert rows[i] in ArtifactsOf(t, key);
      if rows[i].index != i {
        GapInIndexes(t, key, rows, i);
        return false;
      }
      if !ArtifactOk(t[rows[i]], r) { return false; }
      artifacts := artifacts + [t[rows[i]].artifact];
    }
    forall i: nat | i < |rows| ensures ArtifactKey(key, i) in t { assert rows[i] == ArtifactKey(key, i); }
    forall k | k in t && k.turn == key ensures k.index < |rows| { assert k in ArtifactsOf(t, key); }
    OnlyLength(t, key, |rows|);
    assert artifacts == ArtifactSeq(t, key, |rows|);
    return GraphMatches(artifacts, r);
  }

  /** Sorted keys whose i-th index is not i have a gap. */
  lemma GapInIndexes(t: map<ArtifactKey, ArtifactRow>, key: TurnKey, rows: seq<ArtifactKey>, i: nat)
    requires i < |rows| && Lists(rows, ArtifactsOf(t, key), (k: ArtifactKey) => k.index)
    requires rows[i].index != i && forall j: nat :: j < i ==> rows[j] == ArtifactKey(key, j)
    ensures !Contiguous(t, key)
  {
    assert rows[i] in ArtifactsOf(t, key);
    var n := rows[i].index;
    var m := if n < i then n else 0;
    if i > 0 { assert rows[m] != rows[i]; }
    forall j | 0 <= j < |rows| ensures rows[j] != ArtifactKey(key, i) {
      assert j > i ==> rows[i].index <= rows[j].index;
    }
    assert ArtifactKey(key, i) !in ArtifactsOf(t, key);
  }

  /** The artifacts have one length. */
  lemma OnlyLength(t: map<ArtifactKey, ArtifactRow>, key: TurnKey, n: nat)
    requires AllArtifacts(t, key, n)
    ensures Contiguous(t, key)
    ensures forall m: nat :: AllArtifacts(t, key, m) ==> m == n
  {
    forall m: nat | AllArtifacts(t, key, m) ensures m == n {
      assert m < n ==> ArtifactKey(key, m) in t;
      assert n < m ==> ArtifactKey(key, n) in t;
    }
  }

  // ----------------------------------------------------------- public rows

  /** What the loop checks at one row: the row's own chunk, and the hash of the row before. */
  predicate RowAgrees(auth: map<AuthKey, AuthRow>, p: Id, c: PublicContent, key: TurnKey, r: TurnReceipt,
                      predecessor: Option<Digest>) {
    && c.chunkJson.Canonical?
    && c.chunkJson.value.turn == key.turn && c.chunkJson.value.ordinal == c.chunkIndex
    && ChunkDigest(c.chunkJson.value) == c.chunkHash && c.predecessor == predecessor
    && c.terms.capabilityDigest == r.capabilityDigest && c.effectiveDigest == r.effectiveDigest
    && c.receiptHash == ReceiptDigest(r)
    && AllocationBound(auth, p, c)
  }

  /** The receipt's entry for a row. */
  function ChunkOf(p: Id, c: PublicContent): (Id, nat, PublicReplyChunk, Digest)
    requires c.chunkJson.Canonical?
  {
    (p, c.chunkIndex, c.chunkJson.value, c.chunkHash)
  }

  /** The hash of the row before the i-th. */
  function HashOfRowBefore(t: map<Id, PublicRow>, rows: seq<Id>, i: nat): Option<Digest>
    requires i <= |rows|
  {
    if i > 0 && rows[i - 1] in t then Some(t[rows[i - 1]].content.chunkHash) else None
  }

  /** The i-th row passed, and this is its entry. */
  predicate RowScanned(auth: map<AuthKey, AuthRow>, t: map<Id, PublicRow>, key: TurnKey, r: TurnReceipt,
                       rows: seq<Id>, i: nat, entry: (Id, nat, PublicReplyChunk, Digest))
    requires i < |rows|
  {
    && rows[i] in RowsOf(t, key)
    && RowAgrees(auth, rows[i], t[rows[i]].content, key, r, HashOfRowBefore(t, rows, i))
    && entry == ChunkOf(rows[i], t[rows[i]].content)
  }

  /** The loop over the rows, with its running predecessor and the tuple it builds. */
  method ScanRows(auth: map<AuthKey, AuthRow>, t: map<Id, PublicRow>, key: TurnKey, r: TurnReceipt, rows: seq<Id>)
    returns (ok: bool, expected: seq<(Id, nat, PublicReplyChunk, Digest)>, ghost bad: nat)
    requires forall i :: 0 <= i < |rows| ==> rows[i] in RowsOf(t, key)
    ensures ok ==> |expected| == |rows| && forall j: nat :: j < |rows| ==> RowScanned(auth, t, key, r, rows, j, expected[j])
    ensures !ok ==> bad < |rows| && rows[bad] in t
                    && !RowAgrees(auth, rows[bad], t[rows[bad]].content, key, r, HashOfRowBefore(t, rows, bad))
  {
    expected, ok, bad := [], true, 0;
    var predecessor: Option<Digest> := None;
    for i := 0 to |rows|
      invariant |expected| == i && ok && predecessor == HashOfRowBefore(t, rows, i)
      invariant forall j: nat :: j < i ==> RowScanned(auth, t, key, r, rows, j, expected[j])
    {
      var c := t[rows[i]].content;
      if !RowAgrees(auth, rows[i], c, key, r, predecessor) { return false, expected, i; }
      expected := expected + [ChunkOf(rows[i], c)];
      predecessor := Some(c.chunkHash);
    }
  }

  method ScanPublic(auth: map<AuthKey, AuthRow>, t: map<Id, PublicRow>, key: TurnKey, r: TurnReceipt)
    returns (ok: bool)
    requires ReceiptValid(r) && r.turn == key.turn
    ensures ok <==> PublicMatch(auth, t, key, r)
  {
    var rank := (p: Id) => if p in t then t[p].content.chunkIndex else 0;
    var rows := OrderBy(RowsOf(t, key), rank);
    if |rows| != |r.chunks| {
      PublicCount(auth, t, key, r);
      return false;
    }
    if PublicMatch(auth, t, key, r) { AllAtPosition(auth, t, key, r, rows, rank); }
    var expected; ghost var bad;
    ok, expected, bad := ScanRows(auth, t, key, r, rows);
    if !ok {
      if PublicMatch(auth, t, key, r) { MatchingRowAgrees(auth, t, key, r, rows, bad); }
      return;
    }
    ok := expected == r.chunks;
    if ok {
      ScannedRowsMatch(auth, t, key, r, rows, expected);
    } else if PublicMatch(auth, t, key, r) {
      MatchingTuple(auth, t, key, r, rows, expected);
    }
  }

  /** The i-th row is the receipt's i-th chunk. */
  predicate MatchesAt(auth: map<AuthKey, AuthRow>, t: map<Id, PublicRow>, r: TurnReceipt, rows: seq<Id>, i: nat) {
    i < |rows| == |r.chunks| && rows[i] in t && RowMatches(auth, rows[i], t[rows[i]].content, r, i)
  }

  /** In a matching turn every row is in its chunk's place. */
  lemma AllAtPosition(auth: map<AuthKey, AuthRow>, t: map<Id, PublicRow>, key: TurnKey, r: TurnReceipt,
                      rows: seq<Id>, rank: Id -> nat)
    requires PublicMatch(auth, t, key, r) && |rows| == |r.chunks|
    requires Lists(rows, RowsOf(t, key), rank)
    requires forall p :: p in t ==> rank(p) == t[p].content.chunkIndex
    ensures InPlace(auth, t, r, rows)
  {
    forall i: nat | i < |rows| ensures MatchesAt(auth, t, r, rows, i) { RowAtPosition(auth, t, key, r, rows, rank, i); }
  }

  ghost predicate InPlace(auth: map<AuthKey, AuthRow>, t: map<Id, PublicRow>, r: TurnReceipt, rows: seq<Id>) {
    forall i: nat {:trigger MatchesAt(auth, t, r, rows, i)} :: i < |rows| ==> MatchesAt(auth, t, r, rows, i)
  }

  /** So it agrees with its own chunk and the row before. */
  lemma MatchingRowAgrees(auth: map<AuthKey, AuthRow>, t: map<Id, PublicRow>, key: TurnKey, r: TurnReceipt, rows: seq<Id>, i: nat)
    requires InPlace(auth, t, r, rows) && i < |rows| && ReceiptValid(r) && r.turn == key.turn
    ensures rows[i] in t && RowAgrees(auth, rows[i], t[rows[i]].content, key, r, HashOfRowBefore(t, rows, i))
  {
    assert MatchesAt(auth, t, r, rows, i) && (i > 0 ==> MatchesAt(auth, t, r, rows, i - 1));
  }

  /** And the tuple the loop builds is the receipt's. */
  lemma MatchingTuple(auth: map<AuthKey, AuthRow>, t: map<Id, PublicRow>, key: TurnKey, r: TurnReceipt, rows: seq<Id>,
                      expected: seq<(Id, nat, PublicReplyChunk, Digest)>)
    requires InPlace(auth, t, r, rows) && |rows| == |r.chunks| == |expected| && ReceiptValid(r)
    requires forall j: nat :: j < |rows| ==> RowScanned(auth, t, key, r, rows, j, expected[j])
    ensures expected == r.chunks
  {
    forall i: nat | i < |rows| ensures expected[i] == r.chunks[i] {
      assert RowScanned(auth, t, key, r, rows, i, expected[i]) && MatchesAt(auth, t, r, rows, i);
    }
  }

  /** The running predecessor and the closing comparison together fix every row:
      the rows that passed are the receipt's chunks. */
  lemma ScannedRowsMatch(auth: map<AuthKey, AuthRow>, t: map<Id, PublicRow>, key: TurnKey, r: TurnReceipt, rows: seq<Id>,
                         expected: seq<(Id, nat, PublicReplyChunk, Digest)>)
    requires |rows| == |expected| && r.chunks == expected && ReceiptValid(r) && forall p :: p in RowsOf(t, key) ==> p in rows
    requires forall j: nat :: j < |rows| ==> RowScanned(auth, t, key, r, rows, j, expected[j])
    ensures PublicMatch(auth, t, key, r)
  {
    forall i: nat | i < |r.chunks|
      ensures r.chunks[i].0 in RowsOf(t, key) && RowMatches(auth, r.chunks[i].0, t[r.chunks[i].0].content, r, i)
    {
      assert RowScanned(auth, t, key, r, rows, i, expected[i]);
      if i > 0 { assert RowScanned(auth, t, key, r, rows, i - 1, expected[i - 1]); }
    }
    forall p | p in RowsOf(t, key) ensures exists i: nat :: IsChunk(r, i, p) {
      var i: nat :| i < |rows| && rows[i] == p;
      assert RowScanned(auth, t, key, r, rows, i, expected[i]);
      assert IsChunk(r, i, p);
    }
  }

  function ChunkIds(r: TurnReceipt): seq<Id> {
    seq(|r.chunks|, i requires 0 <= i < |r.chunks| => r.chunks[i].0)
  }

  lemma PublicCount(auth: map<AuthKey, AuthRow>, t: map<Id, PublicRow>, key: TurnKey, r: TurnReceipt)
    requires ReceiptValid(r)
    ensures PublicMatch(auth, t, key, r) ==> |RowsOf(t, key)| == |r.chunks|
  {
    if PublicMatch(auth, t, key, r) {
      forall p | p in RowsOf(t, key) ensures p in ChunkIds(r) {
        var i: nat :| IsChunk(r, i, p);
        assert ChunkIds(r)[i] == p;
      }
      CoversByCount(RowsOf(t, key), ChunkIds(r));
    }
  }

  /** In a matching turn the i-th row by chunk index is the receipt's i-th chunk. */
  lemma RowAtPosition(auth: map<AuthKey, AuthRow>, t: map<Id, PublicRow>, key: TurnKey, r: TurnReceipt,
                      rows: seq<Id>, rank: Id -> nat, i: nat)
    requires PublicMatch(auth, t, key, r) && i < |rows| == |r.chunks|
    requires Lists(rows, RowsOf(t, key), rank)
    requires forall p :: p in t ==> rank(p) == t[p].content.chunkIndex
    ensures rows[i] in t && RowMatches(auth, rows[i], t[rows[i]].content, r, i)
  {
    forall j | 0 <= j < |rows|
      ensures rank(rows[j]) < |rows| && r.chunks[rank(rows[j])].0 == rows[j]
    {
      assert rows[j] in RowsOf(t, key);
      var n: nat :| IsChunk(r, n, rows[j]);
      assert RowMatches(auth, r.chunks[n].0, t[r.chunks[n].0].content, r, n);
    }
    RankIsPosition(rows, rank, i);
  }

  // ------------------------------------------------------- turns and leads

  method ScanTurn(db: Db, key: TurnKey, r: TurnReceipt) returns (ok: bool)
    requires ReceiptValid(r) && r.turn == key.turn
    ensures ok <==> TurnMatches(db, key, r)
  {
    ok := ScanSources(db.sources, key, r);
    if ok { ok := ScanArtifacts(db.artifacts, key, r); }
    if ok { ok := ScanCommands(db.commands, key, r); }
    if ok { ok := ScanRelays(db.relays, key, r); }
    if ok { ok := ScanJobs(db.jobs, key, r); }
    if ok { ok := ScanPublic(db.authority, db.outbox, key, r); }
  }

  function EventsOf(events: Events, lead: Id): set<TurnKey> {
    set k | k in events && k.lead == lead
  }

  /** The events of a lead in version order are one per version. */
  ghost predicate InVersionOrder(events: Events, lead: Id, version: nat, turns: seq<TurnKey>) {
    && |turns| == version
    && (forall k :: k in events && k.lead == lead ==> k in turns)
    && (forall i: nat :: i < version ==> IsVersion(events, lead, i + 1, turns[i]))
  }

  method OrderEvents(events: Events, lead: Id, version: nat) returns (ok: bool, turns: seq<TurnKey>)
    ensures ok ==> InVersionOrder(events, lead, version, turns)
    ensures !ok ==> forall s :: !InVersionOrder(events, lead, version, s)
  {
    var rank := (k: TurnKey) => if k in events then events[k].version else 0;
    turns := OrderBy(EventsOf(events, lead), rank);
    if |turns| != version {
      forall s | InVersionOrder(events, lead, version, s) ensures false { EventCount(events, lead, version, s); }
      return false, turns;
    }
    for i := 0 to version
      invariant forall j: nat :: j < i ==> turns[j] in events && events[turns[j]].version == j + 1
    {
      assert turns[i] in EventsOf(events, lead);
      if events[turns[i]].version != i + 1 {
        forall s | InVersionOrder(events, lead, version, s) ensures false {
          EventAtPosition(events, lead, version, s, turns, rank, i);
        }
        return false, turns;
      }
    }
    forall i: nat | i < version ensures IsVersion(events, lead, i + 1, turns[i]) {
      assert turns[i] in EventsOf(events, lead);
    }
    return true, turns;
  }

  lemma EventCount(events: Events, lead: Id, version: nat, s: seq<TurnKey>)
    requires InVersionOrder(events, lead, version, s)
    ensures |EventsOf(events, lead)| == version
  {
    forall i | 0 <= i < |s| ensures s[i] in EventsOf(events, lead) && events[s[i]].version == i + 1 {
      assert IsVersion(events, lead, i + 1, s[i]);
    }
    CoversByCount(EventsOf(events, lead), s);
  }

  lemma EventAtPosition(events: Events, lead: Id, version: nat, s: seq<TurnKey>, turns: seq<TurnKey>,
                        rank: TurnKey -> nat, i: nat)
    requires InVersionOrder(events, lead, version, s) && i < |turns| == version
    requires Lists(turns, EventsOf(events, lead), rank)
    requires forall k :: k in events ==> rank(k) == events[k].version
    ensures turns[i] in events && events[turns[i]].version == i + 1
  {
    var place := (k: TurnKey) => if rank(k) > 0 then rank(k) - 1 else 0;
    forall j | 0 <= j < |turns|
      ensures place(turns[j]) < version && s[place(turns[j])] == turns[j] && rank(turns[j]) == place(turns[j]) + 1
    {
      assert turns[j] in EventsOf(events, lead);
      var n: nat :| n < |s| && s[n] == turns[j];
      assert IsVersion(events, lead, n + 1, s[n]);
    }
    RankIsPosition(turns, place, i);
    assert turns[i] in EventsOf(events, lead);
  }

  function HashBefore(events: Events, turns: seq<TurnKey>, i: nat): Option<Digest>
    requires i <= |turns|
  {
    if i > 0 && turns[i - 1] in events then Some(events[turns[i - 1]].receiptHash) else None
  }

  /** What the loop over the events checks at one event. */
  ghost predicate EventScanned(events: Events, matched: set<TurnKey>, turns: seq<TurnKey>, i: nat)
    requires i < |turns|
  {
    && turns[i] in events && EventOk(turns[i], events[turns[i]]) && turns[i] in matched
    && events[turns[i]].receiptJson.value.previous == HashBefore(events, turns, i)
  }

  ghost predicate AllScanned(events: Events, matched: set<TurnKey>, turns: seq<TurnKey>) {
    forall i: nat {:trigger EventScanned(events, matched, turns, i)} :: i < |turns| ==> EventScanned(events, matched, turns, i)
  }

  /** `matched` are the turns whose rows the inner loops accept. */
  ghost predicate AreMatched(db: Db, matched: set<TurnKey>) {
    forall k {:trigger TurnVerdict(db, k)} :: k in matched <==> TurnVerdict(db, k)
  }

  lemma MatchedTurnsAreMatched(db: Db)
    ensures AreMatched(db, MatchedTurns(db))
  {
  }

  method ScanEvent(db: Db, turns: seq<TurnKey>, i: nat, previous: Option<Digest>, ghost matched: set<TurnKey>)
    returns (ok: bool)
    requires i < |turns| && previous == HashBefore(db.events, turns, i) && AreMatched(db, matched)
    ensures ok <==> EventScanned(db.events, matched, turns, i)
    ensures ok ==> turns[i] in db.events
  {
    var key := turns[i];
    assert key in matched <==> TurnVerdict(db, key);
    if key !in db.events { return false; }
    var e := db.events[key];
    if !EventOk(key, e) || e.receiptJson.value.previous != previous { return false; }
    ok := ScanTurn(db, key, e.receiptJson.value);
  }

  method ScanEvents(db: Db, turns: seq<TurnKey>, ghost matched: set<TurnKey>) returns (ok: bool)
    requires AreMatched(db, matched)
    ensures ok <==> AllScanned(db.events, matched, turns)
  {
    var previous: Option<Digest> := None;
    for i := 0 to |turns|
      invariant forall j: nat {:trigger EventScanned(db.events, matched, turns, j)} ::
                  j < i ==> EventScanned(db.events, matched, turns, j)
      invariant previous == HashBefore(db.events, turns, i)
    {
      ok := ScanEvent(db, turns, i, previous, matched);
      if !ok { return; }
      previous := Some(db.events[turns[i]].receiptHash);
    }
    return true;
  }

  /** The last receipt hashes the stored state. */
  predicate FinalAgrees(events: Events, s: StateRow, turns: seq<TurnKey>)
    requires |turns| == s.version
  {
    s.version > 0 ==>
      && turns[s.version - 1] in events && events[turns[s.version - 1]].receiptJson.Canonical?
      && events[turns[s.version - 1]].receiptJson.value.stateHash == s.stateHash
  }

  ghost predicate LeadScanned(states: States, events: Events, matched: set<TurnKey>, lead: Id, turns: seq<TurnKey>)
    requires lead in states
  {
    && StateOk(lead, states[lead])
    && InVersionOrder(events, lead, states[lead].version, turns)
    && AllScanned(events, matched, turns)
    && FinalAgrees(events, states[lead], turns)
  }

  method ScanLead(db: Db, lead: Id) returns (ok: bool)
    requires lead in db.states
    ensures ok <==> LeadMatches(db.states, db.events, MatchedTurns(db), lead)
  {
    ghost var matched := MatchedTurns(db);
    var s := db.states[lead];
    if !StateOk(lead, s) { return false; }
    var turns;
    ok, turns := OrderEvents(db.events, lead, s.version);
    if !ok {
      if LeadMatches(db.states, db.events, matched, lead) { var t := MatchingLeadScans(db.states, db.events, matched, lead); }
      return;
    }
    MatchedTurnsAreMatched(db);
    ok := ScanEvents(db, turns, matched);
    ok := ok && FinalAgrees(db.events, s, turns);
    if ok {
      ScannedLeadMatches(db.states, db.events, matched, lead, turns);
    } else if LeadMatches(db.states, db.events, matched, lead) {
      var t := MatchingLeadScans(db.states, db.events, matched, lead);
      OneOrder(db.events, lead, s.version, t, turns);
    }
  }

  /** There is only one version order. */
  lemma OneOrder(events: Events, lead: Id, version: nat, s: seq<TurnKey>, t: seq<TurnKey>)
    requires InVersionOrder(events, lead, version, s) && InVersionOrder(events, lead, version, t)
    ensures s == t
  {
    forall i: nat | i < version ensures s[i] == t[i] {
      assert s[i] in EventsOf(events, lead);
      var j :| 0 <= j < version && t[j] == s[i];
    }
  }

  lemma ScannedEventMatches(states: States, events: Events, matched: set<TurnKey>, lead: Id, turns: seq<TurnKey>, i: nat)
    requires lead in states && LeadScanned(states, events, matched, lead, turns) && i < |turns|
    ensures turns[i] in events && turns[i].lead == lead && EventMatches(states, events, matched, turns[i])
  {
    assert IsVersion(events, lead, i + 1, turns[i]);
    assert EventScanned(events, matched, turns, i);
    if i > 0 {
      assert IsVersion(events, lead, i, turns[i - 1]);
      assert IsPredecessor(events, turns[i - 1], turns[i]);
    }
  }

  lemma ScannedLeadMatches(states: States, events: Events, matched: set<TurnKey>, lead: Id, turns: seq<TurnKey>)
    requires lead in states && LeadScanned(states, events, matched, lead, turns)
    ensures LeadMatches(states, events, matched, lead)
  {
    VersionsOfOrder(events, lead, states[lead].version, turns);
    forall k | k in events && k.lead == lead ensures EventMatches(states, events, matched, k) {
      var i: nat :| i < |turns| && turns[i] == k;
      ScannedEventMatches(states, events, matched, lead, turns, i);
    }
  }

  lemma VersionsOfOrder(events: Events, lead: Id, version: nat, turns: seq<TurnKey>)
    requires InVersionOrder(events, lead, version, turns)
    ensures forall v: nat :: 1 <= v <= version ==> HasVersion(events, lead, v)
    ensures forall k, l {:trigger SameVersion(events, k, l)} ::
              k in events && l in events && k.lead == lead && SameVersion(events, k, l) ==> k == l
  {
    forall v: nat | 1 <= v <= version ensures HasVersion(events, lead, v) {
      assert IsVersion(events, lead, v - 1 + 1, turns[v - 1]);
    }
    forall k, l | k in events && l in events && k.lead == lead && SameVersion(events, k, l) ensures k == l {
      var i: nat :| i < |turns| && turns[i] == k;
      var j: nat :| j < |turns| && turns[j] == l;
      assert IsVersion(events, lead, i + 1, turns[i]) && IsVersion(events, lead, j + 1, turns[j]);
    }
  }

  /** Turns of consecutive versions can be listed in version order. */
  lemma {:induction false} TurnsUpTo(events: Events, lead: Id, v: nat) returns (turns: seq<TurnKey>)
    requires forall u: nat :: 1 <= u <= v ==> HasVersion(events, lead, u)
    ensures |turns| == v && forall i: nat :: i < v ==> IsVersion(events, lead, i + 1, turns[i])
  {
    if v == 0 {
      turns := [];
    } else {
      var before := TurnsUpTo(events, lead, v - 1);
      assert HasVersion(events, lead, v);
      var k :| IsVersion(events, lead, v, k);
      turns := before + [k];
    }
  }

  lemma MatchingEventScans(states: States, events: Events, matched: set<TurnKey>, lead: Id, turns: seq<TurnKey>, i: nat)
    requires lead in states && LeadMatches(states, events, matched, lead) && i < |turns|
    requires forall j: nat :: j < |turns| ==> IsVersion(events, lead, j + 1, turns[j])
    ensures EventScanned(events, matched, turns, i)
  {
    var k := turns[i];
    assert IsVersion(events, lead, i + 1, k);
    assert EventMatches(states, events, matched, k);
    if i > 0 {
      var l :| IsPredecessor(events, l, k) && events[k].receiptJson.value.previous == Some(events[l].receiptHash);
      assert IsVersion(events, lead, i, turns[i - 1]);
      assert SameVersion(events, turns[i - 1], l);
    }
  }

  lemma MatchingTurnsInOrder(states: States, events: Events, matched: set<TurnKey>, lead: Id, turns: seq<TurnKey>)
    requires lead in states && LeadMatches(states, events, matched, lead) && |turns| == states[lead].version
    requires forall i: nat :: i < |turns| ==> IsVersion(events, lead, i + 1, turns[i])
    ensures InVersionOrder(events, lead, |turns|, turns) && FinalAgrees(events, states[lead], turns)
  {
    forall k | k in events && k.lead == lead ensures k in turns {
      assert EventMatches(states, events, matched, k);
      assert IsVersion(events, lead, events[k].version, turns[events[k].version - 1]);
      assert SameVersion(events, k, turns[events[k].version - 1]);
    }
    if |turns| > 0 {
      assert IsVersion(events, lead, |turns|, turns[|turns| - 1]);
      assert EventMatches(states, events, matched, turns[|turns| - 1]);
    }
  }

  lemma MatchingLeadScans(states: States, events: Events, matched: set<TurnKey>, lead: Id) returns (turns: seq<TurnKey>)
    requires lead in states && LeadMatches(states, events, matched, lead)
    ensures LeadScanned(states, events, matched, lead, turns)
  {
    turns := TurnsUpTo(events, lead, states[lead].version);
    MatchingTurnsInOrder(states, events, matched, lead, turns);
    forall i: nat | i < |turns| ensures EventScanned(events, matched, turns, i) {
      MatchingEventScans(states, events, matched, lead, turns, i);
    }
  }

  /** The scan accepts exactly the well-formed stores. */
  method SemanticScan(db: Db) returns (ok: bool)
    ensures ok <==> WellFormed(db)
  {
    var todo := db.states.Keys;
    while todo != {}
      invariant todo <= db.states.Keys
      invariant forall lead :: lead in db.states && lead !in todo ==> LeadMatches(db.states, db.events, MatchedTurns(db), lead)
      decreases |todo|
    {
      var lead :| lead in todo;
      ok := ScanLead(db, lead);
      if !ok { return; }
      todo := todo - {lead};
    }
    return true;
  }
}
