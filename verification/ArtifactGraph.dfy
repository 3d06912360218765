/** The argument checks of a commit, stated by position instead of by filtered
    lists: which artifact is the closure, which the proposal, and what each says
    about the others, the public rows and the receipt. */
module ArtifactGraph {
  import opened Options
  import opened Tables
  import opened Ordering
  import opened TurnWrites

  // ---------------------------------------------------- kinds and positions

  /** How many of the first `i` artifacts are of this kind. */
  function Rank(s: seq<Artifact>, kind: ArtifactKind, i: nat): nat
    requires i <= |s|
  {
    if i == 0 then 0 else Rank(s, kind, i - 1) + if s[i - 1].kind == kind then 1 else 0
  }

  function Kept(x: Artifact, kind: ArtifactKind): seq<Artifact> {
    if x.kind == kind then [x] else []
  }

  lemma OfKindHead(x: Artifact, s: seq<Artifact>, kind: ArtifactKind)
    ensures OfKind([x] + s, kind) == Kept(x, kind) + OfKind(s, kind)
  {
    assert ([x] + s)[1..] == s;
  }

  lemma {:induction false} OfKindSnoc(s: seq<Artifact>, x: Artifact, kind: ArtifactKind)
    ensures OfKind(s + [x], kind) == OfKind(s, kind) + Kept(x, kind)
  {
    if s == [] {
      assert s + [x] == [x] + [];
      OfKindHead(x, [], kind);
    } else {
      assert s == [s[0]] + s[1..] && s + [x] == [s[0]] + (s[1..] + [x]);
      OfKindHead(s[0], s[1..], kind);
      OfKindHead(s[0], s[1..] + [x], kind);
      OfKindSnoc(s[1..], x, kind);
    }
  }

  /** The filtered list has each artifact of the kind at its rank, and no others. */
  lemma {:induction false} OfKindByRank(s: seq<Artifact>, kind: ArtifactKind, n: nat)
    requires n <= |s|
    ensures |OfKind(s[..n], kind)| == Rank(s, kind, n)
    ensures forall i: nat :: i < n && s[i].kind == kind ==>
              Rank(s, kind, i) < Rank(s, kind, n) && OfKind(s[..n], kind)[Rank(s, kind, i)] == s[i]
  {
    if n > 0 {
      OfKindByRank(s, kind, n - 1);
      assert s[..n] == s[..n - 1] + [s[n - 1]];
      OfKindSnoc(s[..n - 1], s[n - 1], kind);
    }
  }

  lemma KindAt(s: seq<Artifact>, kind: ArtifactKind)
    ensures |OfKind(s, kind)| == Rank(s, kind, |s|)
    ensures forall i: nat :: i < |s| && s[i].kind == kind ==>
              Rank(s, kind, i) < Rank(s, kind, |s|) && OfKind(s, kind)[Rank(s, kind, i)] == s[i]
  {
    OfKindByRank(s, kind, |s|);
    assert s[..|s|] == s;
  }

  /** Every rank below the count is taken by some artifact. */
  lemma {:induction false} AtRank(s: seq<Artifact>, kind: ArtifactKind, n: nat, k: nat) returns (i: nat)
    requires n <= |s| && k < Rank(s, kind, n)
    ensures i < n && s[i].kind == kind && Rank(s, kind, i) == k
  {
    if k == Rank(s, kind, n - 1) { i := n - 1; } else { i := AtRank(s, kind, n - 1, k); }
  }

  /** The payloads of one kind, in the order of the artifacts. */
  predicate ListsKind(payloads: seq<Payload>, s: seq<Artifact>, kind: ArtifactKind) {
    && |payloads| == Rank(s, kind, |s|)
    && forall i: nat :: i < |s| && s[i].kind == kind ==>
         Rank(s, kind, i) < |payloads| && payloads[Rank(s, kind, i)] == s[i].payload
  }

  lemma PayloadsOfKind(payloads: seq<Payload>, s: seq<Artifact>, kind: ArtifactKind)
    ensures payloads == Payloads(OfKind(s, kind)) <==> ListsKind(payloads, s, kind)
  {
    KindAt(s, kind);
    if ListsKind(payloads, s, kind) {
      forall k: nat | k < |payloads| ensures payloads[k] == Payloads(OfKind(s, kind))[k] {
        var i := AtRank(s, kind, |s|, k);
      }
    }
  }

  /** The one artifact of its kind. */
  predicate Sole(s: seq<Artifact>, kind: ArtifactKind, i: nat) {
    i < |s| && s[i].kind == kind && forall j: nat :: j < |s| && s[j].kind == kind ==> j == i
  }

  lemma SoleOfKind(s: seq<Artifact>, kind: ArtifactKind, i: nat)
    requires Sole(s, kind, i)
    ensures OfKind(s, kind) == [s[i]]
  {
    KindAt(s, kind);
    if Rank(s, kind, |s|) > 1 {
      var a := AtRank(s, kind, |s|, 0);
      var b := AtRank(s, kind, |s|, 1);
    }
  }

  lemma OneOfKind(s: seq<Artifact>, kind: ArtifactKind) returns (i: nat)
    requires |OfKind(s, kind)| == 1
    ensures Sole(s, kind, i)
  {
    KindAt(s, kind);
    i := AtRank(s, kind, |s|, 0);
    forall j: nat | j < |s| && s[j].kind == kind ensures j == i {
      RankGrows(s, kind, if j < i then j else i, if j < i then i else j);
    }
  }

  lemma {:induction false} RankGrows(s: seq<Artifact>, kind: ArtifactKind, i: nat, j: nat)
    requires i <= j <= |s|
    ensures Rank(s, kind, i) + (if i < j && s[i].kind == kind then 1 else 0) <= Rank(s, kind, j)
  {
    if i < j {
      RankGrows(s, kind, i, j - 1);
    }
  }

  /** The last artifact of its kind. */
  predicate Last(s: seq<Artifact>, kind: ArtifactKind, i: nat) {
    i < |s| && s[i].kind == kind && forall j: nat :: j < |s| && s[j].kind == kind ==> j <= i
  }

  lemma LastOfKind(s: seq<Artifact>, kind: ArtifactKind, i: nat)
    requires Last(s, kind, i)
    ensures |OfKind(s, kind)| > 0 && OfKind(s, kind)[|OfKind(s, kind)| - 1] == s[i]
  {
    KindAt(s, kind);
    var k := AtRank(s, kind, |s|, Rank(s, kind, |s|) - 1);
    RankGrows(s, kind, k, i);
    RankGrows(s, kind, i, |s|);
  }

  lemma SomeLast(s: seq<Artifact>, kind: ArtifactKind) returns (i: nat)
    requires |OfKind(s, kind)| > 0
    ensures Last(s, kind, i)
  {
    KindAt(s, kind);
    i := AtRank(s, kind, |s|, Rank(s, kind, |s|) - 1);
    forall j: nat | j < |s| && s[j].kind == kind ensures j <= i {
      RankGrows(s, kind, i, if j > i then j else i);
      RankGrows(s, kind, j, |s|);
    }
  }

  lemma FramesByRank(s: seq<Artifact>)
    ensures FramesOk(OfKind(s, FrameCommitment)) <==> FramesNumbered(s)
  {
    KindAt(s, FrameCommitment);
    var frames := OfKind(s, FrameCommitment);
    if FramesNumbered(s) {
      forall k: nat | k < |frames|
        ensures frames[k].payload.FrameBytes? && frames[k].payload.sequence == k + 1 && frames[k].frameSequence == Some(k + 1)
      {
        var i := AtRank(s, FrameCommitment, |s|, k);
      }
    }
  }

  /** The frames are numbered 1, 2, ... in the order of the artifacts. */
  predicate FramesNumbered(s: seq<Artifact>) {
    forall i: nat :: i < |s| && s[i].kind == FrameCommitment ==>
      && s[i].payload.FrameBytes? && s[i].payload.sequence == Rank(s, FrameCommitment, i) + 1
      && s[i].frameSequence == Some(s[i].payload.sequence)
  }

  // ----------------------------------------------------------- public chunks

  /** Maya's chunks come first, and the proposal lists exactly these. */
  predicate MayaFirst(chunks: seq<PublicReplyChunk>, proposed: seq<PublicReplyChunk>) {
    && proposed <= chunks
    && (forall i :: 0 <= i < |proposed| ==> chunks[i].author == Maya)
    && (forall i :: |proposed| <= i < |chunks| ==> chunks[i].author == AuthenticatedSystem)
  }

  lemma {:induction false} BySplit(chunks: seq<PublicReplyChunk>, n: nat)
    requires n <= |chunks|
    requires forall i :: 0 <= i < n ==> chunks[i].author == Maya
    requires forall i :: n <= i < |chunks| ==> chunks[i].author == AuthenticatedSystem
    ensures By(chunks, Maya) == chunks[..n] && By(chunks, AuthenticatedSystem) == chunks[n..]
  {
    if chunks != [] {
      BySplit(chunks[1..], if n > 0 then n - 1 else 0);
      assert chunks == [chunks[0]] + chunks[1..];
      if n > 0 {
        assert chunks[..n] == [chunks[0]] + chunks[1..][..n - 1] && chunks[n..] == chunks[1..][n - 1..];
      } else {
        assert chunks[..0] == [] && chunks[1..][..0] == [] && chunks[1..][0..] == chunks[1..];
      }
    }
  }

  lemma {:induction false} ByAuthors(chunks: seq<PublicReplyChunk>, author: Author)
    ensures forall i :: 0 <= i < |By(chunks, author)| ==> By(chunks, author)[i].author == author
  {
    if chunks != [] { ByAuthors(chunks[1..], author); }
  }

  lemma MayaFirstIs(chunks: seq<PublicReplyChunk>, proposed: seq<PublicReplyChunk>)
    ensures proposed == By(chunks, Maya) && chunks == By(chunks, Maya) + By(chunks, AuthenticatedSystem) <==>
              MayaFirst(chunks, proposed)
  {
    ByAuthors(chunks, Maya);
    ByAuthors(chunks, AuthenticatedSystem);
    if MayaFirst(chunks, proposed) { BySplit(chunks, |proposed|); }
  }

  // --------------------------------------------------------------- the graph

  /** What the proposal `p`, the closure `c` and the last frame `last` say of one another. */
  predicate ProposalAgrees(r: TurnReceipt, p: Proposal, proposal: Artifact, c: Closure, closure: Artifact, last: Artifact)
    requires last.payload.FrameBytes?
  {
    && p.turn == r.turn && c.turn == r.turn && p.intent == c.intent && p.route == c.route && p.replyType == c.replyType
    && p.closureHash == closure.hash && p.finalCommitmentHash == last.hash
    && p.finalSeq == r.finalSeq && c.finalSeq == r.finalSeq && last.payload.sequence == r.finalSeq
    && p.finalMac == r.transcriptMac && p.runtimeGraphDigest == r.graphDigest && proposal.hash == r.mayaProposalHash
    && (proposal.frameReference.Some? ==>
          proposal.frameReference == Some(last.hash) && p.projectionHash == Some(r.projectionDigest))
  }

  /** The proposal lists each kind of artifact in order, and the reads are the receipt's. */
  predicate ProposalLists(r: TurnReceipt, p: Proposal, s: seq<Artifact>) {
    && ListsKind(p.readRows, s, ReadObservation) && ListsKind(p.facts, s, FactArtifact)
    && ListsKind(p.tools, s, ToolProposal) && ListsKind(p.learning, s, LearningProposal)
    && |p.readRows| == |r.readRows| && forall i :: 0 <= i < |r.readRows| ==> p.readRows[i] == r.readRows[i].1
  }

  predicate ChunksAgree(r: TurnReceipt, p: Proposal, chunks: seq<PublicReplyChunk>, closure: Artifact) {
    && MayaFirst(chunks, p.chunks)
    && |chunks| == |r.chunks| && (forall i :: 0 <= i < |chunks| ==> r.chunks[i].2 == chunks[i])
    && forall i :: 0 <= i < |chunks| ==>
         chunks[i].ordinal == i && chunks[i].turn == r.turn && chunks[i].closureHash == closure.hash
  }

  predicate RowsListed(rows: seq<(Id, Digest)>, commands: seq<Command>) {
    && |rows| == |commands|
    && forall i :: 0 <= i < |commands| ==> rows[i] == (commands[i].commandId, CommandDigest(Canonical(commands[i])))
  }

  predicate DecisionAgrees(r: TurnReceipt, decision: Artifact, expected: Option<BoundaryCommit>) {
    && decision.hash == r.kernelDecisionHash
    && match decision.payload
       case CommitmentBytes(stateHash, version, rows) =>
         && version >= 1 && (forall i, j :: 0 <= i < j < |rows| ==> rows[i].0 != rows[j].0)
         && stateHash == r.stateHash && version == r.stateVersion && rows == r.commandRows
         && (expected.Some? ==>
               StateDigest(expected.value.state) == stateHash && expected.value.state.version == version
               && RowsListed(rows, expected.value.commands))
       case DecisionBytes(d) =>
         && StateDigest(d.state) == r.stateHash && d.state.version == r.stateVersion && RowsListed(r.commandRows, d.commands)
         && (expected.Some? ==> d.state == expected.value.state && d.commands == expected.value.commands)
       case _ => false
  }

  /** The artifacts form the graph, with the closure at `a`, the proposal at `b`, the
      decision at `d` and the last frame at `f`. */
  predicate GraphAt(r: TurnReceipt, s: seq<Artifact>, chunks: seq<PublicReplyChunk>, expected: Option<BoundaryCommit>,
                    a: nat, b: nat, d: nat, f: nat)
  {
    && Sole(s, MayaClosure, a) && Sole(s, MayaProposal, b) && Sole(s, KernelDecision, d) && Last(s, FrameCommitment, f)
    && (forall i :: 0 <= i < |s| ==> s[i].hash == ArtifactDigest(s[i].kind, s[i].payload))
    && FramesNumbered(s) && s[a].payload.ClosureBytes? && s[b].payload.ProposalBytes?
    && var p := s[b].payload.proposal;
       && ProposalAgrees(r, p, s[b], s[a].payload.closure, s[a], s[f]) && ProposalLists(r, p, s)
       && ChunksAgree(r, p, chunks, s[a]) && DecisionAgrees(r, s[d], expected)
  }

  lemma DecisionIs(r: TurnReceipt, decision: Artifact, expected: Option<BoundaryCommit>)
    ensures DecisionOk(r, decision, expected) <==> DecisionAgrees(r, decision, expected)
  {
    match decision.payload
    case CommitmentBytes(stateHash, version, rows) =>
      DistinctIds(rows);
      if expected.Some? { ListedRows(rows, expected.value.commands); }
    case DecisionBytes(d) => ListedRows(r.commandRows, d.commands);
    case _ =>
  }

  lemma DistinctIds(rows: seq<(Id, Digest)>)
    ensures Distinct(Ids(rows)) <==> forall i, j :: 0 <= i < j < |rows| ==> rows[i].0 != rows[j].0
  {
    if Distinct(Ids(rows)) {
      forall i, j | 0 <= i < j < |rows| ensures rows[i].0 != rows[j].0 {
        assert Ids(rows)[i] != Ids(rows)[j];
      }
    }
  }

  lemma ListedRows(rows: seq<(Id, Digest)>, commands: seq<Command>)
    ensures rows == CommandRowsOf(commands) <==> RowsListed(rows, commands)
  {
    if RowsListed(rows, commands) { assert rows == CommandRowsOf(commands); }
  }

  lemma ProposalIs(r: TurnReceipt, s: seq<Artifact>, chunks: seq<PublicReplyChunk>, proposal: Artifact, closure: Artifact,
                   last: Artifact)
    requires proposal.payload.ProposalBytes? && closure.payload.ClosureBytes? && last.payload.FrameBytes?
    ensures var p := proposal.payload.proposal;
            ProposalOk(r, s, chunks, proposal, closure, last) <==>
              && ProposalAgrees(r, p, proposal, closure.payload.closure, closure, last) && ProposalLists(r, p, s)
              && MayaFirst(chunks, p.chunks)
              && |chunks| == |r.chunks| && (forall i :: 0 <= i < |chunks| ==> r.chunks[i].2 == chunks[i])
  {
    var p := proposal.payload.proposal;
    PayloadsOfKind(p.readRows, s, ReadObservation);
    PayloadsOfKind(p.facts, s, FactArtifact);
    PayloadsOfKind(p.tools, s, ToolProposal);
    PayloadsOfKind(p.learning, s, LearningProposal);
    MayaFirstIs(chunks, p.chunks);
    ReadsAre(r, p);
    ChunksAre(r, chunks);
  }

  lemma ReadsAre(r: TurnReceipt, p: Proposal)
    ensures p.readRows == ReceiptReads(r) <==>
              |p.readRows| == |r.readRows| && forall i :: 0 <= i < |r.readRows| ==> p.readRows[i] == r.readRows[i].1
  {
  }

  lemma ChunksAre(r: TurnReceipt, chunks: seq<PublicReplyChunk>)
    ensures chunks == ReceiptChunks(r) <==>
              |chunks| == |r.chunks| && forall i :: 0 <= i < |chunks| ==> r.chunks[i].2 == chunks[i]
  {
  }

  ghost predicate HasGraph(r: TurnReceipt, s: seq<Artifact>, chunks: seq<PublicReplyChunk>, expected: Option<BoundaryCommit>) {
    exists a: nat, b: nat, d: nat, f: nat :: GraphAt(r, s, chunks, expected, a, b, d, f)
  }

  /** The graph check by positions: it passes exactly when there is one closure, one
      proposal and one decision, some last frame, and they agree with each other, with
      the artifacts of every kind in their order, with the chunks and with the receipt. */
  lemma GraphIs(r: TurnReceipt, s: seq<Artifact>, chunks: seq<PublicReplyChunk>, expected: Option<BoundaryCommit>)
    ensures GraphOk(r, s, chunks, expected) <==> HasGraph(r, s, chunks, expected)
  {
    if GraphOk(r, s, chunks, expected) {
      var a, b, d, f := GraphHasPositions(r, s, chunks, expected);
    } else {
      forall a: nat, b: nat, d: nat, f: nat ensures !GraphAt(r, s, chunks, expected, a, b, d, f) {
        if GraphAt(r, s, chunks, expected, a, b, d, f) { PositionsMakeGraph(r, s, chunks, expected, a, b, d, f); }
      }
    }
  }

  lemma GraphHasPositions(r: TurnReceipt, s: seq<Artifact>, chunks: seq<PublicReplyChunk>, expected: Option<BoundaryCommit>)
    returns (a: nat, b: nat, d: nat, f: nat)
    requires GraphOk(r, s, chunks, expected)
    ensures GraphAt(r, s, chunks, expected, a, b, d, f)
  {
    a := OneOfKind(s, MayaClosure);
    b := OneOfKind(s, MayaProposal);
    d := OneOfKind(s, KernelDecision);
    f := SomeLast(s, FrameCommitment);
    SoleOfKind(s, MayaClosure, a);
    SoleOfKind(s, MayaProposal, b);
    SoleOfKind(s, KernelDecision, d);
    LastOfKind(s, FrameCommitment, f);
    FramesByRank(s);
    DecisionIs(r, s[d], expected);
    ProposalIs(r, s, chunks, s[b], s[a], s[f]);
  }

  lemma PositionsMakeGraph(r: TurnReceipt, s: seq<Artifact>, chunks: seq<PublicReplyChunk>, expected: Option<BoundaryCommit>,
                           a: nat, b: nat, d: nat, f: nat)
    requires GraphAt(r, s, chunks, expected, a, b, d, f)
    ensures GraphOk(r, s, chunks, expected)
  {
    SoleOfKind(s, MayaClosure, a);
    SoleOfKind(s, MayaProposal, b);
    SoleOfKind(s, KernelDecision, d);
    LastOfKind(s, FrameCommitment, f);
    FramesByRank(s);
    DecisionIs(r, s[d], expected);
    ProposalIs(r, s, chunks, s[b], s[a], s[f]);
  }

  // ------------------------------------------------------------ the arguments

  /** The receipt lists the reads among the artifacts, in order. */
  predicate ReadsListed(r: TurnReceipt, s: seq<Artifact>) {
    && |r.readRows| == Rank(s, ReadObservation, |s|)
    && forall i: nat :: i < |s| && s[i].kind == ReadObservation ==>
         Rank(s, ReadObservation, i) < |r.readRows|
         && r.readRows[Rank(s, ReadObservation, i)] == (s[i].artifactId, s[i].payload, s[i].hash)
  }

  lemma ReadsAreListed(r: TurnReceipt, s: seq<Artifact>)
    ensures r.readRows == ReadRows(s) <==> ReadsListed(r, s)
  {
    KindAt(s, ReadObservation);
    if ReadsListed(r, s) {
      forall k: nat | k < |r.readRows| ensures r.readRows[k] == ReadRows(s)[k] {
        var i := AtRank(s, ReadObservation, |s|, k);
      }
    }
  }

  predicate RelayListed(w: TurnWrite, i: nat) {
    && i < |w.relays| == |w.receipt.relayRows|
    && w.receipt.relayRows[i].0 == w.relays[i].relayId && w.receipt.relayRows[i].1 == w.relays[i].bundleHash
  }

  predicate JobListed(w: TurnWrite, i: nat) {
    && i < |w.jobs| == |w.receipt.jobRows|
    && w.receipt.jobRows[i].0 == w.jobs[i].jobId && w.receipt.jobRows[i].1 == w.jobs[i].artifactHash
  }

  predicate ChunkListed(w: TurnWrite, i: nat) {
    && i < |w.rows| == |w.receipt.chunks|
    && var c, p := w.receipt.chunks[i], w.rows[i];
       c.0 == p.rowId && c.1 == p.chunk.ordinal && c.2 == p.chunk && c.3 == ChunkDigest(p.chunk)
  }

  /** The relay belongs to a command of the commit. */
  predicate HasCommand(w: TurnWrite, i: nat)
    requires i < |w.relays|
  {
    exists j :: 0 <= j < |w.commit.commands| && w.commit.commands[j].commandId == w.relays[i].commandId
  }

  /** The receipt lists relays and jobs with their hashes. */
  predicate QueuesListed(w: TurnWrite) {
    && |w.receipt.relayRows| == |w.relays| && (forall i: nat :: i < |w.relays| ==> RelayListed(w, i) && HasCommand(w, i))
    && |w.receipt.jobRows| == |w.jobs| && (forall i: nat :: i < |w.jobs| ==> JobListed(w, i))
  }

  /** And the chunks, which are this turn's and carry the receipt's digests. */
  predicate ChunksListed(w: TurnWrite) {
    && |w.receipt.chunks| == |w.rows| && (forall i: nat :: i < |w.rows| ==> ChunkListed(w, i))
    && forall i :: 0 <= i < |w.rows| ==>
         w.rows[i].chunk.turn == w.receipt.turn
         && w.rows[i].terms.capabilityDigest == w.receipt.capabilityDigest
         && w.rows[i].effectiveDigest == w.receipt.effectiveDigest
  }

  predicate HeadBinds(w: TurnWrite) {
    && w.receipt.committedAt == w.committedAt && w.receipt.stateVersion == w.commit.state.version
    && w.receipt.stateHash == StateDigest(w.commit.state)
    && (forall i, j :: 0 <= i < j < |w.commit.commands| ==> w.commit.commands[i].commandId != w.commit.commands[j].commandId)
    && (forall i, j :: 0 <= i < j < |w.artifacts| ==> w.artifacts[i].artifactId != w.artifacts[j].artifactId)
  }

  lemma RelayRowsAre(w: TurnWrite)
    ensures w.receipt.relayRows == RelayRows(w.relays) <==>
              |w.receipt.relayRows| == |w.relays| && forall i: nat :: i < |w.relays| ==> RelayListed(w, i)
  {
    var listed := RelayRows(w.relays);
    if |w.receipt.relayRows| == |w.relays| && forall i: nat :: i < |w.relays| ==> RelayListed(w, i) {
      forall i: nat | i < |listed| ensures w.receipt.relayRows[i] == listed[i] { assert RelayListed(w, i); }
      assert w.receipt.relayRows == listed;
    }
  }

  lemma JobRowsAre(w: TurnWrite)
    ensures w.receipt.jobRows == JobRows(w.jobs) <==>
              |w.receipt.jobRows| == |w.jobs| && forall i: nat :: i < |w.jobs| ==> JobListed(w, i)
  {
    var listed := JobRows(w.jobs);
    if |w.receipt.jobRows| == |w.jobs| && forall i: nat :: i < |w.jobs| ==> JobListed(w, i) {
      forall i: nat | i < |listed| ensures w.receipt.jobRows[i] == listed[i] { assert JobListed(w, i); }
      assert w.receipt.jobRows == listed;
    }
  }

  lemma ChunkRowsAre(w: TurnWrite)
    ensures w.receipt.chunks == ChunkRows(w.rows) <==>
              |w.receipt.chunks| == |w.rows| && forall i: nat :: i < |w.rows| ==> ChunkListed(w, i)
  {
    var listed := ChunkRows(w.rows);
    if |w.receipt.chunks| == |w.rows| && forall i: nat :: i < |w.rows| ==> ChunkListed(w, i) {
      forall i: nat | i < |listed| ensures w.receipt.chunks[i] == listed[i] { assert ChunkListed(w, i); }
      assert w.receipt.chunks == listed;
    }
  }

  lemma CommandsAreCommitted(w: TurnWrite)
    ensures (forall i: nat :: i < |w.relays| ==> HasCommand(w, i)) <==>
              forall i :: 0 <= i < |w.relays| ==> IsCommitted(w.relays[i].commandId, w.commit.commands)
  {
    forall i: nat | i < |w.relays| ensures HasCommand(w, i) <==> IsCommitted(w.relays[i].commandId, w.commit.commands) {}
  }

  predicate QueuesBind(w: TurnWrite) {
    && w.receipt.relayRows == RelayRows(w.relays) && w.receipt.jobRows == JobRows(w.jobs)
    && forall i :: 0 <= i < |w.relays| ==> IsCommitted(w.relays[i].commandId, w.commit.commands)
  }

  predicate ChunksBind(w: TurnWrite) {
    && w.receipt.chunks == ChunkRows(w.rows)
    && forall i :: 0 <= i < |w.rows| ==>
         w.rows[i].chunk.turn == w.receipt.turn
         && w.rows[i].terms.capabilityDigest == w.receipt.capabilityDigest
         && w.rows[i].effectiveDigest == w.receipt.effectiveDigest
  }

  lemma QueuesBindIs(w: TurnWrite)
    ensures QueuesBind(w) <==> QueuesListed(w)
  {
    RelayRowsAre(w);
    JobRowsAre(w);
    CommandsAreCommitted(w);
  }

  lemma ChunksBindIs(w: TurnWrite)
    ensures ChunksBind(w) <==> ChunksListed(w)
  {
    ChunkRowsAre(w);
  }

  lemma BindingParts(w: TurnWrite)
    ensures ReceiptBinds(w) <==>
              && HeadBinds(w)
              && w.receipt.commandRows == CommandRowsOf(w.commit.commands) && w.receipt.readRows == ReadRows(w.artifacts)
              && QueuesBind(w) && ChunksBind(w)
              && GraphOk(w.receipt, w.artifacts, ChunksOf(w.rows), Some(w.commit))
  {
  }

  ghost predicate ArgumentsBind(w: TurnWrite) {
    && HeadBinds(w) && RowsListed(w.receipt.commandRows, w.commit.commands) && ReadsListed(w.receipt, w.artifacts)
    && QueuesListed(w) && ChunksListed(w)
    && HasGraph(w.receipt, w.artifacts, ChunksOf(w.rows), Some(w.commit))
  }

  /** The receipt binds the arguments exactly when it lists each of them at its place
      and the artifacts form the graph. */
  lemma BindingIs(w: TurnWrite)
    ensures ReceiptBinds(w) <==> ArgumentsBind(w)
  {
    BindingParts(w);
    ListedRows(w.receipt.commandRows, w.commit.commands);
    ReadsAreListed(w.receipt, w.artifacts);
    QueuesBindIs(w);
    ChunksBindIs(w);
    GraphIs(w.receipt, w.artifacts, ChunksOf(w.rows), Some(w.commit));
  }

  lemma PreCheckParts(w: TurnWrite)
    ensures PreCheck(w).None? <==>
              && (forall i, j :: 0 <= i < j < |w.superseded| ==> w.superseded[i] != w.superseded[j])
              && |w.commit.facts| == 0 && |w.commit.outbox| == 0 && w.commit.state.version == w.expected + 1
              && ReceiptBinds(w)
  {
  }

  /** The checks before the transaction: a commit of the next version, without facts and
      messages, that names each superseded turn once and whose receipt binds it. */
  lemma ArgumentsAccepted(w: TurnWrite)
    ensures PreCheck(w).None? <==>
              && (forall i, j :: 0 <= i < j < |w.superseded| ==> w.superseded[i] != w.superseded[j])
              && |w.commit.facts| == 0 && |w.commit.outbox| == 0 && w.commit.state.version == w.expected + 1
              && ArgumentsBind(w)
  {
    PreCheckParts(w);
    BindingIs(w);
  }
}
