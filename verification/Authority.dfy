/** Effect allocations: the matrix one row must satisfy, and the ordering and
    parent rules of a whole manifest. */
module Authority {
  import opened Text
  import opened Ordering

  datatype Target = Boundary | Followup | Reservation

  datatype Family = ReservationEffect | PaymentEffect | HandoffDelivery | PaymentDelivery | PublicDelivery

  datatype Kind = ProviderPrimary | ProviderCompensation | ExternalMessage | PublicChunk

  datatype Role = Primary | Compensation | NoRole

  datatype Parent = NoParent | ProviderAllocation(id: string) | InternalOperation(id: string)

  datatype Row = Row(
    target: Target, scenario: string, generation: string, id: string, ordinal: nat,
    family: Family, kind: Kind, role: Role,
    workflowScoped: bool, channelScoped: bool, messageOrdinal: bool, parent: Parent)

  function TargetText(t: Target): string {
    match t
    case Boundary => "boundary_dispatch_authority"
    case Followup => "followup_e2e_effect_authority"
    case Reservation => "reservation_e2e_effect_authority"
  }

  function TargetOf(f: Family): Target {
    match f
    case PublicDelivery => Boundary
    case ReservationEffect => Reservation
    case _ => Followup
  }

  /** The matrix of `EffectAllocationRow`. */
  predicate RowOk(r: Row) {
    && r.target == TargetOf(r.family)
    && match r.family
       case PublicDelivery =>
         r.kind == PublicChunk && r.role == NoRole && !r.workflowScoped && r.channelScoped && r.messageOrdinal
         && r.parent == NoParent
       case HandoffDelivery =>
         r.kind == ExternalMessage && r.role == NoRole && r.workflowScoped && r.channelScoped && !r.messageOrdinal
         && r.parent.InternalOperation?
       case PaymentDelivery =>
         r.kind == ExternalMessage && r.role == NoRole && r.workflowScoped && r.channelScoped && !r.messageOrdinal
         && r.parent.ProviderAllocation?
       case _ =>
         r.workflowScoped && !r.channelScoped && !r.messageOrdinal
         && match r.role
            case Primary => r.kind == ProviderPrimary && r.parent == NoParent
            case Compensation => r.kind == ProviderCompensation && r.parent.ProviderAllocation?
            case NoRole => false
  }

  /** The tuple order of (target, scenario, generation, ordinal, id). */
  predicate Before(a: Row, b: Row) {
    if a.target != b.target then Less(TargetText(a.target), TargetText(b.target))
    else if a.scenario != b.scenario then Less(a.scenario, b.scenario)
    else if a.generation != b.generation then Less(a.generation, b.generation)
    else if a.ordinal != b.ordinal then a.ordinal < b.ordinal
    else Less(a.id, b.id)
  }

  predicate ParentPrecedes(rows: seq<Row>, i: nat)
    requires i < |rows|
  {
    rows[i].parent == NoParent || exists k :: 0 <= k < i && rows[k].id == rows[i].parent.id
  }

  /** The rules of `ExactEffectAllocationManifest`. */
  predicate ManifestOk(rows: seq<Row>) {
    && rows != []
    && (forall i :: 0 <= i < |rows| ==> RowOk(rows[i]))
    && (forall i, k :: 0 <= i < k < |rows| ==> !Before(rows[k], rows[i]))
    && (forall i, k :: 0 <= i < k < |rows| ==> rows[i].id != rows[k].id)
    && (forall i :: 0 <= i < |rows| ==> ParentPrecedes(rows, i))
  }

  // ---------------------------------------------------------------- parents

  /** Row `k` is row `i` or one of its ancestors. */
  predicate Ancestor(rows: seq<Row>, k: nat, i: nat)
    decreases i
  {
    i < |rows| && (k == i || (rows[i].parent != NoParent && exists p :: 0 <= p < i && rows[p].id == rows[i].parent.id
                                                                       && Ancestor(rows, k, p)))
  }

  /** Every allocation's chain of parents ends, in a primary provider allocation
      or a public chunk: nothing else can stand without a cause. */
  lemma {:induction false} ChainEndsInRoot(rows: seq<Row>, i: nat) returns (root: nat)
    requires ManifestOk(rows) && i < |rows|
    ensures root <= i && Ancestor(rows, root, i) && rows[root].parent == NoParent
    ensures rows[root].kind == ProviderPrimary || rows[root].kind == PublicChunk
  {
    assert RowOk(rows[i]) && ParentPrecedes(rows, i);
    if rows[i].parent == NoParent {
      root := i;
    } else {
      var p :| 0 <= p < i && rows[p].id == rows[i].parent.id;
      root := ChainEndsInRoot(rows, p);
    }
  }

  lemma TargetsInOrder()
    ensures Less(TargetText(Boundary), TargetText(Followup)) && Less(TargetText(Followup), TargetText(Reservation))
    ensures Less(TargetText(Boundary), TargetText(Reservation))
    ensures !Less(TargetText(Followup), TargetText(Boundary)) && !Less(TargetText(Reservation), TargetText(Followup))
  {
    assert TargetText(Boundary)[0] == 'b' && TargetText(Followup)[0] == 'f' && TargetText(Reservation)[0] == 'r';
  }

  /** Because targets sort before ordinals, the cause of a follow-up effect is never
      a reservation effect: every ancestor of a follow-up row is a follow-up or a
      boundary row. */
  lemma {:induction false} FollowupNeverFromReservation(rows: seq<Row>, k: nat, i: nat)
    requires ManifestOk(rows) && Ancestor(rows, k, i) && rows[i].target != Reservation
    ensures k < |rows| && rows[k].target != Reservation
    decreases i
  {
    if k != i {
      var p :| 0 <= p < i && rows[p].id == rows[i].parent.id && Ancestor(rows, k, p);
      TargetsInOrder();
      assert !Before(rows[i], rows[p]);
      FollowupNeverFromReservation(rows, k, p);
    }
  }

  // ----------------------------------------------------- the matrix by column

  /** What each column of an accepted row says, whatever its family. */
  predicate ColumnsAgree(r: Row) {
    && (r.family == PublicDelivery <==> r.target == Boundary) && (r.family == ReservationEffect <==> r.target == Reservation)
    && (r.kind == PublicChunk <==> r.target == Boundary)
    && (r.kind == ExternalMessage <==> r.family in {HandoffDelivery, PaymentDelivery})
    && (r.kind == ProviderPrimary <==> r.role == Primary) && (r.kind == ProviderCompensation <==> r.role == Compensation)
    && (r.workflowScoped <==> r.target != Boundary) && (r.messageOrdinal <==> r.target == Boundary)
    && (r.channelScoped <==> r.role == NoRole)
    && (r.parent.NoParent? <==> r.kind in {PublicChunk, ProviderPrimary})
    && (r.parent.InternalOperation? <==> r.family == HandoffDelivery)
  }

  /** The matrix accepts a row exactly when its columns agree: only boundary rows
      number messages and only they are outside a workflow, exactly the provider
      effects have a role and no channel, and exactly the primary effects and the
      chunks stand without a parent. */
  lemma MatrixByColumn(r: Row)
    ensures RowOk(r) <==> ColumnsAgree(r)
  {
  }

  function Rank(t: Target): nat {
    match t
    case Boundary => 0
    case Followup => 1
    case Reservation => 2
  }

  /** Two rows of a manifest stand in the order of their first differing column:
      boundary rows first and reservation rows last, then scenario, generation,
      ordinal and identifier, all ascending. */
  lemma ManifestAscends(rows: seq<Row>, i: nat, k: nat)
    requires ManifestOk(rows) && i < k < |rows|
    ensures var a, b := rows[i], rows[k];
            && Rank(a.target) <= Rank(b.target)
            && (a.target == b.target ==> a.scenario == b.scenario || Less(a.scenario, b.scenario))
            && (a.target == b.target && a.scenario == b.scenario ==> a.generation == b.generation || Less(a.generation, b.generation))
            && (a.target == b.target && a.scenario == b.scenario && a.generation == b.generation ==>
                  a.ordinal < b.ordinal || (a.ordinal == b.ordinal && Less(a.id, b.id)))
  {
    var a, b := rows[i], rows[k];
    assert !Before(b, a) && a.id != b.id;
    TargetsInOrder();
    LessIsTotal(a.scenario, b.scenario);
    LessIsTotal(a.generation, b.generation);
    LessIsTotal(a.id, b.id);
  }

  // -------------------------------------------------------------- canonicity

  lemma BeforeIsTotal(a: Row, b: Row)
    ensures Before(a, b) || Before(b, a) || a.id == b.id
  {
    TargetsInOrder();
    LessIsTotal(a.scenario, b.scenario);
    LessIsTotal(a.generation, b.generation);
    LessIsTotal(a.id, b.id);
  }

  /** The next row of `a` stands in `b` at or after the common prefix. */
  lemma FoundLater(a: seq<Row>, b: seq<Row>, n: nat) returns (i: nat)
    requires Elements(a) == Elements(b) && Distinct(a) && n < |a| && n <= |b| && a[..n] == b[..n]
    ensures n <= i < |b| && b[i] == a[n]
  {
    assert a[n] in Elements(b);
    i :| i < |b| && b[i] == a[n];
    forall j: nat | j < n ensures b[j] != a[n] { assert b[j] == b[..n][j] == a[..n][j] == a[j]; }
  }

  lemma NextRowSame(a: seq<Row>, b: seq<Row>, n: nat)
    requires ManifestOk(a) && ManifestOk(b) && Elements(a) == Elements(b) && n < |a| == |b| && a[..n] == b[..n]
    ensures a[n] == b[n]
  {
    ManifestIsDistinct(a);
    ManifestIsDistinct(b);
    var i := FoundLater(a, b, n);
    var k := FoundLater(b, a, n);
    FirstOfBoth(a, b, n, i, k);
  }

  /** Each of the two rows stands before the other, so they are one. */
  lemma FirstOfBoth(a: seq<Row>, b: seq<Row>, n: nat, i: nat, k: nat)
    requires n <= i < |b| && n <= k < |a| && b[i] == a[n] && a[k] == b[n]
    requires forall j, l :: 0 <= j < l < |a| ==> !Before(a[l], a[j])
    requires forall j, l :: 0 <= j < l < |b| ==> !Before(b[l], b[j])
    requires forall j, l :: 0 <= j < l < |a| ==> a[j].id != a[l].id
    ensures a[n] == b[n]
  {
    if k > n {
      assert !Before(a[k], a[n]) && a[k].id != a[n].id;
      assert i > n ==> !Before(b[i], b[n]);
      BeforeIsTotal(a[n], b[n]);
    }
  }

  /** A manifest's rows are its set of rows in the one canonical order: two
      manifests with the same rows are the same sequence, hence the same bytes. */
  lemma {:induction false} SameRowsSameManifest(a: seq<Row>, b: seq<Row>, n: nat)
    requires ManifestOk(a) && ManifestOk(b) && Elements(a) == Elements(b) && n <= |a|
    ensures |a| == |b| && a[..n] == b[..n]
  {
    ManifestIsDistinct(a);
    ManifestIsDistinct(b);
    CountOfDistinct(a);
    CountOfDistinct(b);
    if n > 0 {
      SameRowsSameManifest(a, b, n - 1);
      NextRowSame(a, b, n - 1);
      OneMoreSame(a, b, n - 1);
    }
  }

  lemma ManifestIsDistinct(rows: seq<Row>)
    requires ManifestOk(rows)
    ensures Distinct(rows)
  {
    forall i, j | 0 <= i < j < |rows| ensures rows[i] != rows[j] { assert rows[i].id != rows[j].id; }
  }

  lemma OneMoreSame(a: seq<Row>, b: seq<Row>, n: nat)
    requires n < |a| && n < |b| && a[..n] == b[..n] && a[n] == b[n]
    ensures a[..n + 1] == b[..n + 1]
  {
    assert a[..n + 1] == a[..n] + [a[n]] && b[..n + 1] == b[..n] + [b[n]];
  }
}
