/** Memory proposals read back from the ledger, and the one decision each of them can receive. */
module Proposals {
  import opened Wrappers
  import opened Relational
  import opened Events
  import opened Context
  import C = EventContracts
  import L = Ledger
  import Memory

  datatype ProposalState = Pending | Accepted | Declined

  datatype Decided = Decided(event: EventId, at: int, actor: string)

  datatype Proposal = Proposal(
    id: EventId,
    state: ProposalState,
    target: Memory.RecordId,
    artifact: Ref,
    sourceName: string,
    createdAt: int,
    decision: Option<Decided>)

  // ---------- the projection ----------

  predicate IsReview(e: Event, proposal: EventId) {
    L.Reviews(e, proposal) && (e.eventType == Approval || e.eventType == Retraction)
  }

  // The last review of a proposal.
  function ReviewOf(rows: seq<L.Row>, proposal: EventId): Option<Event> {
    if |rows| == 0 then None
    else if IsReview(rows[|rows| - 1].event, proposal) then Some(rows[|rows| - 1].event)
    else ReviewOf(rows[..|rows| - 1], proposal)
  }

  predicate IsProposal(e: Event) {
    && e.eventType == MemoryProposal
    && e.payload.operation == ArtifactAssociation
    && e.payload.detail.AssociationDetail?
    && |e.refs| == 1
    && |e.parents| == 1
  }

  // A proposal says which record it is about, an import under which name it found its file, and a review what was
  // decided. The services write no events that leave it out; a direct writer of the ledger can.
  predicate NamesTarget(e: Event)
    requires IsProposal(e)
  {
    e.payload.detail.record.Some?
  }

  predicate NamesSource(imported: Event) {
    imported.payload.detail.ImportedDetail? || imported.payload.detail.ImportFailedDetail?
  }

  predicate Readable(review: Option<Event>) {
    review.Some? ==> review.value.payload.detail.ReviewDetail?
  }

  function SourceName(imported: Event): string
    requires NamesSource(imported)
  {
    match imported.payload.detail
    case ImportedDetail(_, name, _, _, _, _) => name
    case ImportFailedDetail(_, _, name) => name
  }

  function StateOf(review: Option<Event>): ProposalState
    requires Readable(review)
  {
    match review
    case None => Pending
    case Some(e) => if e.payload.detail.accepted then Accepted else Declined
  }

  function ProposalOf(e: Event, imported: Event, review: Option<Event>): Proposal
    requires IsProposal(e) && NamesTarget(e) && NamesSource(imported) && Readable(review)
  {
    Proposal(e.id, StateOf(review), e.payload.detail.record.value, e.refs[0], SourceName(imported), e.observedAt,
             if review.Some? then Some(Decided(review.value.id, review.value.observedAt, review.value.actor.name)) else None)
  }

  datatype Part = Nothing | Listed(proposal: Proposal) | Broken

  // What one row contributes to the projection of the whole ledger. A pending proposal that names no record, whose import
  // names no file, or whose review says nothing of a decision, breaks the projection.
  function Contribution(rows: seq<L.Row>, e: Event): Part {
    if !IsProposal(e) then Nothing else
    match L.ById(rows, e.parents[0])
    case None => Nothing
    case Some(imported) =>
      if imported.payload.operation != ArtifactImport then Nothing
      else if !NamesTarget(e) || !NamesSource(imported) || !Readable(ReviewOf(rows, e.id)) then Broken
      else Listed(ProposalOf(e, imported, ReviewOf(rows, e.id)))
  }

  function ProjectFirst(rows: seq<L.Row>, n: nat): Option<seq<Proposal>>
    requires n <= |rows|
  {
    if n == 0 then Some([]) else
    match ProjectFirst(rows, n - 1)
    case None => None
    case Some(rest) =>
      match Contribution(rows, rows[n - 1].event)
      case Nothing => Some(rest)
      case Listed(p) => Some(rest + [p])
      case Broken => None
  }

  function Project(rows: seq<L.Row>): Option<seq<Proposal>> {
    ProjectFirst(rows, |rows|)
  }

  function Find(ps: seq<Proposal>, id: EventId): Option<Proposal> {
    if |ps| == 0 then None else if ps[0].id == id then Some(ps[0]) else Find(ps[1..], id)
  }

  // Every event under its identity, and the last review of every proposal.
  method IndexEvents(rows: seq<L.Row>) returns (events: map<EventId, Event>, decisions: map<EventId, Event>)
    ensures forall id :: (if id in events then Some(events[id]) else None) == L.ById(rows, id)
    ensures forall id :: (if id in decisions then Some(decisions[id]) else None) == ReviewOf(rows, id)
  {
    events, decisions := map[], map[];
    for n := 0 to |rows|
      invariant forall id :: (if id in events then Some(events[id]) else None) == L.ById(rows[..n], id)
      invariant forall id :: (if id in decisions then Some(decisions[id]) else None) == ReviewOf(rows[..n], id)
    {
      var e := rows[n].event;
      assert rows[..n + 1][..n] == rows[..n];
      events := events[e.id := e];
      if e.payload.operation.AssociationReview? && e.payload.operation.proposal.Some?
        && (e.eventType == Approval || e.eventType == Retraction) {
        decisions := decisions[e.payload.operation.proposal.value := e];
      }
    }
    assert rows[..|rows|] == rows;
  }

  // The projection as it is computed: two dictionaries first, then one pass over the events.
  method ProjectProposals(rows: seq<L.Row>) returns (projected: Option<seq<Proposal>>)
    ensures projected == Project(rows)
  {
    var events, decisions := IndexEvents(rows);
    hide L.ById, ReviewOf;
    var proposals: seq<Proposal> := [];
    for n := 0 to |rows|
      invariant ProjectFirst(rows, n) == Some(proposals)
    {
      var e := rows[n].event;
      var review := if e.id in decisions then Some(decisions[e.id]) else None;
      assert review == ReviewOf(rows, e.id);
      if IsProposal(e) {
        assert (if e.parents[0] in events then Some(events[e.parents[0]]) else None) == L.ById(rows, e.parents[0]);
        if e.parents[0] in events && events[e.parents[0]].payload.operation == ArtifactImport {
          var imported := events[e.parents[0]];
          if !NamesTarget(e) || !NamesSource(imported) || !Readable(review) {
            assert ProjectFirst(rows, n + 1) == None;
            ProjectionGrows(rows, n + 1, |rows|);
            return None;
          }
          proposals := proposals + [ProposalOf(e, imported, review)];
        }
      }
    }
    projected := Some(proposals);
  }

  // ---------- what a longer ledger says ----------

  lemma {:induction false} ReviewFound(rows: seq<L.Row>, id: EventId)
    ensures ReviewOf(rows, id).None? <==> forall row :: row in rows ==> !IsReview(row.event, id)
    ensures ReviewOf(rows, id).Some? ==> IsReview(ReviewOf(rows, id).value, id) && exists row :: row in rows && row.event == ReviewOf(rows, id).value
  {
    if |rows| > 0 {
      ReviewFound(rows[..|rows| - 1], id);
      assert rows == rows[..|rows| - 1] + [rows[|rows| - 1]];
    }
  }

  // A sound ledger stores no two events of one identity and no two reviews of one proposal.
  lemma {:induction false} OneEvent(rows: seq<L.Row>, artifacts: set<Ref>, a: L.Row, b: L.Row)
    requires L.LedgerOk(rows, artifacts) && a in rows && b in rows
    ensures a.event.id == b.event.id ==> a == b
    ensures forall p :: L.Reviews(a.event, p) && L.Reviews(b.event, p) ==> a == b
  {
    hide L.RowOk, L.Reviews;
    var i :| 0 <= i < |rows| && rows[i] == a;
    var j :| 0 <= j < |rows| && rows[j] == b;
    if i < j {
      assert forall p :: L.Reviews(rows[i].event, p) ==> !L.Reviews(rows[j].event, p);
    } else if j < i {
      assert forall p :: L.Reviews(rows[j].event, p) ==> !L.Reviews(rows[i].event, p);
    }
  }

  lemma {:induction false} StoredEvent(rows: seq<L.Row>, artifacts: set<Ref>, row: L.Row)
    requires L.LedgerOk(rows, artifacts) && row in rows
    ensures L.ById(rows, row.event.id) == Some(row.event)
  {
    hide L.LedgerOk;
    L.IdLookup(rows, row.event.id);
    assert L.HasId(rows, row.event.id);
    var found :| found in rows && found.event == L.ById(rows, row.event.id).value;
    OneEvent(rows, artifacts, row, found);
  }

  lemma {:induction false} StoredReview(rows: seq<L.Row>, artifacts: set<Ref>, row: L.Row, proposal: EventId)
    requires L.LedgerOk(rows, artifacts) && row in rows && IsReview(row.event, proposal)
    ensures ReviewOf(rows, proposal) == Some(row.event)
  {
    hide L.LedgerOk;
    ReviewFound(rows, proposal);
    var found :| found in rows && found.event == ReviewOf(rows, proposal).value;
    OneEvent(rows, artifacts, row, found);
  }

  // What a sound ledger finds, every longer sound ledger finds.
  lemma {:induction false} FoundStays(rows: seq<L.Row>, later: seq<L.Row>, artifacts: set<Ref>, id: EventId)
    requires L.LedgerOk(later, artifacts) && rows <= later
    ensures L.ById(rows, id).Some? ==> L.ById(later, id) == L.ById(rows, id)
    ensures ReviewOf(rows, id).Some? ==> ReviewOf(later, id) == ReviewOf(rows, id)
  {
    hide L.LedgerOk;
    if L.ById(rows, id).Some? {
      L.IdLookup(rows, id);
      var row :| row in rows && row.event == L.ById(rows, id).value;
      assert row in later;
      StoredEvent(later, artifacts, row);
    }
    if ReviewOf(rows, id).Some? {
      ReviewFound(rows, id);
      var row :| row in rows && row.event == ReviewOf(rows, id).value;
      assert row in later;
      StoredReview(later, artifacts, row, id);
    }
  }

  // The same proposal, which may have been decided in between; a decided one is unchanged.
  predicate Advances(p: Proposal, q: Proposal) {
    && q.(state := p.state, decision := p.decision) == p
    && (p.decision.Some? ==> q == p)
  }

  lemma {:induction false} ContributionAdvances(rows: seq<L.Row>, later: seq<L.Row>, artifacts: set<Ref>, i: nat)
    requires L.LedgerOk(rows, artifacts) && L.LedgerOk(later, artifacts) && rows <= later && i < |rows|
    ensures var before, after := Contribution(rows, rows[i].event), Contribution(later, rows[i].event);
      && (before.Nothing? <==> after.Nothing?)
      && (before.Broken? ==> after.Broken?)
      && (after.Listed? ==> Advances(before.proposal, after.proposal))
  {
    var e := rows[i].event;
    if IsProposal(e) {
      ParentStored(rows, artifacts, i, e.parents[0]);
      L.IdLookup(rows, e.parents[0]);
      hide L.LedgerOk, IsProposal;
      FoundStays(rows, later, artifacts, e.parents[0]);
      FoundStays(rows, later, artifacts, e.id);
    }
  }

  lemma {:induction false} ParentStored(rows: seq<L.Row>, artifacts: set<Ref>, i: nat, p: EventId)
    requires L.LedgerOk(rows, artifacts) && i < |rows| && p in rows[i].event.parents
    ensures L.HasId(rows, p)
  {
    assert L.RowOk(rows, artifacts, i);
    var row :| row in rows[..i] && row.event.id == p;
    assert row in rows;
  }

  // The projection stays broken once it is, only grows at its end, and never changes a decided proposal.
  lemma {:induction false} ProjectionAdvances(rows: seq<L.Row>, later: seq<L.Row>, artifacts: set<Ref>, n: nat)
    requires L.LedgerOk(rows, artifacts) && L.LedgerOk(later, artifacts) && rows <= later && n <= |rows|
    ensures ProjectFirst(later, n).Some? ==>
      && ProjectFirst(rows, n).Some?
      && |ProjectFirst(rows, n).value| == |ProjectFirst(later, n).value|
      && forall k :: 0 <= k < |ProjectFirst(rows, n).value| ==> Advances(ProjectFirst(rows, n).value[k], ProjectFirst(later, n).value[k])
  {
    hide L.LedgerOk, Contribution, Advances;
    if n > 0 {
      ProjectionAdvances(rows, later, artifacts, n - 1);
      assert later[n - 1] == rows[n - 1];
      ContributionAdvances(rows, later, artifacts, n - 1);
    }
  }

  lemma {:induction false} ProjectionGrows(rows: seq<L.Row>, n: nat, m: nat)
    requires n <= m <= |rows|
    ensures ProjectFirst(rows, m).Some? ==> ProjectFirst(rows, n).Some? && ProjectFirst(rows, n).value <= ProjectFirst(rows, m).value
    decreases m
  {
    hide Contribution;
    if n < m { ProjectionGrows(rows, n, m - 1); }
  }

  lemma {:induction false} ResolvedNeverChanges(rows: seq<L.Row>, later: seq<L.Row>, artifacts: set<Ref>)
    requires L.LedgerOk(rows, artifacts) && L.LedgerOk(later, artifacts) && rows <= later
    ensures Project(later).Some? ==>
      && Project(rows).Some?
      && |Project(rows).value| <= |Project(later).value|
      && (forall k :: 0 <= k < |Project(rows).value| ==> Advances(Project(rows).value[k], Project(later).value[k]))
      && (forall p :: p in Project(rows).value && p.decision.Some? ==> p in Project(later).value)
  {
    hide L.LedgerOk, ProjectFirst;
    ProjectionAdvances(rows, later, artifacts, |rows|);
    ProjectionGrows(later, |rows|, |later|);
    if Project(later).Some? {
      assert forall k :: 0 <= k < |Project(rows).value| ==> Project(later).value[k] == ProjectFirst(later, |rows|).value[k];
    }
  }

  // ---------- what breaks the projection ----------

  lemma {:induction false} BrokenExactly(rows: seq<L.Row>, n: nat)
    requires n <= |rows|
    ensures ProjectFirst(rows, n).None? <==> exists i :: 0 <= i < n && Contribution(rows, rows[i].event).Broken?
  {
    hide Contribution;
    if n > 0 { BrokenExactly(rows, n - 1); }
  }

  // The proposals of the first rows, as the whole ledger shows them, are those rows' contributions.
  lemma {:induction false} ListedExactly(rows: seq<L.Row>, n: nat, p: Proposal)
    requires n <= |rows| && ProjectFirst(rows, n).Some?
    ensures p in ProjectFirst(rows, n).value <==> exists i :: 0 <= i < n && Contribution(rows, rows[i].event) == Listed(p)
  {
    hide Contribution;
    if n > 0 { ListedExactly(rows, n - 1, p); }
  }

  lemma {:induction false} IdOfRow(rows: seq<L.Row>, row: L.Row, id: EventId)
    ensures L.ById(rows + [row], id) == if row.event.id == id then Some(row.event) else L.ById(rows, id)
    ensures ReviewOf(rows + [row], id) == if IsReview(row.event, id) then Some(row.event) else ReviewOf(rows, id)
  {
    assert (rows + [row])[..|rows|] == rows;
  }

  // One more row breaks what an earlier row contributes exactly when it is an unreadable review of it.
  lemma {:induction false} EarlierBroken(rows: seq<L.Row>, row: L.Row, artifacts: set<Ref>, i: nat)
    requires L.LedgerOk(rows + [row], artifacts) && i < |rows| && !Contribution(rows, rows[i].event).Broken?
    ensures Contribution(rows + [row], rows[i].event).Broken? <==>
      && Contribution(rows, rows[i].event).Listed?
      && IsReview(row.event, Contribution(rows, rows[i].event).proposal.id) && !row.event.payload.detail.ReviewDetail?
  {
    var e := rows[i].event;
    if IsProposal(e) {
      PrefixOk(rows, row, artifacts);
      ParentStored(rows, artifacts, i, e.parents[0]);
      L.IdLookup(rows, e.parents[0]);
      IdOfRow(rows, row, e.id);
      FoundStays(rows, rows + [row], artifacts, e.parents[0]);
      hide L.LedgerOk, IsProposal, IsReview, NamesSource, L.ById, ReviewOf;
    }
  }

  lemma {:induction false} PrefixOk(rows: seq<L.Row>, row: L.Row, artifacts: set<Ref>)
    requires L.LedgerOk(rows + [row], artifacts)
    ensures L.LedgerOk(rows, artifacts)
  {
    hide L.Reviews, Memory.PortableToken, L.HasId;
    var all := rows + [row];
    forall i | 0 <= i < |rows|
      ensures L.RowOk(rows, artifacts, i)
    {
      assert L.RowOk(all, artifacts, i);
      assert all[..i] == rows[..i];
    }
    assert forall i :: 0 <= i < |rows| ==> all[i] == rows[i];
  }

  lemma {:induction false} LastBroken(rows: seq<L.Row>, row: L.Row, artifacts: set<Ref>)
    requires L.LedgerOk(rows + [row], artifacts)
    ensures Contribution(rows + [row], row.event).Broken? <==> Contribution(rows, row.event).Broken?
  {
    var e := row.event;
    if IsProposal(e) {
      var all := rows + [row];
      assert all[|rows|] == row && L.RowOk(all, artifacts, |rows|);
      assert all[|rows|].event.parents[0] in all[|rows|].event.parents;
      assert L.HasId(all[..|rows|], e.parents[0]);
      assert all[..|rows|] == rows;
      var cause :| cause in rows && cause.event.id == e.parents[0];
      var k :| 0 <= k < |rows| && rows[k] == cause;
      assert all[k].event.id != all[|rows|].event.id;
      IdOfRow(rows, row, e.parents[0]);
      IdOfRow(rows, row, e.id);
    }
  }

  // An appended event breaks a projection that was whole exactly when it is a review without a decision of a listed
  // proposal, or a proposal that is broken itself.
  lemma {:induction false} AppendBreaksExactly(rows: seq<L.Row>, row: L.Row, artifacts: set<Ref>)
    requires L.LedgerOk(rows + [row], artifacts) && Project(rows).Some?
    ensures Project(rows + [row]).None? <==>
      || Contribution(rows, row.event).Broken?
      || exists p :: p in Project(rows).value && IsReview(row.event, p.id) && !row.event.payload.detail.ReviewDetail?
  {
    hide L.LedgerOk, Contribution, ProjectFirst, IsReview;
    var all := rows + [row];
    BrokenExactly(rows, |rows|);
    BrokenExactly(all, |all|);
    LastBroken(rows, row, artifacts);
    assert all[|rows|] == row;
    forall i | 0 <= i < |rows|
      ensures all[i] == rows[i]
      ensures Contribution(all, rows[i].event).Broken? <==>
        && Contribution(rows, rows[i].event).Listed?
        && IsReview(row.event, Contribution(rows, rows[i].event).proposal.id) && !row.event.payload.detail.ReviewDetail?
      ensures Contribution(rows, rows[i].event).Listed? ==> Contribution(rows, rows[i].event).proposal in Project(rows).value
    {
      EarlierBroken(rows, row, artifacts, i);
      if Contribution(rows, rows[i].event).Listed? { ListedExactly(rows, |rows|, Contribution(rows, rows[i].event).proposal); }
    }
    forall p | p in Project(rows).value
      ensures exists i :: 0 <= i < |rows| && Contribution(rows, rows[i].event) == Listed(p)
    {
      ListedExactly(rows, |rows|, p);
    }
  }

  // ---------- deciding ----------

  datatype DecisionRequest = DecisionRequest(id: nat, accepted: bool, observed: Timestamp)

  datatype DecisionError = KeyConflict | NotFound | AlreadyResolved | Raised

  function ReviewType(accepted: bool): EventType { if accepted then Approval else Retraction }

  function DecisionEvent(q: DecisionRequest, p: Proposal, e: Event, actor: string, at: int): Event {
    Event(Client(q.id), e.session, e.run, e.task, Actor(actor, Human), ReviewType(q.accepted), q.observed.instant, at, e.refs, [p.id],
          HumanVerified, Payload(AssociationReview(Some(p.id)), ReviewDetail(q.accepted, p.target)), None)
  }

  predicate SameDecision(e: Event, q: DecisionRequest, proposal: EventId, actor: string) {
    && e.id == Client(q.id)
    && e.observedAt == q.observed.instant
    && e.actor.name == actor
    && e.eventType == ReviewType(q.accepted)
    && e.parents == [proposal]
    && e.payload.operation == AssociationReview(Some(proposal))
    && e.payload.detail.ReviewDetail?
    && e.payload.detail.accepted == q.accepted
  }

  function Wanted(q: DecisionRequest): ProposalState { if q.accepted then Accepted else Declined }

  // What the event contract asks of a decision that is new.
  predicate Recordable(q: DecisionRequest, proposal: EventId, actor: string, at: int) {
    ActorFits(Actor(actor, Human)) && ContractTime(q.observed) && q.observed.instant <= at && Client(q.id) != proposal
  }

  lemma {:induction false} DecisionEventIsValid(q: DecisionRequest, p: Proposal, e: Event, actor: string, at: int)
    requires NoDuplicates(e.refs)
    ensures ContractTime(q.observed) && ValidEvent(DecisionEvent(q, p, e, actor, at)) <==> Recordable(q, p.id, actor, at)
  {
    hide ActorFits, Form, Payloads.Acceptable, ContractTime;
    C.ReviewFits(p.id, q.accepted, p.target);
  }

  // The proposal that the projection of a whole ledger shows under an identity.
  function Shown(rows: seq<L.Row>, proposal: EventId): Option<Proposal>
    requires Project(rows).Some?
  {
    Find(Project(rows).value, proposal)
  }

  function Decide(rows: seq<L.Row>, artifacts: set<Ref>, proposal: EventId, q: DecisionRequest, key: L.Key, actor: string, at: int)
    : Result<(seq<L.Row>, Proposal), DecisionError>
  {
    if !Memory.PortableToken(key) then Failure(Raised) else
    match L.ByKey(rows, key)
    case Some(existing) =>
      if !SameDecision(existing, q, proposal, actor) then Failure(KeyConflict)
      else if Project(rows).None? then Failure(Raised)
      else
        var found := Shown(rows, proposal);
        if found.None? || found.value.state != Wanted(q) || found.value.decision.None? || found.value.decision.value.event != existing.id
        then Failure(KeyConflict)
        else Success((rows, found.value))
    case None =>
      if Project(rows).None? then Failure(Raised)
      else if Shown(rows, proposal).None? then Failure(NotFound)
      else if Shown(rows, proposal).value.state != Pending then Failure(AlreadyResolved)
      else if L.ById(rows, proposal).None? then Failure(Raised)
      else if !Recordable(q, proposal, actor, at) then Failure(Raised)
      else
        var e := DecisionEvent(q, Shown(rows, proposal).value, L.ById(rows, proposal).value, actor, at);
        match L.AppendOne(rows, artifacts, e, key)
        case Failure(EventConstraint) => Failure(AlreadyResolved)
        case Failure(IdempotencyConflict) => Failure(KeyConflict)
        case Failure(_) => Failure(Raised)
        case Success(grown) =>
          if Project(grown).None? || Shown(grown, proposal).None? || Shown(grown, proposal).value.state != Wanted(q) then Failure(Raised)
          else Success((grown, Shown(grown, proposal).value))
  }

  lemma {:induction false} FindFirst(ps: seq<Proposal>, id: EventId)
    ensures Find(ps, id).None? <==> forall p :: p in ps ==> p.id != id
    ensures Find(ps, id).Some? ==> Find(ps, id).value in ps && Find(ps, id).value.id == id
  {
    if |ps| > 0 {
      FindFirst(ps[1..], id);
      assert ps == [ps[0]] + ps[1..];
    }
  }

  lemma {:induction false} ContributionId(rows: seq<L.Row>, e: Event)
    ensures Contribution(rows, e).Listed? ==> Contribution(rows, e).proposal.id == e.id && IsProposal(e)
  {
  }

  // Every proposal of a sound ledger is found under its identity.
  lemma {:induction false} ProjectedIsFound(rows: seq<L.Row>, artifacts: set<Ref>, p: Proposal)
    requires L.LedgerOk(rows, artifacts) && Project(rows).Some? && p in Project(rows).value
    ensures Shown(rows, p.id) == Some(p)
  {
    hide L.LedgerOk, Contribution, ProjectFirst;
    FindFirst(Project(rows).value, p.id);
    var found := Shown(rows, p.id).value;
    ListedExactly(rows, |rows|, p);
    ListedExactly(rows, |rows|, found);
    var i :| 0 <= i < |rows| && Contribution(rows, rows[i].event) == Listed(p);
    var j :| 0 <= j < |rows| && Contribution(rows, rows[j].event) == Listed(found);
    ContributionId(rows, rows[i].event);
    ContributionId(rows, rows[j].event);
    OneEvent(rows, artifacts, rows[i], rows[j]);
  }

  // The review of a projected proposal is the one stored for it.
  lemma {:induction false} ProjectedReview(rows: seq<L.Row>, p: Proposal)
    requires Project(rows).Some? && p in Project(rows).value
    ensures Readable(ReviewOf(rows, p.id)) && p.state == StateOf(ReviewOf(rows, p.id))
    ensures p.decision.Some? <==> ReviewOf(rows, p.id).Some?
    ensures p.decision.Some? ==> p.decision.value.event == ReviewOf(rows, p.id).value.id
  {
    hide ProjectFirst;
    ListedExactly(rows, |rows|, p);
  }

  // An accepted decision is stored as the only review of its proposal, and its proposal reads back as decided.
  lemma {:induction false} DecisionOutcome(rows: seq<L.Row>, artifacts: set<Ref>, proposal: EventId, q: DecisionRequest, key: L.Key, actor: string, at: int)
    requires L.LedgerOk(rows, artifacts) && Decide(rows, artifacts, proposal, q, key, actor, at).Success?
    ensures var (u, p) := Decide(rows, artifacts, proposal, q, key, actor, at).value;
      && L.LedgerOk(u, artifacts) && rows <= u && |u| <= |rows| + 1
      && Project(u).Some? && p in Project(u).value && p.id == proposal && p.state == Wanted(q)
      && p.decision.Some? && p.decision.value.event == Client(q.id)
      && L.ByKey(u, key).Some? && SameDecision(L.ByKey(u, key).value, q, proposal, actor)
      && Memory.PortableToken(key)
  {
    hide L.LedgerOk, Project, Memory.PortableToken, L.AppendOne, L.ByKey;
    FindFirst(Project(rows).value, proposal);
    if L.ByKey(rows, key).None? {
      var p := Shown(rows, proposal).value;
      var e := DecisionEvent(q, p, L.ById(rows, proposal).value, actor, at);
      assert SameDecision(e, q, proposal, actor);
      NewDecision(rows, artifacts, proposal, e, key);
      FindFirst(Project(L.AppendOne(rows, artifacts, e, key).value).value, proposal);
    }
  }

  lemma {:induction false} NewDecision(rows: seq<L.Row>, artifacts: set<Ref>, proposal: EventId, e: Event, key: L.Key)
    requires L.LedgerOk(rows, artifacts) && L.ByKey(rows, key).None? && L.AppendOne(rows, artifacts, e, key).Success?
    requires IsReview(e, proposal)
    ensures var u := L.AppendOne(rows, artifacts, e, key).value;
      && L.LedgerOk(u, artifacts) && u == rows + [L.Row(e, key)] && L.ByKey(u, key) == Some(e)
      && ReviewOf(u, proposal) == Some(e)
      && (Project(u).Some? ==> forall p :: p in Project(u).value && p.id == proposal ==> p.decision.Some? && p.decision.value.event == e.id)
  {
    hide L.LedgerOk, L.AppendOne, Project, L.Insertable;
    L.AppendOneOutcome(rows, artifacts, e, key);
    L.AppendOneKeeps(rows, artifacts, e, key);
    L.KeyLookup(rows, key);
    var u := L.AppendOne(rows, artifacts, e, key).value;
    StoredReview(u, artifacts, L.Row(e, key), proposal);
    if Project(u).Some? {
      forall p | p in Project(u).value && p.id == proposal
        ensures p.decision.Some? && p.decision.value.event == e.id
      {
        ProjectedReview(u, p);
      }
    }
  }

  // One request: the offsets of its times need not be the same.
  predicate SameRequest(a: DecisionRequest, b: DecisionRequest) {
    a.id == b.id && a.accepted == b.accepted && a.observed.instant == b.observed.instant
  }

  // An accepted decision is the only one: a repetition returns it unchanged for as long as the projection is whole, every
  // other request is refused.
  lemma {:induction false} DecisionIsFinal(rows: seq<L.Row>, artifacts: set<Ref>, proposal: EventId, q: DecisionRequest, key: L.Key, actor: string, at: int,
                              later: seq<L.Row>, q2: DecisionRequest, key2: L.Key, actor2: string, at2: int)
    requires L.LedgerOk(rows, artifacts) && Decide(rows, artifacts, proposal, q, key, actor, at).Success?
    requires L.LedgerOk(later, artifacts) && Decide(rows, artifacts, proposal, q, key, actor, at).value.0 <= later
    ensures var first, second := Decide(rows, artifacts, proposal, q, key, actor, at), Decide(later, artifacts, proposal, q2, key2, actor2, at2);
      && (second.Success? ==> SameRequest(q2, q) && second.value == (later, first.value.1))
      && (SameRequest(q2, q) && key2 == key && actor2 == actor ==> if Project(later).Some? then second.Success? else second == Failure(Raised))
      && (Memory.PortableToken(key2) && L.ByKey(later, key2).None? ==>
        second == Failure(if Project(later).Some? then AlreadyResolved else Raised))
  {
    hide L.LedgerOk, Project, Memory.PortableToken, L.AppendOne, L.ByKey, Decide, Advances;
    DecisionOutcome(rows, artifacts, proposal, q, key, actor, at);
    var (u, p) := Decide(rows, artifacts, proposal, q, key, actor, at).value;
    ResolvedNeverChanges(u, later, artifacts);
    KeyStays(u, later, artifacts, key);
    L.KeyLookup(later, key2);
    if Project(later).Some? {
      ProjectedIsFound(later, artifacts, p);
      ProjectedReview(later, p);
      LaterDecision(later, artifacts, proposal, q2, key2, actor2, at2, p, L.ByKey(later, key).value);
    } else {
      BrokenDecision(later, artifacts, proposal, q2, key2, actor2, at2);
    }
    if Decide(later, artifacts, proposal, q2, key2, actor2, at2).Success? {
      SameReview(later, artifacts, proposal, q, key, actor, q2, key2, actor2);
    }
  }

  // Nothing is decided while the projection is broken.
  lemma {:induction false} BrokenDecision(rows: seq<L.Row>, artifacts: set<Ref>, proposal: EventId, q: DecisionRequest, key: L.Key, actor: string, at: int)
    requires Project(rows).None?
    ensures var d := Decide(rows, artifacts, proposal, q, key, actor, at);
      && d.Failure? && (d.error == Raised || d.error == KeyConflict)
      && (L.ByKey(rows, key).None? || SameDecision(L.ByKey(rows, key).value, q, proposal, actor) ==> d.error == Raised)
  {
  }

  // A decision that was stored always reads back: the service cannot store one and then fail.
  lemma {:induction false} StoredDecisionReadsBack(rows: seq<L.Row>, artifacts: set<Ref>, p: Proposal, q: DecisionRequest, key: L.Key, actor: string, at: int)
    requires L.LedgerOk(rows, artifacts) && Project(rows).Some? && Shown(rows, p.id) == Some(p)
    requires L.ById(rows, p.id).Some? && L.ByKey(rows, key).None?
    requires L.AppendOne(rows, artifacts, DecisionEvent(q, p, L.ById(rows, p.id).value, actor, at), key).Success?
    ensures var grown := L.AppendOne(rows, artifacts, DecisionEvent(q, p, L.ById(rows, p.id).value, actor, at), key).value;
      Project(grown).Some? && Shown(grown, p.id).Some? && Shown(grown, p.id).value.state == Wanted(q)
  {
    hide L.LedgerOk, Project, L.AppendOne, L.ByKey;
    var e := DecisionEvent(q, p, L.ById(rows, p.id).value, actor, at);
    NewDecision(rows, artifacts, p.id, e, key);
    var grown := L.AppendOne(rows, artifacts, e, key).value;
    AppendBreaksExactly(rows, L.Row(e, key), artifacts);
    assert Contribution(rows, e) == Nothing;
    FindFirst(Project(rows).value, p.id);
    ResolvedNeverChanges(rows, grown, artifacts);
    var k :| 0 <= k < |Project(rows).value| && Project(rows).value[k] == p;
    assert Advances(p, Project(grown).value[k]);
    FindFirst(Project(grown).value, p.id);
    ProjectedReview(grown, Shown(grown, p.id).value);
  }

  lemma {:induction false} KeyStays(rows: seq<L.Row>, later: seq<L.Row>, artifacts: set<Ref>, key: L.Key)
    requires L.LedgerOk(later, artifacts) && rows <= later && L.ByKey(rows, key).Some?
    ensures L.ByKey(later, key) == L.ByKey(rows, key)
  {
    hide L.RowOk, L.ByKey;
    L.KeyLookup(rows, key);
    assert L.Row(L.ByKey(rows, key).value, key) in later;
    L.StoredByKey(later, L.Row(L.ByKey(rows, key).value, key));
  }

  predicate Repeats(first: Event, q: DecisionRequest, proposal: EventId, actor: string, p: Proposal) {
    && SameDecision(first, q, proposal, actor)
    && p.state == Wanted(q)
    && p.decision.Some?
    && p.decision.value.event == first.id
  }

  // On a decided proposal a decision is a repetition, or refused.
  lemma {:induction false} LaterDecision(rows: seq<L.Row>, artifacts: set<Ref>, proposal: EventId, q: DecisionRequest, key: L.Key, actor: string, at: int,
                      p: Proposal, first: Event)
    requires Project(rows).Some? && Shown(rows, proposal) == Some(p) && (p.state == Accepted || p.state == Declined) && p.decision.Some?
    ensures var d := Decide(rows, artifacts, proposal, q, key, actor, at);
      && (d.Success? ==>
        && d.value == (rows, p) && L.ByKey(rows, key).Some? && SameDecision(L.ByKey(rows, key).value, q, proposal, actor)
        && Wanted(q) == p.state)
      && (Memory.PortableToken(key) && L.ByKey(rows, key).None? ==> d == Failure(AlreadyResolved))
      && (Memory.PortableToken(key) && L.ByKey(rows, key) == Some(first) && Repeats(first, q, proposal, actor, p) ==> d.Success?)
  {
    hide Project, Memory.PortableToken, L.ByKey, L.AppendOne;
  }

  // Two stored decisions on one proposal are one and the same.
  lemma {:induction false} SameReview(rows: seq<L.Row>, artifacts: set<Ref>, proposal: EventId, q: DecisionRequest, key: L.Key, actor: string,
                   q2: DecisionRequest, key2: L.Key, actor2: string)
    requires L.LedgerOk(rows, artifacts) && L.ByKey(rows, key).Some? && L.ByKey(rows, key2).Some?
    requires SameDecision(L.ByKey(rows, key).value, q, proposal, actor) && SameDecision(L.ByKey(rows, key2).value, q2, proposal, actor2)
    ensures SameRequest(q2, q)
  {
    hide L.LedgerOk, L.ByKey;
    L.KeyLookup(rows, key);
    L.KeyLookup(rows, key2);
    OneEvent(rows, artifacts, L.Row(L.ByKey(rows, key).value, key), L.Row(L.ByKey(rows, key2).value, key2));
    assert L.Reviews(L.ByKey(rows, key).value, proposal) && L.Reviews(L.ByKey(rows, key2).value, proposal);
  }

  // ---------- the service over the ledger ----------

  method StoreDecision(events: L.EventStore, p: Proposal, e: Event, q: DecisionRequest, key: L.Key, actor: string, at: int)
    returns (r: Result<Proposal, DecisionError>)
    requires events.Valid() && Project(events.rows).Some? && Shown(events.rows, p.id) == Some(p) && L.ById(events.rows, p.id) == Some(e)
    requires L.ByKey(events.rows, key).None?
    modifies events
    ensures events.Valid() && events.artifacts == old(events.artifacts)
    ensures match L.AppendOne(old(events.rows), events.artifacts, DecisionEvent(q, p, e, actor, at), key)
      case Failure(EventConstraint) => r == Failure(AlreadyResolved) && events.rows == old(events.rows)
      case Failure(IdempotencyConflict) => r == Failure(KeyConflict) && events.rows == old(events.rows)
      case Failure(_) => r == Failure(Raised) && events.rows == old(events.rows)
      case Success(grown) =>
        (&& events.rows == grown
         && Project(grown).Some? && Shown(grown, p.id).Some? && Shown(grown, p.id).value.state == Wanted(q)
         && r == Success(Shown(grown, p.id).value))
  {
    ghost var before, artifacts := events.rows, events.artifacts;
    hide L.LedgerOk, Project, Memory.PortableToken, L.AppendOne, L.ByKey, DecisionEvent;
    var decision := DecisionEvent(q, p, e, actor, at);
    if L.AppendOne(before, artifacts, decision, key).Success? {
      L.AppendOneKeeps(before, artifacts, decision, key);
      StoredDecisionReadsBack(before, artifacts, p, q, key, actor, at);
    }
    var appended := events.AppendEvent(decision, key);
    match appended {
      case Failure(EventConstraint) => return Failure(AlreadyResolved);
      case Failure(IdempotencyConflict) => return Failure(KeyConflict);
      case Failure(_) => return Failure(Raised);
      case Success(_) =>
    }
    var projected := ProjectProposals(events.rows);
    r := Success(Find(projected.value, p.id).value);
  }

  method DecideProposal(events: L.EventStore, proposal: EventId, q: DecisionRequest, key: L.Key, actor: string, at: int)
    returns (r: Result<Proposal, DecisionError>)
    requires events.Valid()
    modifies events
    ensures events.Valid()
    ensures match Decide(old(events.rows), events.artifacts, proposal, q, key, actor, at)
      case Failure(e) => r == Failure(e) && events.rows == old(events.rows)
      case Success((u, p)) => r == Success(p) && events.rows == u
  {
    hide L.LedgerOk, Project, Memory.PortableToken, L.AppendOne, L.ByKey, SameDecision, DecisionEvent;
    var existing := events.GetByIdempotency(key);
    if existing.Failure? { return Failure(Raised); }
    if existing.value.Some? && !SameDecision(existing.value.value, q, proposal, actor) { return Failure(KeyConflict); }
    var projected := ProjectProposals(events.rows);
    if projected.None? { return Failure(Raised); }
    var found := Find(projected.value, proposal);
    if existing.value.Some? {
      if found.None? || found.value.state != Wanted(q) || found.value.decision.None?
        || found.value.decision.value.event != existing.value.value.id {
        return Failure(KeyConflict);
      }
      return Success(found.value);
    }
    if found.None? { return Failure(NotFound); }
    if found.value.state != Pending { return Failure(AlreadyResolved); }
    var e := events.GetEvent(proposal);
    if e.None? || !Recordable(q, proposal, actor, at) { return Failure(Raised); }
    FindFirst(projected.value, proposal);
    r := StoreDecision(events, found.value, e.value, q, key, actor, at);
  }
}
