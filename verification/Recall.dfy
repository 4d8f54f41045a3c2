/** The project memory tools: recall and explain read, remember and correct only propose candidates. */
module Recall {
  import opened Wrappers
  import opened Relational
  import opened Memory
  import opened MemoryInvariant
  import opened MemoryReview
  import opened MemoryRuns
  import opened Retrieval
  import opened Context
  import opened Crockford

  // ---------- recall ----------

  datatype UnavailableReason = EmptyWorkspace | NoApprovedMemory

  // A request with its token, the terms of its query and the identities that are derived from its own.
  datatype RecallRequest = RecallRequest(token: string, query: set<Term>, budget: int, context: string, task: string)

  const MAX_BUDGET := 32768

  // The bounds of the request contract.
  predicate RecallFits(q: RecallRequest) {
    IsToken(q.token) && 1 <= q.budget <= MAX_BUDGET
  }

  datatype Recalled = Recalled(record: RecordId, hash: Digest, title: Text, content: Text)

  datatype RecallReply =
    | Invalid
    | Unavailable(reason: UnavailableReason)
    | Refused
    | Available(request: string, manifest: ContextManifest, records: seq<Recalled>)

  predicate AnyEligible(records: seq<Record>) {
    exists r :: r in records && Eligible(r)
  }

  function Shown(s: seq<Record>): seq<Recalled> {
    seq(|s|, i requires 0 <= i < |s| => Recalled(s[i].id, s[i].hash, s[i].body.title, s[i].body.content))
  }

  const MAX_SHOWN := 65536

  // The lengths the reply contract allows for the text of one record.
  predicate ShownFits(r: Recalled) {
    1 <= |r.title.raw| <= MAX_TITLE && 1 <= |r.content.raw| <= MAX_SHOWN
  }

  // Recall at the time its request encodes; anything that raises is a refusal.
  function Recall(records: seq<Record>, q: RecallRequest): RecallReply {
    if !RecallFits(q) then Invalid
    else if |records| == 0 then Unavailable(EmptyWorkspace)
    else if !AnyEligible(records) then Unavailable(NoApprovedMemory)
    else
      match TimeOf(q.token)
      case None => Refused
      case Some(at) =>
        match Compile(Rank(records, q.query), q.context, q.task, at, q.budget)
        case Failure(_) => Refused
        case Success((manifest, selected)) =>
          if forall r :: r in Shown(selected) ==> ShownFits(r) then Available(q.token, manifest, Shown(selected)) else Refused
  }

  // ---------- remember and correct ----------

  datatype Correction = Correction(target: RecordId, expected: Digest, reason: string)

  // A proposal with the record identity that is derived from its request identity.
  datatype Proposal = Proposal(
    id: RecordId,
    request: string,
    actor: string,
    title: Text,
    content: Text,
    category: Text,
    domains: seq<Text>,
    topics: seq<Text>,
    sourceRefs: seq<string>,
    correction: Option<Correction>)

  datatype ProposalError = InvalidRequest | RevisionConflict | RequestConflict

  const MAX_REASON := 4096

  // The bounds of the request contract.
  predicate ProposalFits(p: Proposal) {
    && 1 <= |p.title.raw| <= MAX_TITLE
    && 1 <= |p.content.raw| <= MAX_SHOWN
    && 1 <= |p.domains| <= 16 && NoDuplicates(p.domains)
    && |p.topics| <= 32 && NoDuplicates(p.topics)
    && 1 <= |p.sourceRefs| <= 16 && NoDuplicates(p.sourceRefs)
    && (p.correction.Some? ==> 1 <= |p.correction.value.reason| <= MAX_REASON)
  }

  function ContentHash(p: Proposal): Digest {
    Sha256(p.content.raw)
  }

  function BodyOf(p: Proposal): Body {
    Body(p.title, p.content, p.category, p.domains, p.topics, [], [])
  }

  function ProvenanceOf(p: Proposal): Provenance {
    match p.correction
    case None => Provenance([], p.sourceRefs, Some(p.actor), Some(p.request), None, None, None)
    case Some(c) => Provenance([], p.sourceRefs, Some(p.actor), Some(p.request), Some(c.target), Some(c.expected), Some(c.reason))
  }

  // The fields a repeated request is compared on.
  predicate SameProposal(r: Record, p: Proposal) {
    && r.body.title == p.title
    && r.body.content == p.content
    && r.body.category == p.category
    && r.body.domains == p.domains
    && r.body.topics == p.topics
    && r.hash == ContentHash(p)
    && r.provenance.sourceRefs == p.sourceRefs
    && r.provenance.createdBy == Some(p.actor)
    && r.provenance.creationRequest == Some(p.request)
    && r.provenance.correctionTarget == (if p.correction.Some? then Some(p.correction.value.target) else None)
    && r.provenance.correctionExpectedHash == (if p.correction.Some? then Some(p.correction.value.expected) else None)
    && r.provenance.correctionReason == (if p.correction.Some? then Some(p.correction.value.reason) else None)
  }

  predicate TargetStands(t: Tables, p: Proposal) {
    p.correction.Some? ==>
      && Get(t, p.correction.value.target).Some?
      && Get(t, p.correction.value.target).value.hash == p.correction.value.expected
  }

  // The tables after one proposal and the candidate it names.
  function Propose(t: Tables, p: Proposal): Result<(Tables, Record), ProposalError> {
    if !ProposalFits(p) then Failure(InvalidRequest) else
    if !TargetStands(t, p) then Failure(RevisionConflict) else
    match Get(t, p.id)
    case Some(existing) =>
      if SameProposal(existing, p) then Success((t, existing)) else Failure(RequestConflict)
    case None =>
      var r := NativeRecord(p.id, BodyOf(p), ContentHash(p), ProvenanceOf(p));
      match CreateExplicit(t, r)
      case Failure(_) => Failure(RequestConflict)
      case Success(u) => Success((u, r))
  }

  function AfterProposal(t: Tables, p: Proposal): Tables {
    match Propose(t, p)
    case Failure(_) => t
    case Success((u, _)) => u
  }

  function AfterProposals(t: Tables, ps: seq<Proposal>): Tables {
    if |ps| == 0 then t else AfterProposal(AfterProposals(t, ps[..|ps| - 1]), ps[|ps| - 1])
  }

  // ---------- what a proposal can change ----------

  // The records a reader of a consistent store sees.
  ghost function Listed(t: Tables): seq<Record>
    requires Inv(t)
  {
    List(t)
  }

  // The record list grew by candidates at its end.
  ghost predicate GrewByCandidates(a: seq<Record>, b: seq<Record>) {
    && |a| <= |b|
    && b[..|a|] == a
    && forall i :: |a| <= i < |b| ==> b[i].authority == Candidate
  }

  lemma {:induction false} ListSize(t: Tables)
    requires Inv(t)
    ensures |Listed(t)| == |t.records.rows|
  {
    OrderLength(t.records);
  }

  // A proposal that is not a repetition adds the one candidate it names; the review log has nothing on it.
  lemma {:induction false} ProposeOutcome(t: Tables, p: Proposal)
    requires Inv(t)
    ensures Inv(AfterProposal(t, p))
    ensures var r, u := NativeRecord(p.id, BodyOf(p), ContentHash(p), ProvenanceOf(p)), AfterProposal(t, p);
      || u == t
      || (&& p.id !in t.records.rows
          && u == t.(records := t.records.Put(p.id, r), revisions := t.revisions + [r])
          && WithReviewState(u.reviews, r) == r)
  {
    hide RecordsOk, RevisionsOk, BindingsOk, ReviewsOk, SyncsOk;
    var r := NativeRecord(p.id, BodyOf(p), ContentHash(p), ProvenanceOf(p));
    if p.id !in t.records.rows && ProposalFits(p) {
      CreateKeeps(t, r);
      UnknownIsUnreviewed(t, p.id, r.hash);
    }
  }

  lemma {:induction false} UnknownIsUnreviewed(t: Tables, id: RecordId, hash: Digest)
    requires Inv(t) && id !in t.records.rows
    ensures LatestReview(t.reviews, id, hash) == None
  {
    hide RecordsOk, RevisionsOk, BindingsOk, Governed;
    LatestIsLastDecision(t.reviews, Revision(id, hash));
    var found := LatestReview(t.reviews, id, hash);
    if found.Some? {
      var i :| 0 <= i < |t.reviews| && t.reviews[i] == found.value;
      LoggedIsKnown(t, i);
      assert false;
    }
  }

  lemma {:induction false} LoggedIsKnown(t: Tables, i: nat)
    requires Inv(t) && i < |t.reviews|
    ensures t.reviews[i].record in t.records.rows
  {
    assert RowOk(t, i);
  }

  lemma {:induction false} ProposalGrows(t: Tables, p: Proposal)
    requires Inv(t)
    ensures Inv(AfterProposal(t, p))
    ensures GrewByCandidates(Listed(t), Listed(AfterProposal(t, p)))
    ensures |t.records.rows| <= |AfterProposal(t, p).records.rows| <= |t.records.rows| + 1
  {
    hide Inv, Propose, AfterProposal;
    ProposeOutcome(t, p);
    var u := AfterProposal(t, p);
    if u == t {
      assert Listed(u)[..|Listed(t)|] == Listed(t);
    } else {
      TablesValid(t);
      TablesValid(u);
      CandidateAppended(t, u, NativeRecord(p.id, BodyOf(p), ContentHash(p), ProvenanceOf(p)));
    }
  }

  lemma {:induction false} CandidateAppended(t: Tables, u: Tables, r: Record)
    requires t.records.Valid() && u.records.Valid() && r.id !in t.records.rows && u.reviews == t.reviews
    requires u.records == t.records.Put(r.id, r) && r.authority == Candidate && WithReviewState(u.reviews, r) == r
    ensures GrewByCandidates(List(t), List(u))
  {
    hide WithReviewState;
    assert u.records.order[..|t.records.order|] == t.records.order;
    assert forall i :: 0 <= i < |t.records.order| ==> t.records.order[i] in t.records.order;
    assert List(u)[..|List(t)|] == List(t);
  }

  // Any number of proposals extends the record list by new candidates alone.
  lemma {:induction false} ProposalsGrow(t: Tables, ps: seq<Proposal>)
    requires Inv(t)
    ensures Inv(AfterProposals(t, ps))
    ensures |t.records.rows| <= |AfterProposals(t, ps).records.rows| <= |t.records.rows| + |ps|
    ensures GrewByCandidates(Listed(t), Listed(AfterProposals(t, ps)))
  {
    hide Inv, AfterProposal, Listed, GrewByCandidates;
    if |ps| == 0 {
      GrewAtStart(Listed(t));
    } else {
      var s := AfterProposals(t, ps[..|ps| - 1]);
      ProposalsGrow(t, ps[..|ps| - 1]);
      ProposalGrows(s, ps[|ps| - 1]);
      GrowthComposes(Listed(t), Listed(s), Listed(AfterProposal(s, ps[|ps| - 1])));
    }
  }

  lemma {:induction false} GrewAtStart(a: seq<Record>)
    ensures GrewByCandidates(a, a)
  {
    assert a[..|a|] == a;
  }

  lemma {:induction false} GrowthComposes(a: seq<Record>, b: seq<Record>, c: seq<Record>)
    requires GrewByCandidates(a, b) && GrewByCandidates(b, c)
    ensures GrewByCandidates(a, c)
  {
    assert c[..|a|] == c[..|b|][..|a|];
    assert forall i :: 0 <= i < |b| ==> c[i] == c[..|b|][i];
  }

  // ---------- non-interference ----------

  // Candidates at the end of the list count as not approved and change nothing else of a ranking.
  lemma {:induction false} RankIgnoresCandidates(records: seq<Record>, more: seq<Record>, q: set<Term>)
    requires forall i :: 0 <= i < |more| ==> more[i].authority == Candidate
    ensures var a, b := Rank(records, q), Rank(records + more, q);
      && b.ranked == a.ranked && b.unmatched == a.unmatched
      && b.excluded == a.excluded.(notApproved := a.excluded.notApproved + |more|)
  {
    hide Rank;
    if |more| == 0 {
      assert records + more == records;
    } else {
      var front, last := more[..|more| - 1], more[|more| - 1];
      RankIgnoresCandidates(records, front, q);
      RankIgnoresCandidate(records + front, last, q);
      assert records + more == (records + front) + [last];
    }
  }

  lemma {:induction false} EligibleIgnoresCandidates(records: seq<Record>, more: seq<Record>)
    requires forall i :: 0 <= i < |more| ==> more[i].authority == Candidate
    ensures AnyEligible(records + more) <==> AnyEligible(records)
  {
    if AnyEligible(records + more) {
      var r :| r in records + more && Eligible(r);
      assert r in records;
    }
    if AnyEligible(records) {
      var r :| r in records && Eligible(r);
      assert r in records + more;
    }
  }

  // A reply after the list grew by candidates: only the count of unapproved records and the reason for an
  // empty answer may differ.
  ghost predicate SameEvidence(before: RecallReply, after: RecallReply, added: nat) {
    match before
    case Unavailable(EmptyWorkspace) => after == Unavailable(if added == 0 then EmptyWorkspace else NoApprovedMemory)
    case Unavailable(NoApprovedMemory) => after == before
    case Invalid => after == Invalid
    case Refused => after == Refused
    case Available(request, m, records) =>
      after == Available(request, m.(excluded := m.excluded.(notApproved := m.excluded.notApproved + added)), records)
  }

  lemma {:induction false} RecallIgnoresCandidates(records: seq<Record>, more: seq<Record>, q: RecallRequest)
    requires forall i :: 0 <= i < |more| ==> more[i].authority == Candidate
    ensures SameEvidence(Recall(records, q), Recall(records + more, q), |more|)
  {
    hide Rank, AnyEligible, Select;
    RankIgnoresCandidates(records, more, q.query);
    EligibleIgnoresCandidates(records, more);
    NoneEligible();
    if RecallFits(q) && TimeOf(q.token).Some? {
      DraftIgnoresCount(Rank(records, q.query), Rank(records + more, q.query), q, TimeOf(q.token).value);
    }
  }

  lemma {:induction false} NoneEligible()
    ensures !AnyEligible([])
  {
  }

  lemma {:induction false} DraftIgnoresCount(a: Retrieval, b: Retrieval, q: RecallRequest, at: int)
    requires b.ranked == a.ranked && b.unmatched == a.unmatched
    ensures var x, y := Draft(a, q.context, q.task, at, q.budget), Draft(b, q.context, q.task, at, q.budget);
      y == x.(excluded := b.excluded) && (ManifestValid(x) <==> ManifestValid(y))
  {
    hide Select, TokenSum, ItemValid, OmissionValid;
  }

  // No sequence of proposals changes what recall returns, for any query and any budget.
  lemma {:induction false} ProposalsDoNotInterfere(t: Tables, ps: seq<Proposal>, q: RecallRequest)
    requires Inv(t)
    ensures Inv(AfterProposals(t, ps)) && |t.records.rows| <= |AfterProposals(t, ps).records.rows|
    ensures SameEvidence(Recall(Listed(t), q), Recall(Listed(AfterProposals(t, ps)), q),
                         |AfterProposals(t, ps).records.rows| - |t.records.rows|)
  {
    hide Inv, AfterProposals, Recall, SameEvidence, Listed;
    ProposalsGrow(t, ps);
    ListSize(t);
    ListSize(AfterProposals(t, ps));
    var a, b := Listed(t), Listed(AfterProposals(t, ps));
    assert b == a + b[|a|..];
    RecallIgnoresCandidates(a, b[|a|..], q);
  }

  // ---------- recall over a consistent store ----------

  // The records a reader sees have different identities.
  lemma {:induction false} ListedIsDistinct(t: Tables)
    requires Inv(t)
    ensures DistinctRecords(Listed(t))
  {
    hide BindingsOk, ReviewsOk, RevisionsOk, SyncsOk;
    assert forall i :: 0 <= i < |t.records.order| ==> t.records.order[i] in t.records.order;
  }

  // The bodies a reader sees fit the record contract.
  lemma {:induction false} ListedFits(t: Tables)
    requires Inv(t)
    ensures forall r :: r in Listed(t) ==> BodyFits(r.body)
  {
    hide BindingsOk, ReviewsOk, RevisionsOk, SyncsOk, BodyFits;
    assert forall i :: 0 <= i < |t.records.order| ==> t.records.order[i] in t.records.order;
  }

  // A record that fits its contract but not what recall may hand out.
  predicate Unshowable(r: Record) {
    |r.body.domains| > MAX_DOMAINS || |r.body.content.raw| > MAX_SHOWN
  }

  // A valid recall over a store with eligible records raises exactly when its id is one whose time lies past the
  // calendar, or a selected record has more than sixteen domains or more than 65,536 characters; otherwise it returns
  // the records of the greedy choice, in rank order.
  lemma {:induction false} RecallFailsExactly(t: Tables, q: RecallRequest)
    requires Inv(t) && AnyEligible(Listed(t))
    ensures Recall(Listed(t), q) == Invalid <==> !RecallFits(q)
    ensures RecallFits(q) ==>
      var chosen := Chosen(Rank(Listed(t), q.query), q.budget);
      if Before(LAST_TOKEN, q.token[..TIME_LENGTH]) || exists c :: c in chosen && Unshowable(c.record) then
        Recall(Listed(t), q) == Refused
      else
        && TimeOf(q.token).Some?
        && Recall(Listed(t), q) == Available(
          q.token, Draft(Rank(Listed(t), q.query), q.context, q.task, TimeOf(q.token).value, q.budget), Shown(Plain(chosen)))
  {
    hide Inv, Listed, Rank, ManifestValid, Draft, Chosen, AnyEligible, Before, Digits, Value, TimeOf;
    ListedIsDistinct(t);
    NoneEligible();
    if RecallFits(q) {
      TimeIsDefinedExactly(q.token);
      ChosenFit(t, q);
      if TimeOf(q.token).Some? {
        ManifestValidExactly(Listed(t), q.query, q.context, q.task, TimeOf(q.token).value, q.budget);
        ShownExactly(Chosen(Rank(Listed(t), q.query), q.budget));
      }
    }
  }

  lemma {:induction false} ChosenFit(t: Tables, q: RecallRequest)
    requires Inv(t)
    ensures forall c :: c in Chosen(Rank(Listed(t), q.query), q.budget) ==> BodyFits(c.record.body)
  {
    hide Inv, Listed, Select, Rank, BodyFits;
    ListedFits(t);
    ChosenAreRecords(Listed(t), q.query, q.budget);
  }

  lemma {:induction false} ShownExactly(chosen: seq<Ranked>)
    requires forall c :: c in chosen ==> BodyFits(c.record.body)
    ensures (forall r :: r in Shown(Plain(chosen)) ==> ShownFits(r))
      <==> forall c :: c in chosen ==> |c.record.body.content.raw| <= MAX_SHOWN
  {
    var shown := Shown(Plain(chosen));
    forall i | 0 <= i < |chosen|
      ensures ShownFits(shown[i]) <==> |chosen[i].record.body.content.raw| <= MAX_SHOWN
    {
      assert chosen[i] in chosen;
    }
    if forall r :: r in shown ==> ShownFits(r) {
      forall c | c in chosen
        ensures |c.record.body.content.raw| <= MAX_SHOWN
      {
        var i :| 0 <= i < |chosen| && chosen[i] == c;
        assert shown[i] in shown;
      }
    }
  }

  // ---------- repeating a proposal ----------

  // Repeating an accepted proposal, whatever was proposed since, adds nothing and names the same record.
  lemma {:induction false} ProposalReplays(t: Tables, p: Proposal, later: seq<Proposal>)
    requires Inv(t) && Propose(t, p).Success?
    ensures var made, u := Propose(t, p).value.1, AfterProposals(AfterProposal(t, p), later);
      && Propose(u, p).Success?
      && Propose(u, p).value.0 == u
      && Propose(u, p).value.1.id == made.id == p.id
      && Propose(u, p).value.1.hash == made.hash == ContentHash(p)
  {
    hide Inv, SameProposal, TargetStands, Propose, AfterProposal;
    ProposeOutcome(t, p);
    ProposedStands(t, p);
    var s := AfterProposal(t, p);
    RowsKept(s, later);
    ProposalsGrow(s, later);
    var u := AfterProposals(s, later);
    CurrentId(u, p.id);
    TargetKept(s, u, p);
    StandingReplays(u, p);
  }

  lemma {:induction false} TargetKept(t: Tables, u: Tables, p: Proposal)
    requires TargetStands(t, p)
    requires forall id :: id in t.records.rows ==> id in u.records.rows && u.records.rows[id] == t.records.rows[id]
    ensures TargetStands(u, p)
  {
  }

  lemma {:induction false} StandingReplays(t: Tables, p: Proposal)
    requires ProposalFits(p)
    requires p.id in t.records.rows && t.records.rows[p.id].id == p.id
    requires SameProposal(t.records.rows[p.id], p) && TargetStands(t, p)
    ensures Propose(t, p).Success? && Propose(t, p).value.0 == t
    ensures Propose(t, p).value.1.id == p.id && Propose(t, p).value.1.hash == ContentHash(p)
  {
    hide TargetStands;
    SameFields(t.records.rows[p.id], WithReviewState(t.reviews, t.records.rows[p.id]), p);
  }

  lemma {:induction false} CurrentId(t: Tables, id: RecordId)
    requires Inv(t) && id in t.records.rows
    ensures t.records.rows[id].id == id
  {
  }

  lemma {:induction false} SameFields(r: Record, s: Record, p: Proposal)
    requires s.body == r.body && s.hash == r.hash && s.provenance == r.provenance
    ensures SameProposal(r, p) <==> SameProposal(s, p)
    ensures SameProposal(r, p) ==> s.hash == ContentHash(p)
  {
  }

  lemma {:induction false} ProposedStands(t: Tables, p: Proposal)
    requires Inv(t) && Propose(t, p).Success?
    ensures var u := AfterProposal(t, p);
      ProposalFits(p) && p.id in u.records.rows && SameProposal(u.records.rows[p.id], p) && TargetStands(u, p)
      && Propose(t, p).value.1.id == p.id && Propose(t, p).value.1.hash == ContentHash(p)
  {
    hide RevisionsOk, BindingsOk, ReviewsOk, SyncsOk;
  }

  // Proposals rewrite no record and no review.
  lemma {:induction false} RowsKept(t: Tables, ps: seq<Proposal>)
    requires Inv(t)
    ensures var u := AfterProposals(t, ps);
      u.reviews == t.reviews && forall id :: id in t.records.rows ==> id in u.records.rows && u.records.rows[id] == t.records.rows[id]
  {
    hide Inv, Propose;
    if |ps| > 0 {
      RowsKept(t, ps[..|ps| - 1]);
      ProposalsGrow(t, ps[..|ps| - 1]);
      ProposeOutcome(AfterProposals(t, ps[..|ps| - 1]), ps[|ps| - 1]);
    }
  }
}
