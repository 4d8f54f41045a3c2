/** Stores that recall cannot answer from, although every call that made them was accepted. */
module RecallCounterexamples {
  import opened Wrappers
  import opened Relational
  import opened Memory
  import opened MemoryInvariant
  import opened MemoryRuns
  import opened Retrieval
  import opened Context
  import opened Crockford
  import opened Recall
  import Runs = MemoryCounterexamples

  const HASH := Sha256("c")
  const EVERY_TERM := {"t"}

  function Label(text: string): Text {
    Text(text, [text], 1)
  }

  // A body of one word that any query for its title finds.
  function BodyWith(content: string, domains: nat): Body {
    Body(Label("t"), Text(content, [], 1), Label("note"), seq(domains, i => Label("d")), [], [], [])
  }

  function Native(body: Body): Record {
    NativeRecord(0, body, HASH, NO_PROVENANCE)
  }

  function Candidates(body: Body): Tables {
    Tables(Table(map[0 := Native(body)], [0]), [Native(body)], [], Table(map[], []), [])
  }

  function ApprovedStore(body: Body): Tables {
    Candidates(body).(reviews := [ReviewRow("a", "a", 0, HASH, Approved, None)])
  }

  lemma {:induction false} ApprovalAccepted(body: Body)
    ensures Review(Candidates(body), Runs.Approve(0, "a").review).Success?
    ensures Review(Candidates(body), Runs.Approve(0, "a").review).value.0 == ApprovedStore(body)
  {
  }

  lemma {:induction false} CreationAccepted(body: Body)
    requires BodyFits(body)
    ensures Inv(EMPTY) && Apply(EMPTY, CreateOp(0, true, body, HASH, NO_PROVENANCE)) == Candidates(body)
  {
    EmptyIsConsistent();
    CreateOutcome(EMPTY, 0, true, body, HASH, NO_PROVENANCE);
  }

  // A record that fits its contract is created and approved.
  lemma {:induction false} CreatedAndApproved(body: Body) returns (ops: seq<Op>)
    requires BodyFits(body)
    ensures Possible(ops) && After(ops) == ApprovedStore(body)
  {
    hide Inv, After, Review, Apply;
    StartsEmpty();
    CreationAccepted(body);
    var create := CreateOp(0, true, body, HASH, NO_PROVENANCE);
    Runs.Extend([], create);
    ApprovalAccepted(body);
    ApprovalApplies(body);
    Runs.Extend([create], Runs.Approve(0, "a"));
    ops := [create] + [Runs.Approve(0, "a")];
    assert [] + [create] == [create];
  }

  lemma {:induction false} StartsEmpty()
    ensures Possible([]) && After([]) == EMPTY
  {
  }

  lemma {:induction false} ApprovalApplies(body: Body)
    requires Review(Candidates(body), Runs.Approve(0, "a").review).Success?
    requires Review(Candidates(body), Runs.Approve(0, "a").review).value.0 == ApprovedStore(body)
    ensures Inv(Candidates(body)) ==> Apply(Candidates(body), Runs.Approve(0, "a")) == ApprovedStore(body)
  {
    hide Review, Inv;
  }

  lemma {:induction false} OneListed(body: Body)
    requires Inv(ApprovedStore(body))
    ensures Listed(ApprovedStore(body)) == [Native(body).(authority := Approved)]
  {
    var t := ApprovedStore(body);
    assert ListFirst(t, 0) == [];
    assert ListFirst(t, 1) == [WithReviewState(t.reviews, t.records.rows[0])];
  }

  lemma {:induction false} OneChosen(r: Record, budget: int)
    requires r.authority == Approved && r.status == NoStatus && "t" in r.body.title.terms && r.body.content.words <= budget
    ensures Chosen(Rank([r], EVERY_TERM), budget) == [Ranked(r, 1, Score(r, EVERY_TERM))]
  {
    UnmatchedExactly(r, EVERY_TERM);
    assert "t" in TitleTerms(r);
    hide Score;
    assert Sift([r], EVERY_TERM).scored == [Scored(Score(r, EVERY_TERM), r)] by { OneSifted(r); }
    var ranked := Rank([r], EVERY_TERM).ranked;
    assert Sort([Scored(Score(r, EVERY_TERM), r)]) == [Scored(Score(r, EVERY_TERM), r)] by { OneSorted(Scored(Score(r, EVERY_TERM), r)); }
    assert ranked == [Ranked(r, 1, Score(r, EVERY_TERM))];
    assert Select(ranked, budget, 0) == Selection([], [], 0);
  }

  lemma {:induction false} OneSifted(r: Record)
    requires r.authority == Approved && r.status == NoStatus && Score(r, EVERY_TERM) > 0
    ensures Sift([r], EVERY_TERM).scored == [Scored(Score(r, EVERY_TERM), r)]
  {
    hide Score;
    assert [r][..0] == [];
    assert Sift([], EVERY_TERM).scored == [];
  }

  lemma {:induction false} OneSorted(x: Scored)
    ensures Sort([x]) == [x]
  {
    assert [x][..0] == [];
    assert Sort([]) == [];
  }

  // The only record of the store is chosen, so that it alone decides whether recall raises.
  lemma {:induction false} RecallOfOne(body: Body, q: RecallRequest)
    requires Inv(ApprovedStore(body)) && RecallFits(q) && q.query == EVERY_TERM
    requires "t" in body.title.terms && body.content.words <= q.budget
    ensures Recall.Recall(Listed(ApprovedStore(body)), q) == Refused
      <==> Before(LAST_TOKEN, q.token[..TIME_LENGTH]) || Unshowable(Native(body))
  {
    var t, r := ApprovedStore(body), Native(body).(authority := Approved);
    OneListed(body);
    OneChosen(r, q.budget);
    hide Inv, Recall.Recall, Listed, Rank, Chosen, Score, Before, RecallFits, Draft, TimeOf, Shown;
    assert Eligible(r) && r in [r];
    RecallFailsExactly(t, q);
    assert Ranked(r, 1, Score(r, EVERY_TERM)) in Chosen(Rank([r], EVERY_TERM), q.budget);
  }

  // One approved record of one word and seventeen domains: recall raises whenever it is found, for any budget.
  lemma {:induction false} SeventeenDomainsRefuse(q: RecallRequest) returns (ops: seq<Op>)
    requires RecallFits(q) && q.query == EVERY_TERM
    ensures Possible(ops) && |After(ops).records.rows| == 1
    ensures Recall.Recall(Listed(After(ops)), q) == Refused
  {
    var body := BodyWith("c", 17);
    hide Inv, After, Recall.Recall, Listed;
    ops := CreatedAndApproved(body);
    RecallOfOne(body, q);
  }

  // One approved record of one word and 65,537 characters: the same.
  lemma {:induction false} LongContentRefuses(q: RecallRequest) returns (ops: seq<Op>)
    requires RecallFits(q) && q.query == EVERY_TERM
    ensures Possible(ops) && |After(ops).records.rows| == 1
    ensures Recall.Recall(Listed(After(ops)), q) == Refused
  {
    var body := BodyWith(seq(MAX_SHOWN + 1, i => 'x'), 1);
    hide Inv, After, Recall.Recall, Listed;
    ops := CreatedAndApproved(body);
    RecallOfOne(body, q);
  }

  // A store whose only record is as small as it can be: recall raises for every request whose id is late enough.
  lemma {:induction false} LateRequestsRefuse(q: RecallRequest) returns (ops: seq<Op>)
    requires RecallFits(q) && q.query == EVERY_TERM
    ensures Possible(ops) && |After(ops).records.rows| == 1
    ensures Recall.Recall(Listed(After(ops)), q) == Refused <==> Before(LAST_TOKEN, q.token[..TIME_LENGTH])
  {
    var body := BodyWith("c", 1);
    hide Inv, After, Recall.Recall, Listed, Before;
    ops := CreatedAndApproved(body);
    RecallOfOne(body, q);
  }
}
