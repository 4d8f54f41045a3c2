/** Compiling ranked evidence into a context manifest under a token budget. */
module Context {
  import opened Wrappers
  import opened Memory
  import opened Retrieval
  import opened Relational

  datatype TrustClass = HumanVerified | ToolVerified | ModelGenerated | ExternalUntrusted | SystemTrust

  datatype ContextStatus = ApprovedStatus | Contested | SupersededStatus | Retracted

  datatype OmissionReason = TokenBudget | NoQueryMatch

  // The inclusion reason is a text made of the rank and the score, which the item carries.
  datatype ContextItem = ContextItem(
    record: RecordId,
    hash: Digest,
    title: Text,
    category: Text,
    domains: seq<Text>,
    trust: TrustClass,
    status: ContextStatus,
    tokens: int,
    sourceRefs: seq<RecordId>,
    rank: Option<int>,
    score: Option<int>)

  datatype ContextOmission = ContextOmission(
    record: RecordId,
    hash: Digest,
    reason: OmissionReason,
    rank: Option<int>,
    score: Option<int>)

  datatype ContextManifest = ContextManifest(
    id: string,
    task: string,
    compiledAt: int,
    budget: int,
    total: int,
    items: seq<ContextItem>,
    omissions: seq<ContextOmission>,
    excluded: Exclusions)

  const MAX_DOMAINS := 16
  const MAX_JSON_INTEGER := 9007199254740991

  // ---------- the validators of the contract ----------

  predicate ItemValid(i: ContextItem) {
    && 1 <= |i.title.raw| <= MAX_TITLE
    && |i.domains| <= MAX_DOMAINS
    && i.tokens >= 0
    && |i.sourceRefs| >= 1
    && NoDuplicates(i.sourceRefs)
    && (i.rank.Some? ==> i.rank.value >= 1)
    && (i.score.Some? ==> i.score.value >= 1)
    && (i.rank.None? <==> i.score.None?)
  }

  predicate OmissionValid(o: ContextOmission) {
    && (o.rank.Some? ==> o.rank.value >= 1)
    && (o.score.Some? ==> o.score.value >= 1)
    && (o.reason == TokenBudget ==> o.rank.Some? && o.score.Some?)
    && (o.reason == NoQueryMatch ==> !(o.rank.Some? && o.score.Some?))
  }

  function TokenSum(items: seq<ContextItem>): int {
    if |items| == 0 then 0 else TokenSum(items[..|items| - 1]) + items[|items| - 1].tokens
  }

  predicate ManifestValid(m: ContextManifest) {
    && 1 <= m.budget <= MAX_JSON_INTEGER
    && 0 <= m.total <= m.budget
    && (forall i :: 0 <= i < |m.items| ==> ItemValid(m.items[i]))
    && NoDuplicates(m.items)
    && (forall i :: 0 <= i < |m.omissions| ==> OmissionValid(m.omissions[i]))
    && (forall i, j :: 0 <= i < j < |m.omissions| ==> m.omissions[i].record != m.omissions[j].record)
    && TokenSum(m.items) == m.total
    && forall i, j :: 0 <= i < |m.items| && 0 <= j < |m.omissions| ==> m.items[i].record != m.omissions[j].record
  }

  // ---------- the compiler ----------

  datatype Selection = Selection(chosen: seq<Ranked>, dropped: seq<Ranked>, total: nat)

  function Tokens(r: Ranked): nat {
    r.record.body.content.words
  }

  // The greedy choice over the first n ranked records.
  function Select(ranked: seq<Ranked>, budget: int, n: nat): Selection
    requires n <= |ranked|
  {
    if n == 0 then Selection([], [], 0) else
    var s := Select(ranked, budget, n - 1);
    var r := ranked[n - 1];
    if s.total + Tokens(r) > budget then s.(dropped := s.dropped + [r])
    else s.(chosen := s.chosen + [r], total := s.total + Tokens(r))
  }

  function ItemOf(r: Ranked): ContextItem {
    ContextItem(r.record.id, r.record.hash, r.record.body.title, r.record.body.category, r.record.body.domains,
                HumanVerified, ApprovedStatus, Tokens(r), [r.record.id], Some(r.rank), Some(r.score))
  }

  function Items(s: seq<Ranked>): seq<ContextItem> {
    seq(|s|, i requires 0 <= i < |s| => ItemOf(s[i]))
  }

  function BudgetOmission(r: Ranked): ContextOmission {
    ContextOmission(r.record.id, r.record.hash, TokenBudget, Some(r.rank), Some(r.score))
  }

  function MatchOmission(r: Record): ContextOmission {
    ContextOmission(r.id, r.hash, NoQueryMatch, None, None)
  }

  function Omissions(dropped: seq<Ranked>, unmatched: seq<Record>): seq<ContextOmission> {
    seq(|dropped|, i requires 0 <= i < |dropped| => BudgetOmission(dropped[i]))
    + seq(|unmatched|, i requires 0 <= i < |unmatched| => MatchOmission(unmatched[i]))
  }

  function Draft(r: Retrieval, id: string, task: string, at: int, budget: int): ContextManifest {
    var s := Select(r.ranked, budget, |r.ranked|);
    ContextManifest(id, task, at, budget, s.total, Items(s.chosen), Omissions(s.dropped, r.unmatched), r.excluded)
  }

  function Chosen(r: Retrieval, budget: int): seq<Ranked> {
    Select(r.ranked, budget, |r.ranked|).chosen
  }

  // The manifest and the records it selects; the contract refuses a draft that breaks one of its validators.
  function Compile(r: Retrieval, id: string, task: string, at: int, budget: int): Result<(ContextManifest, seq<Record>), ()> {
    var draft := Draft(r, id, task, at, budget);
    if ManifestValid(draft) then Success((draft, Plain(Chosen(r, budget)))) else Failure(())
  }

  function Plain(s: seq<Ranked>): seq<Record> {
    seq(|s|, i requires 0 <= i < |s| => s[i].record)
  }

  method CompileContext(r: Retrieval, id: string, task: string, at: int, budget: int)
    returns (result: Result<(ContextManifest, seq<Record>), ()>)
    ensures result == Compile(r, id, task, at, budget)
  {
    var selected: seq<Ranked>, dropped: seq<Ranked>, total: nat := [], [], 0;
    for n := 0 to |r.ranked|
      invariant Select(r.ranked, budget, n) == Selection(selected, dropped, total)
    {
      var evidence := r.ranked[n];
      if total + Tokens(evidence) > budget {
        dropped := dropped + [evidence];
        continue;
      }
      selected := selected + [evidence];
      total := total + Tokens(evidence);
    }
    var manifest := ContextManifest(id, task, at, budget, total, Items(selected), Omissions(dropped, r.unmatched), r.excluded);
    if !ManifestValid(manifest) { return Failure(()); }
    result := Success((manifest, Plain(selected)));
  }

  // ---------- what the greedy choice is ----------

  lemma {:induction false} TokenSumSnoc(items: seq<ContextItem>, x: ContextItem)
    ensures TokenSum(items + [x]) == TokenSum(items) + x.tokens
  {
    assert (items + [x])[..|items|] == items;
  }

  // The total is the sum of the chosen and stays within the budget; every ranked record is chosen or dropped.
  lemma {:induction false} SelectAccounts(ranked: seq<Ranked>, budget: int, n: nat)
    requires n <= |ranked|
    ensures var s := Select(ranked, budget, n);
      && TokenSum(Items(s.chosen)) == s.total
      && (budget >= 0 ==> s.total <= budget)
      && |s.chosen| + |s.dropped| == n
  {
    if n > 0 {
      SelectAccounts(ranked, budget, n - 1);
      var s, r := Select(ranked, budget, n - 1), ranked[n - 1];
      assert Items(s.chosen + [r]) == Items(s.chosen) + [ItemOf(r)];
      TokenSumSnoc(Items(s.chosen), ItemOf(r));
    }
  }

  // No dropped record fits in what is left of the budget at the end.
  lemma {:induction false} SelectIsMaximal(ranked: seq<Ranked>, budget: int, n: nat)
    requires n <= |ranked|
    ensures var s := Select(ranked, budget, n);
      forall r :: r in s.dropped ==> s.total + Tokens(r) > budget
  {
    if n > 0 { SelectIsMaximal(ranked, budget, n - 1); }
  }

  // The tokens of the first n records taken by a choice.
  function Taken(ranked: seq<Ranked>, choice: seq<bool>, n: nat): nat
    requires n <= |ranked| == |choice|
  {
    if n == 0 then 0 else Taken(ranked, choice, n - 1) + (if choice[n - 1] then Tokens(ranked[n - 1]) else 0)
  }

  predicate TakenGreedily(ranked: seq<Ranked>, budget: int, i: nat)
    requires i < |ranked|
  {
    Select(ranked, budget, i).total + Tokens(ranked[i]) <= budget
  }

  lemma {:induction false} TakenMonotone(ranked: seq<Ranked>, choice: seq<bool>, n: nat, m: nat)
    requires n <= m <= |ranked| == |choice|
    ensures Taken(ranked, choice, n) <= Taken(ranked, choice, m)
    decreases m
  {
    if n < m { TakenMonotone(ranked, choice, n, m - 1); }
  }

  // The choice agrees with the greedy one before record k, which the greedy one takes and the choice leaves.
  ghost predicate LeavesFirst(ranked: seq<Ranked>, budget: int, choice: seq<bool>, k: nat)
    requires k < |ranked| == |choice|
  {
    && !choice[k]
    && TakenGreedily(ranked, budget, k)
    && forall i :: 0 <= i < k ==> choice[i] == TakenGreedily(ranked, budget, i)
  }

  // Among all choices within the budget the greedy one is first by rank: where another choice first differs,
  // the greedy one takes the record and the other leaves it.
  lemma {:induction false} GreedyIsFirst(ranked: seq<Ranked>, budget: int, choice: seq<bool>, n: nat)
    requires n <= |ranked| == |choice| && Taken(ranked, choice, |ranked|) <= budget
    ensures || ((forall i :: 0 <= i < n ==> choice[i] == TakenGreedily(ranked, budget, i))
                && Taken(ranked, choice, n) == Select(ranked, budget, n).total)
            || (exists k :: 0 <= k < n && LeavesFirst(ranked, budget, choice, k))
  {
    if n > 0 {
      GreedyIsFirst(ranked, budget, choice, n - 1);
      TakenMonotone(ranked, choice, n, |ranked|);
      if choice[n - 1] != TakenGreedily(ranked, budget, n - 1)
        && forall i :: 0 <= i < n - 1 ==> choice[i] == TakenGreedily(ranked, budget, i) {
        assert LeavesFirst(ranked, budget, choice, n - 1);
      }
    }
  }

  // A larger budget can drop a record that a smaller one includes.
  lemma {:induction false} BudgetIsNotMonotone()
    ensures exists ranked: seq<Ranked>, r, small, large ::
      small <= large && r in Select(ranked, small, |ranked|).chosen && r !in Select(ranked, large, |ranked|).chosen
  {
    var text := (n: nat) => Text("", [], n);
    var body := (n: nat) => Body(text(0), text(n), text(0), [], [], [], []);
    var a := Ranked(NativeRecord(1, body(2), Sha256(""), NO_PROVENANCE), 1, 2);
    var b := Ranked(NativeRecord(2, body(1), Sha256(""), NO_PROVENANCE), 2, 1);
    assert Select([a, b], 1, 0) == Selection([], [], 0);
    assert Select([a, b], 1, 1) == Selection([], [a], 0);
    assert Select([a, b], 1, 2) == Selection([b], [a], 1);
    assert Select([a, b], 2, 1) == Selection([a], [], 2);
    assert Select([a, b], 2, 2) == Selection([a], [b], 2);
    assert b in Select([a, b], 1, |[a, b]|).chosen && b !in Select([a, b], 2, |[a, b]|).chosen;
  }

  // ---------- the compiled manifest ----------

  ghost predicate DistinctRanked(s: seq<Ranked>) {
    forall i, j :: 0 <= i < j < |s| ==> s[i].record.id != s[j].record.id
  }

  // Chosen and dropped records are ranked ones, all different from each other.
  lemma {:induction false} SelectDistinct(ranked: seq<Ranked>, budget: int, n: nat)
    requires n <= |ranked| && DistinctRanked(ranked)
    ensures var s := Select(ranked, budget, n);
      && DistinctRanked(s.chosen + s.dropped)
      && forall r :: r in s.chosen + s.dropped <==> r in ranked[..n]
  {
    if n > 0 {
      SelectDistinct(ranked, budget, n - 1);
      var s, r := Select(ranked, budget, n - 1), ranked[n - 1];
      assert ranked[..n] == ranked[..n - 1] + [r];
      forall x | x in s.chosen + s.dropped
        ensures x.record.id != r.record.id
      {
        assert x in ranked[..n - 1];
        var i :| 0 <= i < n - 1 && ranked[i] == x;
      }
      InsertedDistinct(s.chosen, s.dropped, r);
    }
  }

  lemma {:induction false} InsertedDistinct(a: seq<Ranked>, b: seq<Ranked>, r: Ranked)
    requires DistinctRanked(a + b) && forall x :: x in a + b ==> x.record.id != r.record.id
    ensures DistinctRanked((a + [r]) + b) && DistinctRanked(a + (b + [r]))
  {
    forall i, j | 0 <= i < j < |a| + |b| + 1
      ensures ((a + [r]) + b)[i].record.id != ((a + [r]) + b)[j].record.id
      ensures (a + (b + [r]))[i].record.id != (a + (b + [r]))[j].record.id
    {
      var s := a + b;
      var i0, j0 := if i > |a| then i - 1 else i, if j > |a| then j - 1 else j;
      if i != |a| && j != |a| { assert s[i0].record.id != s[j0].record.id; }
      if i == |a| { assert s[j0] in s; }
      if j == |a| { assert s[i0] in s; }
      if j < |s| { assert s[i].record.id != s[j].record.id; } else { assert s[i] in s; }
    }
  }

  ghost predicate WellRanked(r: Retrieval) {
    && DistinctRanked(r.ranked)
    && (forall i, j :: 0 <= i < j < |r.unmatched| ==> r.unmatched[i].id != r.unmatched[j].id)
    && (forall x, u :: x in r.ranked && u in r.unmatched ==> x.record.id != u.id)
    && forall x :: x in r.ranked ==> x.rank >= 1 && x.score >= 1
  }

  lemma {:induction false} RankIsWellRanked(records: seq<Record>, q: set<Term>)
    requires DistinctRecords(records)
    ensures WellRanked(Rank(records, q))
  {
    hide Score, Sort, Sift, Ordered;
    var s := Sift(records, q);
    SiftMembers(records, q);
    SiftDistinct(records, q);
    SortDistinct(s.scored);
    SortDistinct(Unscored(s.unmatched));
    SortOrders(s.scored);
    SortOrders(Unscored(s.unmatched));
    SameMembers(Sort(s.scored), s.scored);
    SameMembers(Sort(Unscored(s.unmatched)), Unscored(s.unmatched));
    var r := Rank(records, q);
    forall x | x in r.ranked
      ensures x.record in records && x.rank >= 1 && x.score >= 1 && x.score == Score(x.record, q)
    {
      var i :| 0 <= i < |r.ranked| && r.ranked[i] == x;
      assert Sort(s.scored)[i] in s.scored;
    }
    forall u | u in r.unmatched
      ensures u in records && Score(u, q) == 0
    {
      var i :| 0 <= i < |r.unmatched| && r.unmatched[i] == u;
      assert Sort(Unscored(s.unmatched))[i] in Unscored(s.unmatched);
    }
    SameIdSameRecord(records);
  }

  // What is chosen was listed.
  lemma {:induction false} ChosenAreRecords(records: seq<Record>, q: set<Term>, budget: int)
    ensures forall c :: c in Chosen(Rank(records, q), budget) ==> c.record in records
  {
    hide Score, Sort, Sift, Ordered;
    var s, r := Sift(records, q), Rank(records, q);
    SiftMembers(records, q);
    SortOrders(s.scored);
    SameMembers(Sort(s.scored), s.scored);
    ChosenAreRanked(r.ranked, budget, |r.ranked|);
    forall x | x in r.ranked
      ensures x.record in records
    {
      var i :| 0 <= i < |r.ranked| && r.ranked[i] == x;
      assert Sort(s.scored)[i] in s.scored;
    }
  }

  lemma {:induction false} ChosenAreRanked(ranked: seq<Ranked>, budget: int, n: nat)
    requires n <= |ranked|
    ensures forall c :: c in Select(ranked, budget, n).chosen ==> c in ranked
  {
    if n > 0 { ChosenAreRanked(ranked, budget, n - 1); }
  }

  lemma {:induction false} SameIdSameRecord(records: seq<Record>)
    requires DistinctRecords(records)
    ensures forall a, b :: a in records && b in records && a.id == b.id ==> a == b
  {
  }

  // What a context item asks of the record it is made of.
  predicate Admits(r: Record) {
    |r.body.domains| <= MAX_DOMAINS && 1 <= |r.body.title.raw| <= MAX_TITLE
  }

  // Over approved records with distinct identities a draft meets every validator of the manifest contract exactly
  // when the budget is positive and representable, and no selected record carries more than sixteen domains or a
  // title of another length than the record contract allows.
  lemma {:induction false} ManifestValidExactly(records: seq<Record>, q: set<Term>, id: string, task: string, at: int, budget: int)
    requires DistinctRecords(records)
    ensures var r := Rank(records, q);
      ManifestValid(Draft(r, id, task, at, budget))
      <==> 1 <= budget <= MAX_JSON_INTEGER && forall c :: c in Chosen(r, budget) ==> Admits(c.record)
  {
    hide Rank;
    RankIsWellRanked(records, q);
    DraftValidExactly(Rank(records, q), id, task, at, budget);
  }

  lemma {:induction false} DraftValidExactly(r: Retrieval, id: string, task: string, at: int, budget: int)
    requires WellRanked(r)
    ensures ManifestValid(Draft(r, id, task, at, budget))
      <==> 1 <= budget <= MAX_JSON_INTEGER && forall c :: c in Chosen(r, budget) ==> Admits(c.record)
  {
    hide Select;
    var s, m := Select(r.ranked, budget, |r.ranked|), Draft(r, id, task, at, budget);
    SelectAccounts(r.ranked, budget, |r.ranked|);
    SelectDistinct(r.ranked, budget, |r.ranked|);
    assert r.ranked[..|r.ranked|] == r.ranked;
    assert forall x :: x in s.chosen ==> x in s.chosen + s.dropped;
    assert forall x :: x in s.dropped ==> x in s.chosen + s.dropped;
    ItemsValidExactly(s.chosen);
    OmissionsValid(s, r.unmatched);
  }

  lemma {:induction false} ItemsValidExactly(chosen: seq<Ranked>)
    requires forall x :: x in chosen ==> x.rank >= 1 && x.score >= 1
    ensures (forall i :: 0 <= i < |chosen| ==> ItemValid(Items(chosen)[i]))
      <==> forall c :: c in chosen ==> Admits(c.record)
  {
    forall i | 0 <= i < |chosen|
      ensures ItemValid(Items(chosen)[i]) <==> Admits(chosen[i].record)
    {
      assert chosen[i] in chosen;
    }
  }

  lemma {:induction false} OmissionsValid(s: Selection, unmatched: seq<Record>)
    requires DistinctRanked(s.chosen + s.dropped)
    requires forall i, j :: 0 <= i < j < |unmatched| ==> unmatched[i].id != unmatched[j].id
    requires forall x, u :: x in s.chosen + s.dropped && u in unmatched ==> x.record.id != u.id
    requires forall x :: x in s.dropped ==> x.rank >= 1 && x.score >= 1
    ensures var items, omissions := Items(s.chosen), Omissions(s.dropped, unmatched);
      && NoDuplicates(items)
      && (forall i :: 0 <= i < |omissions| ==> OmissionValid(omissions[i]))
      && (forall i, j :: 0 <= i < j < |omissions| ==> omissions[i].record != omissions[j].record)
      && forall i, j :: 0 <= i < |items| && 0 <= j < |omissions| ==> items[i].record != omissions[j].record
  {
    var items, omissions := Items(s.chosen), Omissions(s.dropped, unmatched);
    var all := s.chosen + s.dropped;
    forall i, j | 0 <= i < j < |items|
      ensures items[i] != items[j]
    {
      assert all[i].record.id != all[j].record.id;
    }
    forall i, j | 0 <= i < j < |omissions|
      ensures omissions[i].record != omissions[j].record
    {
      if j < |s.dropped| {
        assert all[|s.chosen| + i].record.id != all[|s.chosen| + j].record.id;
      } else if i < |s.dropped| {
        assert all[|s.chosen| + i] in all;
      }
    }
    forall i, j | 0 <= i < |items| && 0 <= j < |omissions|
      ensures items[i].record != omissions[j].record
    {
      assert all[i] in all;
      if j < |s.dropped| { assert all[i].record.id != all[|s.chosen| + j].record.id; }
    }
  }

  // ---------- when a larger budget keeps what a smaller one chose ----------

  // The tokens of the first n ranked records.
  function TokensOf(ranked: seq<Ranked>, n: nat): nat
    requires n <= |ranked|
  {
    if n == 0 then 0 else TokensOf(ranked, n - 1) + Tokens(ranked[n - 1])
  }

  // No record that costs tokens is ranked after a dearer one.
  predicate CheapestFirst(ranked: seq<Ranked>) {
    forall i, j :: 0 <= i < j < |ranked| && 0 < Tokens(ranked[j]) ==> Tokens(ranked[i]) <= Tokens(ranked[j])
  }

  // What a budget takes, every larger budget takes too: by place in the ranking, and by record.
  ghost predicate KeepsPlaces(ranked: seq<Ranked>) {
    forall small, large, i :: 0 <= small <= large && 0 <= i < |ranked| && TakenGreedily(ranked, small, i)
      ==> TakenGreedily(ranked, large, i)
  }

  ghost predicate KeepsChoices(ranked: seq<Ranked>) {
    forall small, large, r :: 0 <= small <= large && r in Select(ranked, small, |ranked|).chosen
      ==> r in Select(ranked, large, |ranked|).chosen
  }

  // As long as everything fits, everything is taken.
  lemma {:induction false} AllTaken(ranked: seq<Ranked>, budget: nat, n: nat)
    requires n <= |ranked| && TokensOf(ranked, n) <= budget
    ensures Select(ranked, budget, n).total == TokensOf(ranked, n)
  {
    if n > 0 { AllTaken(ranked, budget, n - 1); }
  }

  // Once something did not fit, nothing dearer fits any more.
  lemma {:induction false} FullStaysFull(ranked: seq<Ranked>, budget: nat, n: nat, j: nat)
    requires CheapestFirst(ranked) && n <= j < |ranked| && 0 < Tokens(ranked[j]) && TokensOf(ranked, n) > budget
    ensures Select(ranked, budget, n).total + Tokens(ranked[j]) > budget
  {
    if TokensOf(ranked, n - 1) > budget {
      FullStaysFull(ranked, budget, n - 1, j);
    } else {
      AllTaken(ranked, budget, n - 1);
      assert Tokens(ranked[n - 1]) <= Tokens(ranked[j]);
    }
  }

  lemma {:induction false} TokensGrow(ranked: seq<Ranked>, n: nat, m: nat)
    requires n <= m <= |ranked|
    ensures TokensOf(ranked, n) <= TokensOf(ranked, m)
    decreases m
  {
    if n < m { TokensGrow(ranked, n, m - 1); }
  }

  // With the cheapest first the choice is the free records and as long a beginning of the others as fits.
  lemma {:induction false} BeginningIsTaken(ranked: seq<Ranked>, budget: nat, j: nat)
    requires CheapestFirst(ranked) && j < |ranked|
    ensures TakenGreedily(ranked, budget, j) <==> Tokens(ranked[j]) == 0 || TokensOf(ranked, j + 1) <= budget
  {
    SelectAccounts(ranked, budget, j);
    if TokensOf(ranked, j) <= budget {
      AllTaken(ranked, budget, j);
    } else if Tokens(ranked[j]) > 0 {
      FullStaysFull(ranked, budget, j, j);
    }
  }

  // Membership in the choice is being taken at one's own place.
  lemma {:induction false} ChosenIsTaken(ranked: seq<Ranked>, budget: int, n: nat, i: nat)
    requires DistinctRanked(ranked) && i < n <= |ranked|
    ensures ranked[i] in Select(ranked, budget, n).chosen <==> TakenGreedily(ranked, budget, i)
    decreases n
  {
    SelectDistinct(ranked, budget, n - 1);
    if i < n - 1 {
      ChosenIsTaken(ranked, budget, n - 1, i);
      assert ranked[i] != ranked[n - 1];
    } else {
      NotBefore(ranked, budget, i);
    }
  }

  lemma {:induction false} NotBefore(ranked: seq<Ranked>, budget: int, i: nat)
    requires DistinctRanked(ranked) && i < |ranked|
    ensures ranked[i] !in Select(ranked, budget, i).chosen
  {
    SelectDistinct(ranked, budget, i);
    var s := Select(ranked, budget, i);
    assert forall x :: x in s.chosen ==> x in s.chosen + s.dropped;
    assert forall k :: 0 <= k < i ==> ranked[k] != ranked[i];
  }

  lemma {:induction false} CheapestFirstKeeps(ranked: seq<Ranked>)
    requires CheapestFirst(ranked)
    ensures KeepsPlaces(ranked)
  {
    hide CheapestFirst, TakenGreedily;
    forall small, large, i | 0 <= small <= large && 0 <= i < |ranked| && TakenGreedily(ranked, small, i)
      ensures TakenGreedily(ranked, large, i)
    {
      BeginningIsTaken(ranked, small, i);
      BeginningIsTaken(ranked, large, i);
    }
  }

  // For different records keeping the places is keeping the chosen records.
  lemma {:induction false} KeptPlacesAreKeptChoices(ranked: seq<Ranked>)
    requires DistinctRanked(ranked)
    ensures KeepsChoices(ranked) <==> KeepsPlaces(ranked)
  {
    hide Select, DistinctRanked, TakenGreedily;
    forall budget, i | 0 <= i < |ranked|
      ensures ranked[i] in Select(ranked, budget, |ranked|).chosen <==> TakenGreedily(ranked, budget, i)
    {
      ChosenIsTaken(ranked, budget, |ranked|, i);
    }
    forall budget, r | r in Select(ranked, budget, |ranked|).chosen
      ensures exists i :: 0 <= i < |ranked| && ranked[i] == r
    {
      SelectDistinct(ranked, budget, |ranked|);
      assert r in Select(ranked, budget, |ranked|).chosen + Select(ranked, budget, |ranked|).dropped;
    }
  }

  // A dearer record before a cheaper one that is not free, with only free ones in between.
  ghost predicate Drop(ranked: seq<Ranked>, i: nat, j: nat) {
    && i < j < |ranked|
    && 0 < Tokens(ranked[j]) < Tokens(ranked[i])
    && forall k :: i < k < j ==> Tokens(ranked[k]) == 0
  }

  lemma {:induction false} NearestDrop(ranked: seq<Ranked>, i: nat, j: nat) returns (a: nat, b: nat)
    requires i < j < |ranked| && 0 < Tokens(ranked[j]) < Tokens(ranked[i])
    ensures Drop(ranked, a, b)
    decreases j - i
  {
    if k :| i < k < j && Tokens(ranked[k]) > 0 {
      if Tokens(ranked[k]) > Tokens(ranked[j]) {
        a, b := NearestDrop(ranked, k, j);
      } else {
        a, b := NearestDrop(ranked, i, k);
      }
    } else {
      a, b := i, j;
    }
  }

  lemma {:induction false} FreeOnesCostNothing(ranked: seq<Ranked>, budget: nat, n: nat, m: nat)
    requires n <= m <= |ranked| && forall k :: n <= k < m ==> Tokens(ranked[k]) == 0
    ensures Select(ranked, budget, m).total == Select(ranked, budget, n).total
    decreases m
  {
    if n < m { FreeOnesCostNothing(ranked, budget, n, m - 1); }
  }

  // At a drop the budget that just fits the cheaper record takes it, and the one that just fits the dearer does not.
  lemma {:induction false} DropLoses(ranked: seq<Ranked>, a: nat, b: nat)
    requires Drop(ranked, a, b)
    ensures var before := TokensOf(ranked, a);
      && TakenGreedily(ranked, before + Tokens(ranked[b]), b)
      && !TakenGreedily(ranked, before + Tokens(ranked[a]), b)
  {
    var before := TokensOf(ranked, a);
    var small, large := before + Tokens(ranked[b]), before + Tokens(ranked[a]);
    AllTaken(ranked, small, a);
    AllTaken(ranked, large, a);
    FreeOnesCostNothing(ranked, small, a + 1, b);
    FreeOnesCostNothing(ranked, large, a + 1, b);
  }

  // A larger budget keeps everything that any smaller one chose exactly when no record that costs tokens is ranked
  // after a dearer one.
  lemma {:induction false} BudgetIsMonotoneExactly(ranked: seq<Ranked>)
    ensures KeepsPlaces(ranked) <==> CheapestFirst(ranked)
    ensures DistinctRanked(ranked) ==> (KeepsChoices(ranked) <==> CheapestFirst(ranked))
  {
    hide Select, DistinctRanked, TakenGreedily;
    if CheapestFirst(ranked) {
      CheapestFirstKeeps(ranked);
    } else {
      var i, j :| 0 <= i < j < |ranked| && 0 < Tokens(ranked[j]) && Tokens(ranked[i]) > Tokens(ranked[j]);
      var a, b := NearestDrop(ranked, i, j);
      DropLoses(ranked, a, b);
    }
    if DistinctRanked(ranked) { KeptPlacesAreKeptChoices(ranked); }
  }

  // ---------- nothing is lost ----------

  datatype Standing = Admitted | NotApproved | MissingSource | Replaced | Conflicting

  function StandingOf(r: Record): Standing {
    match r.authority
    case Superseded => Replaced
    case Contradicted => Conflicting
    case Approved => if r.status == Missing then MissingSource else Admitted
    case _ => NotApproved
  }

  function CountOf(records: seq<Record>, s: Standing): nat {
    if |records| == 0 then 0
    else CountOf(records[..|records| - 1], s) + (if StandingOf(records[|records| - 1]) == s then 1 else 0)
  }

  lemma {:induction false} SiftCounts(records: seq<Record>, q: set<Term>)
    ensures var s := Sift(records, q);
      && s.excluded == Exclusions(CountOf(records, NotApproved), CountOf(records, MissingSource),
                                  CountOf(records, Replaced), CountOf(records, Conflicting))
      && |s.scored| + |s.unmatched| == CountOf(records, Admitted)
      && |records| == CountOf(records, Admitted) + CountOf(records, NotApproved) + CountOf(records, MissingSource)
                      + CountOf(records, Replaced) + CountOf(records, Conflicting)
  {
    hide Score;
    if |records| > 0 { SiftCounts(records[..|records| - 1], q); }
  }

  // Items, omissions and the four exclusion counts account for every record once.
  lemma {:induction false} ManifestAccountsForAll(records: seq<Record>, q: set<Term>, id: string, task: string, at: int, budget: int)
    ensures var m := Draft(Rank(records, q), id, task, at, budget);
      && |m.items| + |m.omissions| == CountOf(records, Admitted)
      && m.excluded == Exclusions(CountOf(records, NotApproved), CountOf(records, MissingSource),
                                  CountOf(records, Replaced), CountOf(records, Conflicting))
      && |m.items| + |m.omissions| + m.excluded.notApproved + m.excluded.missingSource + m.excluded.superseded
         + m.excluded.conflict == |records|
  {
    hide Sift, Sort;
    var r := Rank(records, q);
    SiftCounts(records, q);
    SelectAccounts(r.ranked, budget, |r.ranked|);
    SortOrders(Sift(records, q).scored);
    SortOrders(Unscored(Sift(records, q).unmatched));
    SameSize(Sort(Sift(records, q).scored), Sift(records, q).scored);
    SameSize(Sort(Unscored(Sift(records, q).unmatched)), Unscored(Sift(records, q).unmatched));
  }
}
