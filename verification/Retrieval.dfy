/** Ranking approved memory for a query: a lexical score, an order that ties by identity, and what is left out. */
module Retrieval {
  import opened Memory

  type Term = string

  // ---------- the lexical score ----------

  function Terms(texts: seq<Text>): set<Term> {
    set x, t | x in texts && t in x.terms :: t
  }

  function TitleTerms(r: Record): set<Term> { Terms([r.body.title]) }
  function TopicTerms(r: Record): set<Term> { Terms(r.body.topics) }
  function ClassTerms(r: Record): set<Term> { Terms([r.body.category]) + Terms(r.body.domains) }

  function Count(s: seq<Term>, t: Term): nat {
    if |s| == 0 then 0 else Count(s[..|s| - 1], t) + (if s[|s| - 1] == t then 1 else 0)
  }

  // How many positions of a text hold one of the given terms.
  function Occurrences(s: seq<Term>, q: set<Term>): nat {
    if |s| == 0 then 0 else Occurrences(s[..|s| - 1], q) + (if s[|s| - 1] in q then 1 else 0)
  }

  function Score(r: Record, q: set<Term>): nat {
    4 * |q * TitleTerms(r)| + 3 * |q * TopicTerms(r)| + 2 * |q * ClassTerms(r)|
    + (if Occurrences(r.body.content.terms, q) < 8 then Occurrences(r.body.content.terms, q) else 8)
  }

  lemma {:induction false} OccurrencesAdd(s: seq<Term>, q: set<Term>, t: Term)
    requires t !in q
    ensures Occurrences(s, q + {t}) == Occurrences(s, q) + Count(s, t)
  {
    if |s| > 0 { OccurrencesAdd(s[..|s| - 1], q, t); }
  }

  lemma {:induction false} NoOccurrence(s: seq<Term>, q: set<Term>)
    ensures Occurrences(s, q) == 0 <==> forall t :: t in s ==> t !in q
  {
    if |s| > 0 {
      NoOccurrence(s[..|s| - 1], q);
      assert s == s[..|s| - 1] + [s[|s| - 1]];
    }
  }

  // The sum over the query terms of how often each occurs is one pass over the text.
  method LexicalScore(r: Record, q: set<Term>) returns (score: nat)
    ensures score == Score(r, q)
  {
    if q == {} {
      NoOccurrence(r.body.content.terms, q);
      assert q * TitleTerms(r) == {} && q * TopicTerms(r) == {} && q * ClassTerms(r) == {};
      return 0;
    }
    var content := r.body.content.terms;
    var hits, left, seen := 0, q, {};
    NoOccurrence(content, seen);
    while left != {}
      invariant seen !! left && seen + left == q && hits == Occurrences(content, seen)
      decreases left
    {
      var t :| t in left;
      OccurrencesAdd(content, seen, t);
      hits := hits + Count(content, t);
      left, seen := left - {t}, seen + {t};
    }
    assert seen == q;
    score := 4 * |q * TitleTerms(r)| + 3 * |q * TopicTerms(r)| + 2 * |q * ClassTerms(r)| + (if hits < 8 then hits else 8);
  }

  // A record is unmatched exactly when no query term occurs in its title, topics, classification or content.
  lemma {:induction false} UnmatchedExactly(r: Record, q: set<Term>)
    ensures Score(r, q) == 0 <==>
      forall t :: t in q ==> t !in TitleTerms(r) && t !in TopicTerms(r) && t !in ClassTerms(r) && t !in r.body.content.terms
  {
    NoOccurrence(r.body.content.terms, q);
    assert |q * TitleTerms(r)| == 0 <==> q * TitleTerms(r) == {};
    assert |q * TopicTerms(r)| == 0 <==> q * TopicTerms(r) == {};
    assert |q * ClassTerms(r)| == 0 <==> q * ClassTerms(r) == {};
    assert forall t :: t in q * TitleTerms(r) <==> t in q && t in TitleTerms(r);
    assert forall t :: t in q * TopicTerms(r) <==> t in q && t in TopicTerms(r);
    assert forall t :: t in q * ClassTerms(r) <==> t in q && t in ClassTerms(r);
  }

  // ---------- sorting by score and identity ----------

  datatype Scored = Scored(score: nat, record: Record)

  predicate Precedes(a: Scored, b: Scored) {
    a.score > b.score || (a.score == b.score && a.record.id < b.record.id)
  }

  ghost predicate Ordered(s: seq<Scored>) {
    forall i, j :: 0 <= i < j < |s| ==> !Precedes(s[j], s[i])
  }

  function Insert(s: seq<Scored>, x: Scored): seq<Scored> {
    if |s| == 0 then [x]
    else if Precedes(x, s[|s| - 1]) then Insert(s[..|s| - 1], x) + [s[|s| - 1]]
    else s + [x]
  }

  // The library sort by descending score, then ascending identity.
  function Sort(s: seq<Scored>): seq<Scored> {
    if |s| == 0 then [] else Insert(Sort(s[..|s| - 1]), s[|s| - 1])
  }

  lemma {:induction false} OrderedSnoc(s: seq<Scored>, x: Scored)
    requires Ordered(s) && forall y :: y in s ==> !Precedes(x, y)
    ensures Ordered(s + [x])
  {
    forall i, j | 0 <= i < j < |s| + 1
      ensures !Precedes((s + [x])[j], (s + [x])[i])
    {
      if j == |s| { assert s[i] in s; }
    }
  }

  lemma {:induction false} InsertAdds(s: seq<Scored>, x: Scored)
    ensures multiset(Insert(s, x)) == multiset(s) + multiset{x}
    ensures forall y :: y in Insert(s, x) <==> y in s || y == x
  {
    if |s| > 0 && Precedes(x, s[|s| - 1]) {
      InsertAdds(s[..|s| - 1], x);
      assert s == s[..|s| - 1] + [s[|s| - 1]];
    }
  }

  lemma {:induction false} InsertOrders(s: seq<Scored>, x: Scored)
    requires Ordered(s)
    ensures Ordered(Insert(s, x))
  {
    if |s| > 0 && Precedes(x, s[|s| - 1]) {
      var front, last := s[..|s| - 1], s[|s| - 1];
      InsertOrders(front, x);
      InsertAdds(front, x);
      forall y | y in front
        ensures !Precedes(last, y)
      {
        var i :| 0 <= i < |front| && front[i] == y;
        assert s[i] == y;
      }
      hide Ordered;
      OrderedSnoc(Insert(front, x), last);
    } else if |s| > 0 {
      LastIsGreatest(s, x);
      OrderedSnoc(s, x);
    }
  }

  lemma {:induction false} LastIsGreatest(s: seq<Scored>, x: Scored)
    requires Ordered(s) && |s| > 0 && !Precedes(x, s[|s| - 1])
    ensures forall y :: y in s ==> !Precedes(x, y)
  {
    forall y | y in s
      ensures !Precedes(x, y)
    {
      var i :| 0 <= i < |s| && s[i] == y;
      if i < |s| - 1 { assert !Precedes(s[|s| - 1], s[i]); }
    }
  }

  lemma {:induction false} SortOrders(s: seq<Scored>)
    ensures Ordered(Sort(s)) && multiset(Sort(s)) == multiset(s)
  {
    if |s| > 0 {
      SortOrders(s[..|s| - 1]);
      InsertOrders(Sort(s[..|s| - 1]), s[|s| - 1]);
      InsertAdds(Sort(s[..|s| - 1]), s[|s| - 1]);
      assert s == s[..|s| - 1] + [s[|s| - 1]];
    }
  }

  ghost predicate DistinctIds(s: seq<Scored>) {
    forall i, j :: 0 <= i < j < |s| ==> s[i].record.id != s[j].record.id
  }

  // Two ordered arrangements of the same entries are equal when no two entries share an identity.
  lemma {:induction false} OrderedIsUnique(a: seq<Scored>, b: seq<Scored>)
    requires Ordered(a) && Ordered(b) && multiset(a) == multiset(b) && DistinctIds(a) && DistinctIds(b)
    ensures a == b
  {
    hide Ordered, DistinctIds;
    SameSize(a, b);
    if |a| > 0 {
      var x, y := a[|a| - 1], b[|b| - 1];
      FrontKeeps(a);
      FrontKeeps(b);
      LastAgrees(a, b);
      assert a == a[..|a| - 1] + [x] && b == b[..|b| - 1] + [y];
      assert multiset(a[..|a| - 1]) == multiset(a) - multiset{x};
      assert multiset(b[..|b| - 1]) == multiset(b) - multiset{y};
      OrderedIsUnique(a[..|a| - 1], b[..|b| - 1]);
    }
  }

  lemma {:induction false} FrontKeeps(a: seq<Scored>)
    requires Ordered(a) && DistinctIds(a) && |a| > 0
    ensures Ordered(a[..|a| - 1]) && DistinctIds(a[..|a| - 1])
  {
  }

  lemma {:induction false} LastAgrees(a: seq<Scored>, b: seq<Scored>)
    requires Ordered(a) && Ordered(b) && multiset(a) == multiset(b) && DistinctIds(a) && |a| == |b| > 0
    ensures a[|a| - 1] == b[|b| - 1]
  {
    var x, y := a[|a| - 1], b[|b| - 1];
    assert x in multiset(b) && y in multiset(a);
    var i :| 0 <= i < |b| && b[i] == x;
    var j :| 0 <= j < |a| && a[j] == y;
    assert i == |b| - 1 || !Precedes(y, b[i]);
  }

  lemma {:induction false} SameSize<T>(a: seq<T>, b: seq<T>)
    requires multiset(a) == multiset(b)
    ensures |a| == |b|
  {
    assert |multiset(a)| == |a| && |multiset(b)| == |b|;
  }

  // ---------- ranking ----------

  predicate Eligible(r: Record) {
    r.authority == Approved && r.status != Missing
  }

  datatype Exclusions = Exclusions(notApproved: nat, missingSource: nat, superseded: nat, conflict: nat)

  datatype Sifted = Sifted(scored: seq<Scored>, unmatched: seq<Record>, excluded: Exclusions)

  function SiftOne(s: Sifted, r: Record, q: set<Term>): Sifted {
    var x := s.excluded;
    if r.authority == Superseded then s.(excluded := x.(superseded := x.superseded + 1))
    else if r.authority == Contradicted then s.(excluded := x.(conflict := x.conflict + 1))
    else if r.authority != Approved then s.(excluded := x.(notApproved := x.notApproved + 1))
    else if r.status == Missing then s.(excluded := x.(missingSource := x.missingSource + 1))
    else if Score(r, q) == 0 then s.(unmatched := s.unmatched + [r])
    else s.(scored := s.scored + [Scored(Score(r, q), r)])
  }

  function Sift(records: seq<Record>, q: set<Term>): Sifted {
    if |records| == 0 then Sifted([], [], Exclusions(0, 0, 0, 0))
    else SiftOne(Sift(records[..|records| - 1], q), records[|records| - 1], q)
  }

  datatype Ranked = Ranked(record: Record, rank: nat, score: nat)

  datatype Retrieval = Retrieval(ranked: seq<Ranked>, unmatched: seq<Record>, excluded: Exclusions)

  // Unmatched records are sorted by identity alone: all have the same score.
  function Unscored(records: seq<Record>): seq<Scored> {
    seq(|records|, i requires 0 <= i < |records| => Scored(0, records[i]))
  }

  function Records(s: seq<Scored>): seq<Record> {
    seq(|s|, i requires 0 <= i < |s| => s[i].record)
  }

  function Number(s: seq<Scored>): seq<Ranked> {
    seq(|s|, i requires 0 <= i < |s| => Ranked(s[i].record, i + 1, s[i].score))
  }

  function Rank(records: seq<Record>, q: set<Term>): Retrieval {
    var s := Sift(records, q);
    Retrieval(Number(Sort(s.scored)), Records(Sort(Unscored(s.unmatched))), s.excluded)
  }

  method RankMemoryRecords(records: seq<Record>, q: set<Term>) returns (r: Retrieval)
    ensures r == Rank(records, q)
  {
    var scored: seq<Scored>, unmatched: seq<Record> := [], [];
    var notApproved, missing, superseded, conflict := 0, 0, 0, 0;
    for i := 0 to |records|
      invariant Sift(records[..i], q) == Sifted(scored, unmatched, Exclusions(notApproved, missing, superseded, conflict))
    {
      assert records[..i + 1][..i] == records[..i];
      var record := records[i];
      if record.authority == Superseded { superseded := superseded + 1; continue; }
      if record.authority == Contradicted { conflict := conflict + 1; continue; }
      if record.authority != Approved { notApproved := notApproved + 1; continue; }
      if record.status == Missing { missing := missing + 1; continue; }
      var score := LexicalScore(record, q);
      if score == 0 {
        unmatched := unmatched + [record];
      } else {
        scored := scored + [Scored(score, record)];
      }
    }
    assert records[..|records|] == records;
    scored := Sort(scored);
    r := Retrieval(Number(scored), Records(Sort(Unscored(unmatched))), Exclusions(notApproved, missing, superseded, conflict));
  }

  // ---------- what a ranking does not depend on ----------

  ghost predicate DistinctRecords(records: seq<Record>) {
    forall i, j :: 0 <= i < j < |records| ==> records[i].id != records[j].id
  }

  // Everything sifting collects, with the order forgotten.
  datatype Tally = Tally(scored: multiset<Scored>, unmatched: multiset<Record>, excluded: Exclusions)

  ghost function TallyOf(s: Sifted): Tally {
    Tally(multiset(s.scored), multiset(s.unmatched), s.excluded)
  }

  // What one record adds, wherever it stands.
  ghost function Share(r: Record, q: set<Term>): Tally {
    if r.authority == Superseded then Tally(multiset{}, multiset{}, Exclusions(0, 0, 1, 0))
    else if r.authority == Contradicted then Tally(multiset{}, multiset{}, Exclusions(0, 0, 0, 1))
    else if r.authority != Approved then Tally(multiset{}, multiset{}, Exclusions(1, 0, 0, 0))
    else if r.status == Missing then Tally(multiset{}, multiset{}, Exclusions(0, 1, 0, 0))
    else if Score(r, q) == 0 then Tally(multiset{}, multiset{r}, Exclusions(0, 0, 0, 0))
    else Tally(multiset{Scored(Score(r, q), r)}, multiset{}, Exclusions(0, 0, 0, 0))
  }

  ghost function Plus(a: Tally, b: Tally): Tally {
    Tally(a.scored + b.scored, a.unmatched + b.unmatched,
          Exclusions(a.excluded.notApproved + b.excluded.notApproved, a.excluded.missingSource + b.excluded.missingSource,
                     a.excluded.superseded + b.excluded.superseded, a.excluded.conflict + b.excluded.conflict))
  }

  ghost function AddTo(t: Tally, r: Record, q: set<Term>): Tally {
    Plus(t, Share(r, q))
  }

  lemma {:induction false} AddCommutes(t: Tally, a: Record, b: Record, q: set<Term>)
    ensures AddTo(AddTo(t, a, q), b, q) == AddTo(AddTo(t, b, q), a, q)
  {
    hide Share;
  }

  lemma {:induction false} SiftTally(s: Sifted, r: Record, q: set<Term>)
    ensures TallyOf(SiftOne(s, r, q)) == AddTo(TallyOf(s), r, q)
  {
    hide Score;
  }

  ghost function At(records: seq<Record>, i: nat): seq<Record>
    requires i < |records|
  {
    records[..i] + records[i + 1..]
  }

  // A record may be sifted last instead of at its place.
  lemma {:induction false} SiftLast(records: seq<Record>, i: nat, q: set<Term>)
    requires i < |records|
    ensures TallyOf(Sift(records, q)) == AddTo(TallyOf(Sift(At(records, i), q)), records[i], q)
  {
    hide SiftOne, AddTo, TallyOf;
    var front, last := records[..|records| - 1], records[|records| - 1];
    SiftTally(Sift(front, q), last, q);
    if i == |front| {
      assert At(records, i) == front;
    } else {
      SiftLast(front, i, q);
      assert At(records, i) == At(front, i) + [last];
      assert (At(front, i) + [last])[..|At(front, i)|] == At(front, i);
      SiftTally(Sift(At(front, i), q), last, q);
      AddCommutes(TallyOf(Sift(At(front, i), q)), records[i], last, q);
    }
  }

  lemma {:induction false} TallyIgnoresOrder(a: seq<Record>, b: seq<Record>, q: set<Term>)
    requires multiset(a) == multiset(b)
    ensures TallyOf(Sift(a, q)) == TallyOf(Sift(b, q))
  {
    hide SiftOne, AddTo, TallyOf;
    SameSize(a, b);
    if |a| > 0 {
      var last := a[|a| - 1];
      assert last in multiset(b);
      var i :| 0 <= i < |b| && b[i] == last;
      SiftLast(a, |a| - 1, q);
      SiftLast(b, i, q);
      assert At(a, |a| - 1) == a[..|a| - 1];
      assert a == a[..|a| - 1] + [last];
      assert b == b[..i] + [last] + b[i + 1..];
      assert multiset(At(b, i)) == multiset(b) - multiset{last};
      TallyIgnoresOrder(a[..|a| - 1], At(b, i), q);
    }
  }

  // Sifting puts every eligible record on one side, with its score, and nothing else on either.
  lemma {:induction false} SiftMembers(records: seq<Record>, q: set<Term>)
    ensures forall x :: x in Sift(records, q).scored <==>
      x.record in records && Eligible(x.record) && x.score == Score(x.record, q) && x.score > 0
    ensures forall r :: r in Sift(records, q).unmatched <==> r in records && Eligible(r) && Score(r, q) == 0
  {
    hide Score;
    if |records| > 0 {
      SiftMembers(records[..|records| - 1], q);
      assert records == records[..|records| - 1] + [records[|records| - 1]];
    }
  }

  lemma {:induction false} SiftDistinct(records: seq<Record>, q: set<Term>)
    requires DistinctRecords(records)
    ensures DistinctIds(Sift(records, q).scored)
    ensures DistinctIds(Unscored(Sift(records, q).unmatched))
  {
    hide Score;
    if |records| > 0 {
      var front, last := records[..|records| - 1], records[|records| - 1];
      SiftDistinct(front, q);
      SiftMembers(front, q);
      NotAmong(records);
      DistinctSnoc(Sift(front, q).scored, Scored(Score(last, q), last));
      forall x | x in Unscored(Sift(front, q).unmatched)
        ensures x.record.id != last.id
      {
        assert x.record in Sift(front, q).unmatched;
      }
      DistinctSnoc(Unscored(Sift(front, q).unmatched), Scored(0, last));
      assert Unscored(Sift(front, q).unmatched + [last]) == Unscored(Sift(front, q).unmatched) + [Scored(0, last)];
    }
  }

  lemma {:induction false} NotAmong(records: seq<Record>)
    requires DistinctRecords(records) && |records| > 0
    ensures forall r :: r in records[..|records| - 1] ==> r.id != records[|records| - 1].id
  {
  }

  lemma {:induction false} DistinctSnoc(s: seq<Scored>, x: Scored)
    requires DistinctIds(s)
    ensures (forall y :: y in s ==> y.record.id != x.record.id) ==> DistinctIds(s + [x])
  {
  }

  lemma {:induction false} InsertDistinct(s: seq<Scored>, x: Scored)
    requires DistinctIds(s) && forall y :: y in s ==> y.record.id != x.record.id
    ensures DistinctIds(Insert(s, x))
  {
    DistinctSnoc(s, x);
    if |s| > 0 && Precedes(x, s[|s| - 1]) {
      var front, last := s[..|s| - 1], s[|s| - 1];
      assert s == front + [last];
      InsertDistinct(front, x);
      InsertAdds(front, x);
      forall y | y in Insert(front, x)
        ensures y.record.id != last.record.id
      {
        if y != x {
          var i :| 0 <= i < |front| && front[i] == y;
          assert s[i] == y;
        }
      }
      hide DistinctIds;
      DistinctSnoc(Insert(front, x), last);
    }
  }

  lemma {:induction false} SortDistinct(s: seq<Scored>)
    requires DistinctIds(s)
    ensures DistinctIds(Sort(s))
  {
    if |s| > 0 {
      var front, last := s[..|s| - 1], s[|s| - 1];
      SortDistinct(front);
      SortOrders(front);
      forall y | y in Sort(front)
        ensures y.record.id != last.record.id
      {
        assert y in multiset(front);
        var i :| 0 <= i < |front| && front[i] == y;
        assert s[i] == y;
      }
      InsertDistinct(Sort(front), last);
    }
  }

  lemma {:induction false} SortIgnoresOrder(a: seq<Scored>, b: seq<Scored>)
    requires multiset(a) == multiset(b) && DistinctIds(a) && DistinctIds(b)
    ensures Sort(a) == Sort(b)
  {
    SortOrders(a);
    SortOrders(b);
    SortDistinct(a);
    SortDistinct(b);
    OrderedIsUnique(Sort(a), Sort(b));
  }

  lemma {:induction false} UnscoredConcat(a: seq<Record>, b: seq<Record>)
    ensures Unscored(a + b) == Unscored(a) + Unscored(b)
  {
  }

  lemma {:induction false} UnscoredIgnoresOrder(a: seq<Record>, b: seq<Record>)
    requires multiset(a) == multiset(b)
    ensures multiset(Unscored(a)) == multiset(Unscored(b))
  {
    SameSize(a, b);
    if |a| == 0 {
      assert a == b;
    } else {
      hide Unscored, At;
      var front, last := a[..|a| - 1], a[|a| - 1];
      assert last in multiset(b);
      var i :| 0 <= i < |b| && b[i] == last;
      assert a == front + [last];
      Rearranged(b, i);
      assert multiset(a) == multiset(front) + multiset{last};
      UnscoredIgnoresOrder(front, At(b, i));
      UnscoredConcat(front, [last]);
    }
  }

  // One record may stand at the end instead of at its place.
  lemma {:induction false} Rearranged(b: seq<Record>, i: nat)
    requires i < |b|
    ensures multiset(At(b, i)) == multiset(b) - multiset{b[i]}
    ensures multiset(Unscored(b)) == multiset(Unscored(At(b, i))) + multiset(Unscored([b[i]]))
  {
    hide Unscored;
    assert b == b[..i] + ([b[i]] + b[i + 1..]);
    UnscoredConcat(b[..i], [b[i]] + b[i + 1..]);
    UnscoredConcat([b[i]], b[i + 1..]);
    UnscoredConcat(b[..i], b[i + 1..]);
  }

  // The ranking is the same for every order of the records.
  lemma {:induction false} RankIgnoresOrder(a: seq<Record>, b: seq<Record>, q: set<Term>)
    requires multiset(a) == multiset(b) && DistinctRecords(a) && DistinctRecords(b)
    ensures Rank(a, q) == Rank(b, q)
  {
    TallyIgnoresOrder(a, b, q);
    SiftDistinct(a, q);
    SiftDistinct(b, q);
    SortIgnoresOrder(Sift(a, q).scored, Sift(b, q).scored);
    UnscoredIgnoresOrder(Sift(a, q).unmatched, Sift(b, q).unmatched);
    SortIgnoresOrder(Unscored(Sift(a, q).unmatched), Unscored(Sift(b, q).unmatched));
  }

  // Ranks count from one, scores never rise, equal scores are in the order of identities, and exactly the
  // eligible records that match are ranked.
  lemma {:induction false} RankOrders(records: seq<Record>, q: set<Term>)
    requires DistinctRecords(records)
    ensures var ranked := Rank(records, q).ranked;
      && (forall i :: 0 <= i < |ranked| ==> ranked[i].rank == i + 1 && ranked[i].score == Score(ranked[i].record, q) > 0)
      && (forall i, j :: 0 <= i < j < |ranked| ==> (
            || ranked[i].score > ranked[j].score
            || (ranked[i].score == ranked[j].score && ranked[i].record.id < ranked[j].record.id)))
      && (forall r :: (exists i :: 0 <= i < |ranked| && ranked[i].record == r) <==> r in records && Eligible(r) && Score(r, q) > 0)
  {
    hide Score, Sift, Sort, Insert, DistinctRecords, Eligible;
    var scored := Sift(records, q).scored;
    SiftMembers(records, q);
    SiftDistinct(records, q);
    SortOrders(scored);
    SortDistinct(scored);
    var sorted := Sort(scored);
    SameMembers(sorted, scored);
    assert forall i :: 0 <= i < |sorted| ==> sorted[i] in scored;
    RankedRecords(records, q, sorted);
    assert forall r :: RankedAt(sorted, r) <==> exists i :: 0 <= i < |sorted| && Number(sorted)[i].record == r;
  }

  lemma {:induction false} SameMembers(a: seq<Scored>, b: seq<Scored>)
    requires multiset(a) == multiset(b)
    ensures forall x :: x in a <==> x in b
  {
    forall x
      ensures x in a <==> x in b
    {
      assert x in a <==> x in multiset(a);
      assert x in b <==> x in multiset(b);
    }
  }

  ghost predicate RankedAt(sorted: seq<Scored>, r: Record) {
    exists i :: 0 <= i < |sorted| && Number(sorted)[i].record == r
  }

  lemma {:induction false} RankedRecords(records: seq<Record>, q: set<Term>, sorted: seq<Scored>)
    requires forall x :: x in sorted <==>
      x.record in records && Eligible(x.record) && x.score == Score(x.record, q) && x.score > 0
    ensures forall r :: RankedAt(sorted, r) <==> r in records && Eligible(r) && Score(r, q) > 0
  {
    hide Score;
    forall r
      ensures RankedAt(sorted, r) <==> r in records && Eligible(r) && Score(r, q) > 0
    {
      if r in records && Eligible(r) && Score(r, q) > 0 {
        assert Scored(Score(r, q), r) in sorted;
        var i :| 0 <= i < |sorted| && sorted[i] == Scored(Score(r, q), r);
        assert Number(sorted)[i].record == r;
      }
      if i :| 0 <= i < |sorted| && Number(sorted)[i].record == r {
        assert sorted[i] in sorted;
      }
    }
  }

  // A record that is not approved changes the count of its kind and nothing else.
  lemma {:induction false} RankIgnoresCandidate(records: seq<Record>, extra: Record, q: set<Term>)
    requires extra.authority == Candidate
    ensures var a, b := Rank(records, q), Rank(records + [extra], q);
      && b.ranked == a.ranked && b.unmatched == a.unmatched
      && b.excluded == a.excluded.(notApproved := a.excluded.notApproved + 1)
  {
    assert (records + [extra])[..|records|] == records;
  }
}
