/** A decision whose context is superseded between the question and the answer. */
module ContextCounterexamples {
  import opened Wrappers
  import opened Events
  import opened Protocol
  import opened ProtocolWorld
  import opened ProtocolRuns
  import opened ProtocolAbandoned
  import opened ProtocolDecisions
  import opened ProtocolCounterexamples
  import MemoryRuns
  import MemoryCounterexamples

  // One record is approved when its content is selected, and superseded by one more review before the follow-up call.
  lemma {:induction false} ContextCanBeSuperseded() returns (ops: seq<MemoryRuns.Op>, review: MemoryRuns.Op)
    ensures MemoryRuns.Possible(ops) && IsCurrent(MemoryRuns.After(ops), ShortItem(0))
    ensures MemoryRuns.Possible(ops + [review]) && !IsCurrent(MemoryRuns.After(ops + [review]), ShortItem(0))
  {
    hide MemoryRuns.Possible, MemoryRuns.After;
    ops, review := MemoryCounterexamples.ApprovalIsLost();
  }

  // The approved and read run then stands still at its observation, and no retry raises what the call raised.
  lemma {:induction false} SupersededContextStrands(more: seq<Step>, actor: string, p: ProviderIdentity) returns (ops: seq<MemoryRuns.Op>)
    ensures MemoryRuns.Possible(ops)
    ensures var x := ReadingNotes(1, Breaks, MemoryRuns.After(ops));
      var s := WithDecision(AskedRun("notes.txt", 1), x);
      && Possible(s)
      && (Possible(s + more) ==>
        var v, c := After(s + more), x.call;
        && ReplyTo(x) in v.replies && ReplyTo(x).response == Raising(ContextUnavailable)
        && Idle(v, 0) && LastKind(EventsOfRun(v, 0)) == Some(Observation)
        && DecisionLookup(v.rows, v.artifacts, c.session, c.run, c.toolEvent, c.decision, c.key, actor, p) == Raised(NotPending))
  {
    hide *;
    var before, review := ContextCanBeSuperseded();
    ops := before + [review];
    StaleContextStrands(MemoryRuns.After(ops), more, actor, p);
  }
}
