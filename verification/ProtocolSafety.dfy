/** What holds in every reachable state of the services, whatever is interleaved and wherever handlers stop. */
module ProtocolSafety {
  import opened Wrappers
  import opened Events
  import opened Ledger
  import opened Runs
  import opened Protocol
  import opened ProtocolWorld
  import opened ProtocolShape
  import opened ProtocolLedger
  import opened ProtocolSteps
  import Broker
  import Targets

  // The pending events of one run the provider was asked about.
  function LogOf(dispatched: seq<Dispatch>, run: nat): seq<EventId> {
    if |dispatched| == 0 then [] else
    var last := dispatched[|dispatched| - 1];
    LogOf(dispatched[..|dispatched| - 1], run) + (if last.run == run then [last.pending] else [])
  }

  ghost predicate RunOk(w: World, run: nat) {
    && RunShaped(w.rows, run)
    && LogFits(EventsOf(OfRun(w.rows, run)), LogOf(w.dispatched, run))
    && (run in w.active ==> Stands(run, OfRun(w.rows, run), LogOf(w.dispatched, run), w.active[run]))
  }

  // The provider was asked only after the pending event was in the ledger.
  predicate Durable(rows: seq<Row>, d: Dispatch) {
    && d.ledgerLength <= |rows|
    && exists row :: row in rows[..d.ledgerLength] && row.event.run == ChatRun(d.run) && row.event.id == d.pending
                     && KindOf(row.event) == Some(ModelCallPending)
  }

  // No call works on the run, except one that has stored nothing.
  predicate Abandoned(w: World, run: nat) {
    run in w.active ==> w.active[run].Preparing?
  }

  ghost predicate ReplyOk(w: World, reply: Reply) {
    && ReplyStands(reply.run, OfRun(w.rows, reply.run), reply)
    && (reply.response.Raising? ==> Abandoned(w, reply.run))
  }

  ghost predicate Inv(w: World) {
    && LedgerOk(w.rows, w.artifacts)
    && (forall run :: RunOk(w, run))
    && (forall d :: d in w.dispatched ==> Durable(w.rows, d))
    && (forall reply :: reply in w.replies ==> ReplyOk(w, reply))
    && Broker.Consistent(w.broker)
  }

  // ---------- a step concerns one run ----------

  ghost predicate SameFor(w: World, v: World, run: nat) {
    && OfRun(v.rows, run) == OfRun(w.rows, run)
    && LogOf(v.dispatched, run) == LogOf(w.dispatched, run)
    && (run in v.active ==> run in w.active && v.active[run] == w.active[run])
  }

  lemma {:induction false} SameStaysOk(w: World, v: World, run: nat)
    requires RunOk(w, run) && SameFor(w, v, run)
    ensures RunOk(v, run)
  {
    hide Shape, LogFits, Stands;
  }

  lemma {:induction false} DurableStays(rows: seq<Row>, more: seq<Row>, d: Dispatch)
    requires Durable(rows, d)
    ensures Durable(rows + more, d)
  {
    assert (rows + more)[..d.ledgerLength] == rows[..d.ledgerLength];
  }

  lemma {:induction false} OthersUntouched(rows: seq<Row>, more: seq<Row>, run: nat)
    requires forall x :: x in more ==> x.event.run != ChatRun(run)
    ensures OfRun(rows + more, run) == OfRun(rows, run)
  {
    OfRunAppend(rows, more, run);
    OfRunAll(more, run);
  }

  // A run over which a call has raised is left as it is.
  ghost predicate Quiet(w: World, v: World, run: nat, more: seq<Row>) {
    forall reply :: reply in w.replies && reply.run == run && reply.response.Raising? ==> more == [] && Abandoned(v, run)
  }

  lemma {:induction false} QuietIfSame(w: World, v: World, run: nat)
    requires Inv(w)
    requires run in v.active ==> v.active[run].Preparing? || (run in w.active && v.active[run] == w.active[run])
    ensures Quiet(w, v, run, [])
  {
    hide ReplyStands, LedgerOk, RunOk, Broker.Consistent, OfRun;
  }

  lemma {:induction false} QuietIfWorking(w: World, v: World, run: nat, more: seq<Row>)
    requires Inv(w) && run in w.active && !w.active[run].Preparing?
    ensures Quiet(w, v, run, more)
  {
    hide ReplyStands, LedgerOk, RunOk, Broker.Consistent, OfRun;
  }

  // No call has raised over a run that has not begun, or that waits for a decision.
  lemma {:induction false} QuietIfOpen(w: World, v: World, run: nat, more: seq<Row>)
    requires Inv(w)
    requires OfRun(w.rows, run) == [] || LastKind(EventsOf(OfRun(w.rows, run))) == Some(ToolRequested)
    ensures Quiet(w, v, run, more)
  {
    hide ReplyOk, OfRun, LastKind, LedgerOk, RunOk, Broker.Consistent, Durable;
    forall reply | reply in w.replies && reply.run == run
      ensures !reply.response.Raising?
    {
      NotRaised(w, reply);
    }
  }

  lemma {:induction false} NotRaised(w: World, reply: Reply)
    requires ReplyOk(w, reply)
    requires OfRun(w.rows, reply.run) == [] || LastKind(EventsOf(OfRun(w.rows, reply.run))) == Some(ToolRequested)
    ensures !reply.response.Raising?
  {
    hide OfRun, OriginStands, FailureOf;
  }

  // Everything but the stepping run, the new dispatches and the new responses follows from the old state.
  lemma {:induction false} StepKeeps(w: World, v: World, run: nat, more: seq<Row>)
    requires Inv(w) && LedgerOk(v.rows, v.artifacts) && v.rows == w.rows + more
    requires forall x :: x in more ==> x.event.run == ChatRun(run)
    requires forall r :: r != run ==> LogOf(v.dispatched, r) == LogOf(w.dispatched, r)
    requires forall r :: r != run && r in v.active ==> r in w.active && v.active[r] == w.active[r]
    requires RunOk(v, run) && Quiet(w, v, run, more)
    requires forall d :: d in v.dispatched ==> d in w.dispatched || Durable(v.rows, d)
    requires forall reply :: reply in v.replies ==> reply in w.replies || ReplyOk(v, reply)
    requires Broker.Consistent(v.broker)
    ensures Inv(v)
  {
    hide LedgerOk, RunOk, Durable, ReplyOk, SameFor, Broker.Consistent, OfRun, LogOf, Quiet, Abandoned;
    forall r
      ensures RunOk(v, r)
    {
      if r != run {
        OthersUntouched(w.rows, more, r);
        assert SameFor(w, v, r) by { SameFrom(w, v, r); }
        SameStaysOk(w, v, r);
      }
    }
    forall d | d in v.dispatched
      ensures Durable(v.rows, d)
    {
      if d in w.dispatched { DurableStays(w.rows, more, d); }
    }
    forall reply | reply in v.replies
      ensures ReplyOk(v, reply)
    {
      if reply in w.replies { ReplyStays(w, v, run, more, reply); }
    }
  }

  lemma {:induction false} SameFrom(w: World, v: World, run: nat)
    requires OfRun(v.rows, run) == OfRun(w.rows, run) && LogOf(v.dispatched, run) == LogOf(w.dispatched, run)
    requires run in v.active ==> run in w.active && v.active[run] == w.active[run]
    ensures SameFor(w, v, run)
  {
  }

  lemma {:induction false} ReplyStays(w: World, v: World, run: nat, more: seq<Row>, reply: Reply)
    requires reply in w.replies && ReplyOk(w, reply) && v.rows == w.rows + more && RunOk(v, run) && Quiet(w, v, run, more)
    requires forall x :: x in more ==> x.event.run == ChatRun(run)
    requires forall r :: r != run && r in v.active ==> r in w.active && v.active[r] == w.active[r]
    ensures ReplyOk(v, reply)
  {
    hide ReplyStands, Shape, LogFits, Stands;
    if reply.run == run {
      OfRunAppend(w.rows, more, run);
      OfRunAll(more, run);
      ReplyStaysTrue(run, OfRun(w.rows, run), more, reply);
    } else {
      OthersUntouched(w.rows, more, reply.run);
    }
  }

  lemma {:induction false} RunOf(w: World, run: nat)
    requires Inv(w)
    ensures RunOk(w, run) && LedgerOk(w.rows, w.artifacts) && Broker.Consistent(w.broker)
  {
  }

  // ---------- appending steps ----------

  // A call that ends by raising leaves its run as it is.
  lemma {:induction false} EndedKeeps(w: World, run: nat, error: CallError)
    requires Inv(w) && run in w.active
    requires error == EventRejected || error.LedgerFailed? || (error == KeyConflict && (w.active[run].Finishing? || !HasStored(w.active[run])))
    ensures Inv(Ended(w, run, w.active[run], error))
  {
    RunOf(w, run);
    ShapeOf(w.rows, run);
    var h := w.active[run];
    var v := Ended(w, run, h, error);
    hide Inv, LedgerOk, OfRun, LogOf, LogFits, Stands, Shape, Broker.Consistent, OriginOf, ReplyStands;
    if HasStored(h) { EndingSays(run, OfRun(w.rows, run), LogOf(w.dispatched, run), h, error); } else { RefusalStands(w, run, OriginOf(h), error); }
    QuietIfSame(w, v, run);
    hide Quiet, HasStored;
    assert v.rows == w.rows + [];
    StepKeeps(w, v, run, []);
  }

  lemma {:induction false} RefusalStands(w: World, run: nat, origin: Origin, error: CallError)
    ensures ReplyStands(run, OfRun(w.rows, run), Reply(run, origin, Refusing(error)))
  {
    hide OfRun;
  }

  function Appended(w: World, run: nat, h: Handler, o: Outside, grown: seq<Row>): World {
    Respond(SetHandler(w.(rows := grown), run, Continue(h, o)), run, OriginOf(h), Final(h, o))
  }

  lemma {:induction false} AppendStepOutcome(w: World, run: nat, h: Handler, o: Outside)
    ensures AppendStep(w, run, h, o) ==
      if !Buildable(Batch(h, o)) then Ended(w, run, h, EventRejected)
      else match AppendMany(w.rows, w.artifacts, Batch(h, o))
        case Failure(e) => Ended(w, run, h, AppendErrorOf(h, e))
        case Success(grown) => Appended(w, run, h, o, grown)
  {
    hide Buildable, Batch, AppendMany, SetHandler, Continue, Final, OriginOf, Ended, AppendErrorOf;
  }

  // A response or an error ends a call.
  lemma {:induction false} FinalEnds(h: Handler, o: Outside)
    ensures Final(h, o).Some? ==> Continue(h, o).None?
  {
    hide Targets.Suffix, Targets.GrantAcceptable, Loaded;
  }

  // The stepping run after a committed append.
  lemma {:induction false} AppendedRunOk(w: World, run: nat, h: Handler, o: Outside)
    requires RunOk(w, run) && run in w.active && w.active[run] == h && !h.Preparing?
    requires OfRun(w.rows + Batch(h, o), run) == OfRun(w.rows, run) + Batch(h, o) && RunShaped(w.rows + Batch(h, o), run)
    ensures RunOk(Appended(w, run, h, o, w.rows + Batch(h, o)), run)
  {
    hide OfRun, LogOf, LogFits, Stands, Batch, Continue, Final, OriginOf, Shape, RunShaped;
    var rows, log := OfRun(w.rows, run), LogOf(w.dispatched, run);
    EventsAppend(rows, Batch(h, o));
    LogStays(EventsOf(rows), EventsOf(Batch(h, o)), log);
    ShapeOf(w.rows, run);
    if Continue(h, o).Some? { ContinueStands(run, rows, log, h, o); }
  }

  lemma {:induction false} ShapeOf(rows: seq<Row>, run: nat)
    requires RunShaped(rows, run)
    ensures Shape(run, EventsOf(OfRun(rows, run)))
  {
  }

  lemma {:induction false} AppendedWorld(w: World, run: nat, h: Handler, o: Outside, grown: seq<Row>)
    ensures var v := Appended(w, run, h, o, grown);
      && v.rows == grown && v.artifacts == w.artifacts && v.dispatched == w.dispatched && v.broker == w.broker
      && (forall r :: r != run && r in v.active ==> r in w.active && v.active[r] == w.active[r])
      && (forall reply :: reply in v.replies ==>
        reply in w.replies || (Final(h, o).Some? && reply == Reply(run, OriginOf(h), Final(h, o).value) && Abandoned(v, run)))
  {
    FinalEnds(h, o);
    hide Continue, Final, OriginOf;
  }

  lemma {:induction false} AppendedKeeps(w: World, run: nat, o: Outside)
    requires Inv(w) && run in w.active && !w.active[run].Preparing?
    requires AppendMany(w.rows, w.artifacts, Batch(w.active[run], o)).Success?
    ensures Inv(Appended(w, run, w.active[run], o, AppendMany(w.rows, w.artifacts, Batch(w.active[run], o)).value))
  {
    hide Inv, LedgerOk, LogOf, OfRun, Broker.Consistent, AppendMany, Batch, Shape, RunShaped, LogFits, Stands, Continue, Final, Continues;
    hide OriginOf, ReplyStands, Appended;
    RunOf(w, run);
    ShapeOf(w.rows, run);
    var h, rows := w.active[run], OfRun(w.rows, run);
    BatchContinues(run, rows, LogOf(w.dispatched, run), h, o);
    BatchAppended(w.rows, w.artifacts, run, Batch(h, o));
    if Final(h, o).Some? { FinalSays(run, rows, LogOf(w.dispatched, run), h, o); }
    ContinuedRun(run, rows, Batch(h, o));
    AppendedRunOk(w, run, h, o);
    hide RunOk;
    AppendedWorld(w, run, h, o, w.rows + Batch(h, o));
    QuietIfWorking(w, Appended(w, run, h, o, w.rows + Batch(h, o)), run, Batch(h, o));
    hide Quiet, Abandoned;
    StepKeeps(w, Appended(w, run, h, o, w.rows + Batch(h, o)), run, Batch(h, o));
  }

  lemma {:induction false} AppendStepKeeps(w: World, run: nat, o: Outside)
    requires Inv(w) && run in w.active && !w.active[run].Preparing?
    ensures Inv(AppendStep(w, run, w.active[run], o))
  {
    hide Inv, RunOk, LedgerOk, Broker.Consistent, AppendMany, AppendStep, Batch, Buildable, Appended, Ended;
    var h := w.active[run];
    AppendStepOutcome(w, run, h, o);
    if !Buildable(Batch(h, o)) {
      EndedKeeps(w, run, EventRejected);
    } else {
      match AppendMany(w.rows, w.artifacts, Batch(h, o))
      case Failure(e) => EndedKeeps(w, run, AppendErrorOf(h, e));
      case Success(_) => AppendedKeeps(w, run, o);
    }
  }

  lemma {:induction false} ContinuedRun(run: nat, rows: seq<Row>, batch: seq<Row>)
    requires |rows| > 0 && Continues(run, rows, batch)
    ensures forall x :: x in batch ==> x.event.run == ChatRun(run)
  {
    BatchEvents(run, rows, batch);
  }

  lemma {:induction false} PrepareStepOutcome(w: World, run: nat, c: Chat, o: Outside)
    ensures AppendStep(w, run, Preparing(c), o) ==
      if !Buildable(PrepareBatch(c)) then Ended(w, run, Preparing(c), EventRejected)
      else match AppendMany(w.rows, w.artifacts, PrepareBatch(c))
        case Failure(e) => Ended(w, run, Preparing(c), AppendErrorOf(Preparing(c), e))
        case Success(grown) => SetHandler(w.(rows := grown), run, Some(Dispatching(c)))
  {
    hide Buildable, PrepareBatch, AppendMany, SetHandler, Ended, AppendErrorOf;
  }

  // Where a call stands once its preparation is stored.
  lemma {:induction false} PreparedRunOk(v: World, run: nat, c: Chat, log: seq<EventId>)
    requires RunShaped(v.rows, run) && OfRun(v.rows, run) == PrepareBatch(c) && LogOf(v.dispatched, run) == log
    requires LogFits([], log) && Stands(run, [], log, Preparing(c)) && run in v.active && v.active[run] == Dispatching(c)
    ensures RunOk(v, run)
  {
    hide RunShaped, OfRun, LogOf, PrepareBatch, LogFits;
    PreparedStands(run, c, log);
    assert [] + EventsOf(PrepareBatch(c)) == EventsOf(PrepareBatch(c));
    LogStays([], EventsOf(PrepareBatch(c)), log);
    hide Stands;
  }

  lemma {:induction false} PreparedKeeps(w: World, run: nat, c: Chat)
    requires Inv(w) && run in w.active && w.active[run] == Preparing(c)
    requires AppendMany(w.rows, w.artifacts, PrepareBatch(c)).Success?
    ensures Inv(SetHandler(w.(rows := AppendMany(w.rows, w.artifacts, PrepareBatch(c)).value), run, Some(Dispatching(c))))
  {
    RunOf(w, run);
    hide Inv, LedgerOk, LogOf, OfRun, Broker.Consistent, AppendMany, Shape, LogFits, PrepareBatch;
    var v := SetHandler(w.(rows := AppendMany(w.rows, w.artifacts, PrepareBatch(c)).value), run, Some(Dispatching(c)));
    PreparationAppended(w.rows, w.artifacts, run, c);
    assert EventsOf([]) == [];
    PreparedEvents(c);
    hide Stands, RunShaped;
    PreparedRunOk(v, run, c, LogOf(w.dispatched, run));
    hide RunOk;
    QuietIfOpen(w, v, run, PrepareBatch(c));
    hide Quiet;
    StepKeeps(w, v, run, PrepareBatch(c));
  }

  lemma {:induction false} PrepareStepKeeps(w: World, run: nat, o: Outside)
    requires Inv(w) && run in w.active && w.active[run].Preparing?
    ensures Inv(AppendStep(w, run, w.active[run], o))
  {
    hide Inv, RunOk, LedgerOk, Broker.Consistent, AppendMany, AppendStep, Batch, Buildable, PrepareBatch, Ended;
    var c := w.active[run].chat;
    PrepareStepOutcome(w, run, c, o);
    if !Buildable(PrepareBatch(c)) {
      EndedKeeps(w, run, EventRejected);
    } else {
      match AppendMany(w.rows, w.artifacts, PrepareBatch(c))
      case Failure(e) => EndedKeeps(w, run, AppendErrorOf(w.active[run], e));
      case Success(_) => PreparedKeeps(w, run, c);
    }
  }

  // ---------- steps that touch no ledger row ----------

  lemma {:induction false} LogSnoc(dispatched: seq<Dispatch>, d: Dispatch)
    ensures forall r :: LogOf(dispatched + [d], r) == LogOf(dispatched, r) + (if d.run == r then [d.pending] else [])
  {
    assert (dispatched + [d])[..|dispatched|] == dispatched;
  }

  // A step that changes only the handler of a run, which stands where it was.
  lemma {:induction false} HandlerStepKeeps(w: World, v: World, run: nat)
    requires Inv(w) && v.rows == w.rows && w.artifacts <= v.artifacts && v.dispatched == w.dispatched && v.replies == w.replies
    requires Broker.Consistent(v.broker)
    requires forall r :: r != run && r in v.active ==> r in w.active && v.active[r] == w.active[r]
    requires run in v.active ==> Stands(run, OfRun(w.rows, run), LogOf(w.dispatched, run), v.active[run])
    requires Quiet(w, v, run, [])
    ensures Inv(v)
  {
    RunOf(w, run);
    hide Inv, LedgerOk, LogOf, OfRun, Broker.Consistent, Shape, LogFits, Stands, Quiet;
    MoreArtifacts(w.rows, w.artifacts, v.artifacts);
    assert v.rows == w.rows + [];
    StepKeeps(w, v, run, []);
  }

  lemma {:induction false} DispatchDurable(rows: seq<Row>, run: nat, pending: EventId, i: nat)
    requires i < |OfRun(rows, run)|
    requires OfRun(rows, run)[i].event.id == pending && KindOf(OfRun(rows, run)[i].event) == Some(ModelCallPending)
    ensures Durable(rows, Dispatch(run, pending, |rows|))
  {
    hide KindOf;
    OfRunMembers(rows, run);
    assert rows[..|rows|] == rows;
    assert OfRun(rows, run)[i] in rows;
  }

  lemma {:induction false} DispatchStepKeeps(w: World, run: nat, pending: EventId, next: Handler, i: nat)
    requires Inv(w) && i < |OfRun(w.rows, run)|
    requires var row := OfRun(w.rows, run)[i]; row.event.id == pending && KindOf(row.event) == Some(ModelCallPending)
    requires LogFits(EventsOf(OfRun(w.rows, run)), LogOf(w.dispatched, run) + [pending])
    requires Stands(run, OfRun(w.rows, run), LogOf(w.dispatched, run) + [pending], next)
    requires run in w.active && !w.active[run].Preparing?
    ensures Inv(DispatchStep(w, run, pending, next))
  {
    RunOf(w, run);
    DispatchDurable(w.rows, run, pending, i);
    hide Inv, LedgerOk, LogOf, OfRun, Broker.Consistent, Shape, LogFits, Stands, Durable, KindOf, Quiet;
    var v := DispatchStep(w, run, pending, next);
    QuietIfWorking(w, v, run, []);
    LogSnoc(w.dispatched, Dispatch(run, pending, |w.rows|));
    assert v.rows == w.rows + [];
    assert forall r :: r != run ==> LogOf(v.dispatched, r) == LogOf(w.dispatched, r) + [];
    StepKeeps(w, v, run, []);
  }

  // A handler that reads or registers goes on at the same place, or turns to recording a failure.
  lemma {:induction false} StandsAfterRegister(run: nat, rows: seq<Row>, log: seq<EventId>, c: Call, g: Broker.Grant)
    requires Stands(run, rows, log, Registering(c, g))
    ensures Stands(run, rows, log, Claiming(c))
    ensures forall f :: Stands(run, rows, log, FailingTool(c, Client(c.decision.id), f))
  {
    hide CallStands;
  }

  lemma {:induction false} StandsAfterRead(run: nat, rows: seq<Row>, log: seq<EventId>, c: Call)
    requires Stands(run, rows, log, ReadingFile(c))
    ensures forall reading :: Stands(run, rows, log, Observing(c, reading))
    ensures forall f :: Stands(run, rows, log, FailingTool(c, Derived(c.decision.id, ReadClaimed), f))
  {
    hide CallStands;
  }

  lemma {:induction false} RegisterStepKeeps(w: World, run: nat, c: Call, g: Broker.Grant, o: Outside)
    requires Inv(w) && run in w.active && w.active[run] == Registering(c, g)
    ensures Inv(RegisterStep(w, run, c, g, o))
  {
    RunOf(w, run);
    StandsAfterRegister(run, OfRun(w.rows, run), LogOf(w.dispatched, run), c, g);
    hide Inv, LedgerOk, LogOf, OfRun, RunShaped, LogFits, Stands, Broker.Register, ById, Broker.Consistent, Broker.Apply;
    Broker.ApplyKeeps(w.broker, Broker.RegisterOp(g, ById(w.rows, g.authorization), o.scopes));
    QuietIfWorking(w, RegisterStep(w, run, c, g, o), run, []);
    hide Quiet;
    HandlerStepKeeps(w, RegisterStep(w, run, c, g, o), run);
  }

  lemma {:induction false} ReadStepKeeps(w: World, run: nat, c: Call, o: Outside)
    requires Inv(w) && run in w.active && w.active[run] == ReadingFile(c)
    ensures Inv(ReadStep(w, run, c, o))
  {
    RunOf(w, run);
    StandsAfterRead(run, OfRun(w.rows, run), LogOf(w.dispatched, run), c);
    var op := Broker.ClaimOp(c.decision.id, c.provider.actor, o.at, o.scopes);
    Broker.ApplyKeeps(w.broker, op);
    ReadStepOutcome(w, run, c, o);
    hide Inv, LedgerOk, LogOf, OfRun, RunShaped, LogFits, Stands, Broker.Consistent, Broker.Apply, ReadStep, Quiet;
    QuietIfWorking(w, ReadStep(w, run, c, o), run, []);
    HandlerStepKeeps(w, ReadStep(w, run, c, o), run);
  }

  lemma {:induction false} ReadStepOutcome(w: World, run: nat, c: Call, o: Outside)
    ensures var v := ReadStep(w, run, c, o);
      && v.rows == w.rows && w.artifacts <= v.artifacts && v.dispatched == w.dispatched && v.replies == w.replies
      && v.broker == Broker.Apply(w.broker, Broker.ClaimOp(c.decision.id, c.provider.actor, o.at, o.scopes))
      && (forall r :: r != run && r in v.active ==> r in w.active && v.active[r] == w.active[r])
      && run in v.active
      && ((exists reading :: v.active[run] == Observing(c, reading))
          || exists f :: v.active[run] == FailingTool(c, Derived(c.decision.id, ReadClaimed), f))
  {
    hide Broker.Apply, Broker.ReadFile;
  }

  lemma {:induction false} DispatchingKeeps(w: World, run: nat, c: Chat)
    requires Inv(w) && run in w.active && w.active[run] == Dispatching(c)
    ensures Inv(DispatchStep(w, run, Derived(c.request.id, ChatPending), WaitingForProvider(c)))
  {
    RunOf(w, run);
    hide Inv, LedgerOk, LogOf, OfRun, Shape, LogFits, Stands, Broker.Consistent, DispatchStep, KindOf;
    ChatDispatchFits(run, OfRun(w.rows, run), LogOf(w.dispatched, run), c);
    DispatchStepKeeps(w, run, Derived(c.request.id, ChatPending), WaitingForProvider(c), 2);
  }

  lemma {:induction false} DispatchingFollowupKeeps(w: World, run: nat, c: Call, citations: seq<Citation>)
    requires Inv(w) && run in w.active && w.active[run] == DispatchingFollowup(c, citations)
    ensures Inv(DispatchStep(w, run, Derived(c.decision.id, FollowupPending), WaitingForFollowup(c, citations)))
  {
    RunOf(w, run);
    hide Inv, LedgerOk, LogOf, OfRun, Shape, LogFits, Stands, Broker.Consistent, DispatchStep, KindOf;
    FollowupDispatchFits(run, OfRun(w.rows, run), LogOf(w.dispatched, run), c, citations);
    DispatchStepKeeps(w, run, Derived(c.decision.id, FollowupPending), WaitingForFollowup(c, citations), 8);
  }

  // A handler that takes its next stand at the same place of its run.
  lemma {:induction false} ResultKeeps(w: World, run: nat, next: Handler)
    requires Inv(w) && run in w.active && !w.active[run].Preparing?
    requires Stands(run, OfRun(w.rows, run), LogOf(w.dispatched, run), next)
    ensures Inv(SetHandler(w, run, Some(next)))
  {
    RunOf(w, run);
    hide Inv, LedgerOk, LogOf, OfRun, RunShaped, LogFits, Stands, Broker.Consistent, Quiet;
    QuietIfWorking(w, SetHandler(w, run, Some(next)), run, []);
    HandlerStepKeeps(w, SetHandler(w, run, Some(next)), run);
  }

  lemma {:induction false} WaitingKeeps(w: World, run: nat, c: Chat, result: ProviderResult)
    requires Inv(w) && run in w.active && w.active[run] == WaitingForProvider(c)
    ensures Inv(SetHandler(w, run, Some(Finishing(c, result))))
  {
    RunOf(w, run);
    hide Inv, LedgerOk, LogOf, OfRun, RunShaped, LogFits, Stands, Broker.Consistent, SetHandler;
    StandsWithResult(run, OfRun(w.rows, run), LogOf(w.dispatched, run), c, result);
    ResultKeeps(w, run, Finishing(c, result));
  }

  lemma {:induction false} WaitingFollowupKeeps(w: World, run: nat, c: Call, citations: seq<Citation>, result: ProviderResult)
    requires Inv(w) && run in w.active && w.active[run] == WaitingForFollowup(c, citations)
    ensures Inv(SetHandler(w, run, Some(FinishingFollowup(c, citations, result))))
  {
    RunOf(w, run);
    hide Inv, LedgerOk, LogOf, OfRun, RunShaped, LogFits, Stands, Broker.Consistent, SetHandler;
    StandsWithFollowup(run, OfRun(w.rows, run), LogOf(w.dispatched, run), c, citations, result);
    ResultKeeps(w, run, FinishingFollowup(c, citations, result));
  }

  lemma {:induction false} AdvanceKeeps(w: World, run: nat, o: Outside)
    requires Inv(w) && run in w.active
    ensures Inv(AdvanceStep(w, run, o))
  {
    hide Inv, AppendStep, RegisterStep, ReadStep, DispatchStep, SetHandler;
    match w.active[run]
    case Dispatching(c) => DispatchingKeeps(w, run, c);
    case WaitingForProvider(c) => WaitingKeeps(w, run, c, o.result);
    case Registering(c, g) => RegisterStepKeeps(w, run, c, g, o);
    case ReadingFile(c) => ReadStepKeeps(w, run, c, o);
    case DispatchingFollowup(c, citations) => DispatchingFollowupKeeps(w, run, c, citations);
    case WaitingForFollowup(c, citations) => WaitingFollowupKeeps(w, run, c, citations, o.result);
    case Preparing(_) => PrepareStepKeeps(w, run, o);
    case _ => AppendStepKeeps(w, run, o);
  }
}
