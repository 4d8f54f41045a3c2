/** The grant broker: registering an approved grant and consuming its single use. */
module Broker {
  import opened Wrappers
  import opened Events
  import opened Context
  import opened Targets

  type GrantId = nat

  // The fields a grant contract leaves open; it fixes the capability, a single use and no network.
  datatype Grant = Grant(
    id: GrantId,
    subject: string,
    scope: string,
    target: string,
    issuedAt: int,
    validFor: nat,
    issuedBy: string,
    authorization: EventId,
    maxBytes: nat,
    allowed: seq<string>)

  datatype Stored = Stored(grant: Grant, consumedAt: Option<int>)

  type Grants = map<GrantId, Stored>

  // ---------- the two transactions ----------

  predicate Authorizes(e: Event, g: Grant) {
    && e.id == g.authorization
    && e.actor == Actor(g.issuedBy, Human)
    && e.eventType == Approval
    && e.trust == HumanVerified
    && e.payload.detail.DecisionDetail?
    && e.payload.detail.grant == g.id
    && e.payload.detail.approved
    && e.observedAt == g.issuedAt
  }

  // The suffix of the target is one of the allowed extensions, whatever the case of their letters.
  predicate ExtensionAllowed(g: Grant) {
    exists e :: e in g.allowed && Lower(e) == Lower(Suffix(g.target))
  }

  // The event is what the ledger holds under the authorization of the grant.
  function Register(grants: Grants, g: Grant, event: Option<Event>, scopes: set<string>): Result<Grants, Denial> {
    if event.None? || !Authorizes(event.value, g) then Failure(AuthorizationInvalid)
    else if g.scope !in scopes then Failure(ScopeUnknown)
    else if g.id in grants then (if grants[g.id].grant != g then Failure(GrantConflict) else Success(grants))
    else Success(grants[g.id := Stored(g, None)])
  }

  function Claim(grants: Grants, id: GrantId, subject: string, now: int, scopes: set<string>): Result<Grants, Denial> {
    if id !in grants then Failure(GrantNotFound) else
    var s := grants[id];
    if s.consumedAt.Some? then Failure(GrantConsumed)
    else if s.grant.subject != subject then Failure(SubjectMismatch)
    else if now < s.grant.issuedAt then Failure(GrantNotYetValid)
    else if now >= s.grant.issuedAt + s.grant.validFor then Failure(GrantExpired)
    else if s.grant.scope !in scopes then Failure(ScopeUnknown)
    else if !ExtensionAllowed(s.grant) then Failure(ExtensionDenied)
    else Success(grants[id := s.(consumedAt := Some(now))])
  }

  // ---------- reading the file ----------

  // What the disk shows between the first look at the file and the last.
  datatype Disk =
    | NoScope | NoFile | Outside
    | File(size: nat, bytes: string, isStable: bool, decodes: bool)

  // The bytes that are read before the size is checked again.
  function Bounded(bytes: string, limit: nat): string {
    if |bytes| <= limit then bytes else bytes[..limit + 1]
  }

  function ReadFile(g: Grant, disk: Disk): Result<Reading, Denial> {
    match disk
    case NoScope => Failure(ScopeUnavailable)
    case NoFile => Failure(FileUnavailable)
    case Outside => Failure(ScopeEscape)
    case File(size, bytes, isStable, decodes) =>
      if size > g.maxBytes then Failure(SizeExceeded)
      else if |Bounded(bytes, g.maxBytes)| > g.maxBytes then Failure(SizeExceeded)
      else if !isStable then Failure(FileChanged)
      else if !decodes then Failure(EncodingDenied)
      else Success(Reading(g.id, g.scope, g.target, Bounded(bytes, g.maxBytes)))
  }

  // A successful read returns the whole file, within the bound of the grant.
  lemma {:induction false} ReadIsWhole(g: Grant, disk: Disk)
    ensures ReadFile(g, disk).Success? <==>
      disk.File? && disk.size <= g.maxBytes && |disk.bytes| <= g.maxBytes && disk.isStable && disk.decodes
    ensures ReadFile(g, disk).Success? ==> ReadFile(g, disk).value.content == disk.bytes
  {
  }

  class GrantStore {
    var grants: Grants

    constructor ()
      ensures grants == map[]
    {
      grants := map[];
    }

    method RegisterGrant(g: Grant, event: Option<Event>, scopes: set<string>) returns (r: Result<(), Denial>)
      modifies this
      ensures match Register(old(grants), g, event, scopes)
        case Failure(code) => r == Failure(code) && grants == old(grants)
        case Success(u) => r == Success(()) && grants == u
    {
      if event.None? || !Authorizes(event.value, g) { return Failure(AuthorizationInvalid); }
      if g.scope !in scopes { return Failure(ScopeUnknown); }
      if g.id in grants {
        return if grants[g.id].grant != g then Failure(GrantConflict) else Success(());
      }
      grants := grants[g.id := Stored(g, None)];
      r := Success(());
    }

    method ClaimGrant(id: GrantId, subject: string, now: int, scopes: set<string>) returns (r: Result<Grant, Denial>)
      modifies this
      ensures match Claim(old(grants), id, subject, now, scopes)
        case Failure(code) => r == Failure(code) && grants == old(grants)
        case Success(u) => id in old(grants) && r == Success(old(grants)[id].grant) && grants == u
    {
      if id !in grants { return Failure(GrantNotFound); }
      var g := grants[id].grant;
      if grants[id].consumedAt.Some? { return Failure(GrantConsumed); }
      if g.subject != subject { return Failure(SubjectMismatch); }
      if now < g.issuedAt { return Failure(GrantNotYetValid); }
      if now >= g.issuedAt + g.validFor { return Failure(GrantExpired); }
      if g.scope !in scopes { return Failure(ScopeUnknown); }
      if !ExtensionAllowed(g) { return Failure(ExtensionDenied); }
      grants := grants[id := Stored(g, Some(now))];
      r := Success(g);
    }

    // The use is consumed before the file is looked at, whatever the read then yields.
    method ExecuteFileRead(id: GrantId, subject: string, now: int, scopes: set<string>, disk: Disk)
      returns (r: Result<Reading, Denial>)
      modifies this
      ensures match Claim(old(grants), id, subject, now, scopes)
        case Failure(code) => r == Failure(code) && grants == old(grants)
        case Success(u) => id in old(grants) && r == ReadFile(old(grants)[id].grant, disk) && grants == u
    {
      var claimed := ClaimGrant(id, subject, now, scopes);
      if claimed.Failure? { return Failure(claimed.error); }
      r := ReadFile(claimed.value, disk);
    }
  }

  // ---------- any interleaving of brokers ----------

  datatype Op =
    | RegisterOp(grant: Grant, event: Option<Event>, scopes: set<string>)
    | ClaimOp(id: GrantId, subject: string, now: int, scopes: set<string>)

  datatype Use = Use(id: GrantId, subject: string, at: int)

  // The stored grants, and the claims that succeeded so far.
  datatype History = History(grants: Grants, uses: seq<Use>)

  function Apply(h: History, op: Op): History {
    match op
    case RegisterOp(g, event, scopes) =>
      (match Register(h.grants, g, event, scopes) case Failure(_) => h case Success(u) => h.(grants := u))
    case ClaimOp(id, subject, now, scopes) =>
      (match Claim(h.grants, id, subject, now, scopes)
       case Failure(_) => h
       case Success(u) => History(u, h.uses + [Use(id, subject, now)]))
  }

  function After(ops: seq<Op>): History {
    if |ops| == 0 then History(map[], []) else Apply(After(ops[..|ops| - 1]), ops[|ops| - 1])
  }

  predicate Registered(ops: seq<Op>, g: Grant) {
    exists op :: op in ops && op.RegisterOp? && op.grant == g && op.event.Some? && Authorizes(op.event.value, g)
  }

  // A grant is consumed exactly by its one use, which its subject made within its window.
  ghost predicate Consistent(h: History) {
    && (forall id :: id in h.grants ==> h.grants[id].grant.id == id)
    && (forall i, j :: 0 <= i < j < |h.uses| ==> h.uses[i].id != h.uses[j].id)
    && (forall u :: u in h.uses ==>
      && u.id in h.grants
      && h.grants[u.id].consumedAt == Some(u.at)
      && h.grants[u.id].grant.subject == u.subject
      && h.grants[u.id].grant.issuedAt <= u.at < h.grants[u.id].grant.issuedAt + h.grants[u.id].grant.validFor)
  }

  lemma {:induction false} ApplyKeeps(h: History, op: Op)
    requires Consistent(h)
    ensures Consistent(Apply(h, op))
    ensures forall id :: id in h.grants ==> id in Apply(h, op).grants && Apply(h, op).grants[id].grant == h.grants[id].grant
    ensures h.uses <= Apply(h, op).uses
  {
  }

  // Under any interleaving every grant is used at most once, by its subject, within its window.
  lemma {:induction false} UsedAtMostOnce(ops: seq<Op>)
    ensures Consistent(After(ops))
  {
    hide Consistent, Apply;
    if |ops| == 0 {
      NothingUsed();
    } else {
      UsedAtMostOnce(ops[..|ops| - 1]);
      ApplyKeeps(After(ops[..|ops| - 1]), ops[|ops| - 1]);
    }
  }

  lemma {:induction false} NothingUsed()
    ensures Consistent(History(map[], []))
  {
  }

  // Once registered, a grant keeps its document through everything that follows.
  lemma {:induction false} DocumentsStay(ops: seq<Op>, more: seq<Op>)
    ensures forall id :: id in After(ops).grants ==>
      id in After(ops + more).grants && After(ops + more).grants[id].grant == After(ops).grants[id].grant
    ensures After(ops).uses <= After(ops + more).uses
  {
    hide Apply;
    if |more| == 0 {
      assert ops + more == ops;
    } else {
      DocumentsStay(ops, more[..|more| - 1]);
      assert (ops + more)[..|ops + more| - 1] == ops + more[..|more| - 1];
      UsedAtMostOnce(ops + more[..|more| - 1]);
      ApplyKeeps(After(ops + more[..|more| - 1]), more[|more| - 1]);
    }
  }

  // Every stored grant was bound to the human approval that names it.
  lemma {:induction false} GrantsAreApproved(ops: seq<Op>)
    ensures forall id :: id in After(ops).grants ==> Registered(ops, After(ops).grants[id].grant)
  {
    hide Authorizes;
    if |ops| > 0 {
      var front, last := ops[..|ops| - 1], ops[|ops| - 1];
      GrantsAreApproved(front);
      assert ops == front + [last];
      forall id | id in After(ops).grants
        ensures Registered(ops, After(ops).grants[id].grant)
      {
        var g := After(ops).grants[id].grant;
        if id in After(front).grants && After(front).grants[id].grant == g {
          assert Registered(front, g);
          var op :| op in front && op.RegisterOp? && op.grant == g && op.event.Some? && Authorizes(op.event.value, g);
          assert op in ops;
        } else {
          assert last.RegisterOp? && last.grant == g;
          assert last in ops;
        }
      }
    }
  }
}
