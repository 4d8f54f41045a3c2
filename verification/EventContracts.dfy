/** Which events can be built: the payloads that always fit the event contract, and the exact bounds of the others. */
module EventContracts {
  import opened Wrappers
  import opened Payloads
  import opened Events
  import Memory
  import Targets

  // ---------- the contracts of providers and tools ----------

  predicate OperationChar(c: char) {
    LowerAlphaNumeric(c) || c == '_' || c == '.'
  }

  // The identity a provider declares; its model name may be longer than the one an event can carry.
  predicate IdentityFits(p: ProviderIdentity) {
    && p.kind in ["fake", "ollama", "openai_compatible"]
    && 1 <= |p.model| <= 512
    && ActorFits(Actor(p.actor, Model))
    && 3 <= |p.operation| <= 128
    && 'a' <= p.operation[0] <= 'z'
    && forall i :: 1 <= i < |p.operation| ==> OperationChar(p.operation[i])
  }

  predicate ScopeFits(s: string) {
    && 3 <= |s| <= 64
    && 'a' <= s[0] <= 'z'
    && forall i :: 1 <= i < |s| ==> LowerAlphaNumeric(s[i]) || s[i] == '_' || s[i] == '-'
  }

  const MAX_READ := 1048576

  predicate ToolFits(tool: ToolRequest) {
    ScopeFits(tool.scope) && Targets.IsPortable(tool.target) && 1 <= tool.maxBytes <= MAX_READ
  }

  // ---------- short payloads ----------

  const SHORT := 4096

  predicate ShortText(s: string) {
    |s| <= SHORT && TextBytes(s) <= SHORT
  }

  predicate ShortMember(p: Property) {
    && p.key.Some? && |p.key.value| <= 30
    && ((p.value.Text? && ShortText(p.value.text)) || (p.value.Int? && 0 <= p.value.number <= MAX_INTEGER) || p.value.Bool?)
  }

  function Pow10(k: nat): (p: nat)
    ensures p > 0
  {
    if k == 0 then 1 else 10 * Pow10(k - 1)
  }

  lemma {:induction false} DecimalBounded(n: nat, k: nat)
    requires n < Pow10(k) && k > 0
    ensures DecimalLength(n) <= k
  {
    if n >= 10 { DecimalBounded(n / 10, k - 1); }
  }

  lemma {:induction false} IntegerIsShort(n: nat)
    requires n <= MAX_INTEGER
    ensures DecimalLength(n) <= 16
  {
    assert Pow10(2) == 100;
    assert Pow10(4) == 10000;
    assert Pow10(6) == 1000000;
    assert Pow10(8) == 100000000;
    assert Pow10(10) == 10000000000;
    assert Pow10(12) == 1000000000000;
    assert Pow10(14) == 100000000000000;
    assert Pow10(16) == 10000000000000000;
    DecimalBounded(n, 16);
  }

  const MOST := 4300

  lemma {:induction false} ShortMemberSize(p: Property)
    requires ShortMember(p)
    ensures NameSize(p.key) + Size(p.value) + 1 <= MOST
    ensures NameFits(p) && forall depth :: Bounded(p.value, depth)
  {
    hide TextBytes, DecimalLength;
    BytesOfText(p.key.value);
    if p.value.Int? { IntegerIsShort(p.value.number); }
  }

  // An object of at most ten short members with different names.
  predicate ShortObject(v: Value) {
    v.Object? && |v.properties| <= 10 && DistinctNames(v.properties)
    && forall i :: 0 <= i < |v.properties| ==> ShortMember(v.properties[i])
  }

  lemma {:induction false} ShortObjectFits(v: Value)
    requires ShortObject(v)
    ensures Bounded(v, 0) && Bounded(v, 1) && Size(v) <= 1 + 10 * MOST && Acceptable(v)
  {
    hide ShortMember, NameSize, DistinctNames;
    var n := |v.properties|;
    forall i | 0 <= i < n
      ensures NameSize(v.properties[i].key) + Size(v.properties[i].value) + 1 <= MOST
      ensures NameFits(v.properties[i]) && Bounded(v.properties[i].value, 1) && Bounded(v.properties[i].value, 2)
    {
      ShortMemberSize(v.properties[i]);
    }
    hide Size, Bounded;
    MembersBounded(v, n, MOST);
    SizeOfObject(v);
    BoundedObject(v);
  }

  lemma {:induction false} SizeOfObject(v: Value)
    requires v.Object?
    ensures Size(v) == if |v.properties| == 0 then 2 else 1 + MembersSize(v, |v.properties|)
  {
  }

  lemma {:induction false} BoundedObject(v: Value)
    requires v.Object? && |v.properties| <= MAX_ITEMS && DistinctNames(v.properties)
    requires forall i :: 0 <= i < |v.properties| ==> NameFits(v.properties[i])
    requires forall i :: 0 <= i < |v.properties| ==> Bounded(v.properties[i].value, 1) && Bounded(v.properties[i].value, 2)
    ensures Bounded(v, 0) && Bounded(v, 1)
  {
  }

  // ---------- texts that are short ----------

  lemma {:induction false} SlugIsShort(a: Actor)
    requires ActorFits(a)
    ensures |a.name| <= 70 && ShortText(a.name)
  {
    hide TextBytes;
    BytesOfText(a.name);
  }

  lemma {:induction false} SmallTextIsShort(s: string)
    requires |s| <= 512
    ensures ShortText(s)
  {
    BytesOfText(s);
  }

  lemma {:induction false} SegmentsCover(target: string, i: nat)
    requires i < |target| && target[i] != '/'
    ensures exists s :: s in Targets.Segments(target) && target[i] in s
  {
    var n := |target|;
    var front := target[..n - 1];
    var before := Targets.Segments(front);
    var last := before[|before| - 1];
    if i < n - 1 {
      SegmentsCover(front, i);
      var s :| s in before && front[i] in s;
      if target[n - 1] == '/' {
        assert s in before + [""];
      } else if s == last {
        assert target[i] in last + [target[n - 1]];
        assert last + [target[n - 1]] in Targets.Segments(target);
      } else {
        assert s in before[..|before| - 1];
        assert s in Targets.Segments(target);
      }
    } else {
      assert last + [target[n - 1]] in Targets.Segments(target);
      assert target[i] in last + [target[n - 1]];
    }
  }

  lemma {:induction false} TargetIsShort(target: string)
    requires Targets.IsPortable(target)
    ensures ShortText(target)
  {
    forall i | 0 <= i < |target|
      ensures ' ' <= target[i] < '\U{7F}' && target[i] != '\"' && target[i] != '\\'
    {
      if target[i] != '/' {
        SegmentsCover(target, i);
        var s :| s in Targets.Segments(target) && target[i] in s;
        assert Targets.SegmentFits(s);
        var k :| 0 <= k < |s| && s[k] == target[i];
        assert Targets.InSegment(s[k]);
      }
    }
    hide Targets.IsPortable, TextBytes;
    PlainBytes(target);
  }

  lemma {:induction false} StepNameIsShort(k: StepKind)
    ensures |StepName(k)| <= 30
  {
  }

  lemma {:induction false} FailureCodeIsShort(failure: FailureKind)
    ensures |FailureCode(failure)| <= 30
  {
    if failure.DeniedFailure? { DenialCodeIsShort(failure.code); }
  }

  lemma {:induction false} DenialCodeIsShort(code: Denial)
    ensures |DenialCode(code)| <= 30
  {
  }

  lemma {:induction false} FixedTexts()
    ensures ShortText(IDENTITY.text) && ShortText(DIGEST.text) && ShortText("file.read")
    ensures ShortText("approved") && ShortText("denied") && ShortText("rejected")
    ensures ShortText("imported") && ShortText("failed") && ShortText("pending_review")
    ensures ShortText("artifact_import") && ShortText("artifact_association") && ShortText("artifact_association_review")
  {
    hide ShortText;
    SmallTextIsShort(IDENTITY.text);
    SmallTextIsShort(DIGEST.text);
    SmallTextIsShort("file.read");
    SmallTextIsShort("approved");
    SmallTextIsShort("denied");
    SmallTextIsShort("rejected");
    SmallTextIsShort("imported");
    SmallTextIsShort("failed");
    SmallTextIsShort("pending_review");
    SmallTextIsShort("artifact_import");
    SmallTextIsShort("artifact_association");
    SmallTextIsShort("artifact_association_review");
  }

  lemma {:induction false} IdentityIsShort(p: ProviderIdentity)
    requires IdentityFits(p)
    ensures ShortText(p.kind) && ShortText(p.model) && ShortText(p.actor) && ShortText(p.operation)
  {
    hide ShortText, ActorFits;
    SlugIsShort(Actor(p.actor, Model));
    SmallTextIsShort(p.kind);
    SmallTextIsShort(p.model);
    SmallTextIsShort(p.operation);
  }

  lemma {:induction false} ToolIsShort(tool: ToolRequest)
    requires ToolFits(tool)
    ensures ShortText(tool.scope) && ShortText(tool.target) && tool.maxBytes <= MAX_INTEGER
  {
    hide ShortText, Targets.IsPortable;
    SmallTextIsShort(tool.scope);
    TargetIsShort(tool.target);
  }

  // ---------- names that differ ----------

  predicate Named(p: Property, name: string) {
    p.key == Some(name)
  }

  lemma {:induction false} ProviderNames(ps: seq<Property>)
    requires 5 <= |ps| <= 8
    requires Named(ps[0], "operation") && Named(ps[1], "provider_kind") && Named(ps[2], "provider_model")
    requires Named(ps[3], "provider_actor_id") && Named(ps[4], "provider_operation")
    requires |ps| > 5 ==> Named(ps[5], "context_manifest_id")
    requires |ps| > 6 ==> Named(ps[6], "context_manifest_ref")
    requires |ps| > 7 ==> Named(ps[7], "observation_ref")
    ensures DistinctNames(ps)
  {
  }

  lemma {:induction false} DecisionNames(ps: seq<Property>)
    requires |ps| == 8
    requires Named(ps[0], "operation") && Named(ps[1], "decision") && Named(ps[2], "grant_id") && Named(ps[3], "tool_request_event_id")
    requires Named(ps[4], "subject_actor_id") && Named(ps[5], "scope_id") && Named(ps[6], "target") && Named(ps[7], "max_bytes")
    ensures DistinctNames(ps)
  {
  }

  lemma {:induction false} ReadingNames(ps: seq<Property>)
    requires |ps| == 7
    requires Named(ps[0], "operation") && Named(ps[1], "grant_id") && Named(ps[2], "observation_ref") && Named(ps[3], "scope_id")
    requires Named(ps[4], "target") && Named(ps[5], "byte_count") && Named(ps[6], "content_hash")
    ensures DistinctNames(ps)
  {
  }

  lemma {:induction false} ClaimNames(ps: seq<Property>)
    requires |ps| == 4
    requires Named(ps[0], "operation") && Named(ps[1], "grant_id") && Named(ps[2], "scope_id") && Named(ps[3], "target")
    ensures DistinctNames(ps)
  {
  }

  // ---------- payloads that always fit ----------

  lemma {:induction false} ShortTextMember(name: string, text: string)
    requires |name| <= 30 && ShortText(text)
    ensures ShortMember(TextMember(name, text)) && Named(TextMember(name, text), name)
  {
  }

  lemma {:induction false} ShortNumberMember(name: string, n: nat)
    requires |name| <= 30 && n <= MAX_INTEGER
    ensures ShortMember(Member(name, Int(n))) && Named(Member(name, Int(n)), name)
  {
  }

  lemma {:induction false} IdMember(name: string)
    requires |name| <= 30
    ensures ShortMember(Member(name, IDENTITY)) && Named(Member(name, IDENTITY), name)
    ensures ShortMember(Member(name, DIGEST)) && Named(Member(name, DIGEST), name)
  {
    SmallTextIsShort(IDENTITY.text);
    SmallTextIsShort(DIGEST.text);
  }

  lemma {:induction false} OperationMember(k: StepKind)
    ensures ShortMember(TextMember("operation", StepName(k))) && Named(TextMember("operation", StepName(k)), "operation")
    ensures OperationMembers(Step(k)) == [TextMember("operation", StepName(k))]
  {
    hide StepName;
    StepNameIsShort(k);
    SmallTextIsShort(StepName(k));
  }

  lemma {:induction false} PlainStepFits(k: StepKind, failure: FailureKind)
    ensures Acceptable(Form(Payload(Step(k), NoDetail))) && Acceptable(Form(Payload(Step(k), FailureDetail(failure))))
  {
    hide ShortMember, TextMember, StepName, FailureCode, OperationMembers, Acceptable, Zeros;
    OperationMember(k);
    FailureCodeIsShort(failure);
    SmallTextIsShort(FailureCode(failure));
    ShortTextMember("failure_kind", FailureCode(failure));
    var none, failed := Form(Payload(Step(k), NoDetail)), Form(Payload(Step(k), FailureDetail(failure)));
    assert none.properties == [TextMember("operation", StepName(k))];
    assert failed.properties == [TextMember("operation", StepName(k)), TextMember("failure_kind", FailureCode(failure))];
    ShortObjectFits(none);
    ShortObjectFits(failed);
  }

  lemma {:induction false} ContextFits(k: StepKind, manifest: Ref)
    ensures Acceptable(Form(Payload(Step(k), ContextDetail(manifest))))
  {
    hide ShortMember, TextMember, Member, StepName, OperationMembers, IDENTITY, DIGEST, Acceptable, Zeros;
    OperationMember(k);
    IdMember("context_manifest_id");
    IdMember("context_manifest_ref");
    var v := Form(Payload(Step(k), ContextDetail(manifest)));
    assert v.properties == [TextMember("operation", StepName(k)), Member("context_manifest_id", IDENTITY), Member("context_manifest_ref", DIGEST)];
    ShortObjectFits(v);
  }

  lemma {:induction false} ProviderMembers(p: ProviderIdentity)
    requires IdentityFits(p)
    ensures ShortMember(TextMember("provider_kind", p.kind)) && Named(TextMember("provider_kind", p.kind), "provider_kind")
    ensures ShortMember(TextMember("provider_model", p.model)) && Named(TextMember("provider_model", p.model), "provider_model")
    ensures ShortMember(TextMember("provider_actor_id", p.actor)) && Named(TextMember("provider_actor_id", p.actor), "provider_actor_id")
    ensures ShortMember(TextMember("provider_operation", p.operation)) && Named(TextMember("provider_operation", p.operation), "provider_operation")
  {
    IdentityIsShort(p);
    hide ShortText, IdentityFits, ShortMember, Named;
    ShortTextMember("provider_kind", p.kind);
    ShortTextMember("provider_model", p.model);
    ShortTextMember("provider_actor_id", p.actor);
    ShortTextMember("provider_operation", p.operation);
  }

  function ProviderForm(k: StepKind, p: ProviderIdentity, sources: seq<Ref>): seq<Property> {
    [TextMember("operation", StepName(k)), TextMember("provider_kind", p.kind), TextMember("provider_model", p.model),
     TextMember("provider_actor_id", p.actor), TextMember("provider_operation", p.operation)]
    + (if |sources| > 0 then [Member("context_manifest_id", IDENTITY), Member("context_manifest_ref", DIGEST)] else [])
    + (if |sources| > 1 then [Member("observation_ref", DIGEST)] else [])
  }

  lemma {:induction false} FormOfProvider(k: StepKind, p: ProviderIdentity, sources: seq<Ref>)
    ensures Form(Payload(Step(k), ProviderDetail(p, sources))) == Object(false, ProviderForm(k, p, sources))
  {
    hide TextMember, Member, StepName, IDENTITY, DIGEST;
    assert Form(Payload(Step(k), ProviderDetail(p, sources))).properties == ProviderForm(k, p, sources);
  }

  lemma {:induction false} ProviderFits(k: StepKind, p: ProviderIdentity, sources: seq<Ref>)
    requires IdentityFits(p)
    ensures Acceptable(Form(Payload(Step(k), ProviderDetail(p, sources))))
  {
    hide Form, ShortMember, Named, TextMember, Member, StepName, OperationMembers, IDENTITY, DIGEST, Acceptable, DistinctNames, IdentityFits, Zeros;
    FormOfProvider(k, p, sources);
    OperationMember(k);
    ProviderMembers(p);
    IdMember("context_manifest_id");
    IdMember("context_manifest_ref");
    IdMember("observation_ref");
    ProviderNames(ProviderForm(k, p, sources));
    ShortObjectFits(Object(false, ProviderForm(k, p, sources)));
  }

  lemma {:induction false} ToolMembers(tool: ToolRequest)
    requires ToolFits(tool)
    ensures ShortMember(TextMember("scope_id", tool.scope)) && Named(TextMember("scope_id", tool.scope), "scope_id")
    ensures ShortMember(TextMember("target", tool.target)) && Named(TextMember("target", tool.target), "target")
    ensures ShortMember(Member("max_bytes", Int(tool.maxBytes))) && Named(Member("max_bytes", Int(tool.maxBytes)), "max_bytes")
  {
    ToolIsShort(tool);
    hide ShortText, ShortMember, Named, ToolFits;
    ShortTextMember("scope_id", tool.scope);
    ShortTextMember("target", tool.target);
    ShortNumberMember("max_bytes", tool.maxBytes);
  }

  lemma {:induction false} SubjectMembers(approved: bool, subject: string)
    requires ActorFits(Actor(subject, Model))
    ensures ShortMember(TextMember("subject_actor_id", subject)) && Named(TextMember("subject_actor_id", subject), "subject_actor_id")
    ensures var word := if approved then "approved" else "denied";
      ShortMember(TextMember("decision", word)) && Named(TextMember("decision", word), "decision")
  {
    SlugIsShort(Actor(subject, Model));
    var word := if approved then "approved" else "denied";
    SmallTextIsShort(word);
    hide ShortText, ShortMember, Named, ActorFits;
    ShortTextMember("subject_actor_id", subject);
    ShortTextMember("decision", word);
  }

  lemma {:induction false} DecisionFits(k: StepKind, approved: bool, grant: nat, toolEvent: EventId, subject: string, tool: ToolRequest)
    requires ActorFits(Actor(subject, Model)) && ToolFits(tool)
    ensures Acceptable(Form(Payload(Step(k), DecisionDetail(approved, grant, toolEvent, subject, tool))))
  {
    hide ShortMember, Named, TextMember, Member, StepName, OperationMembers, IDENTITY, DIGEST, Acceptable, DistinctNames, ActorFits, ToolFits, Zeros;
    OperationMember(k);
    SubjectMembers(approved, subject);
    ToolMembers(tool);
    IdMember("grant_id");
    IdMember("tool_request_event_id");
    var v := Form(Payload(Step(k), DecisionDetail(approved, grant, toolEvent, subject, tool)));
    assert v.properties ==
      [TextMember("operation", StepName(k)), TextMember("decision", if approved then "approved" else "denied"), Member("grant_id", IDENTITY),
       Member("tool_request_event_id", IDENTITY), TextMember("subject_actor_id", subject), TextMember("scope_id", tool.scope),
       TextMember("target", tool.target), Member("max_bytes", Int(tool.maxBytes))];
    DecisionNames(v.properties);
    ShortObjectFits(v);
  }

  lemma {:induction false} ClaimFits(k: StepKind, claimed: nat, tool: ToolRequest)
    requires ToolFits(tool)
    ensures Acceptable(Form(Payload(Step(k), ClaimDetail(claimed, tool))))
  {
    hide ShortMember, Named, TextMember, Member, StepName, OperationMembers, IDENTITY, DIGEST, Acceptable, DistinctNames, ToolFits, Zeros;
    OperationMember(k);
    ToolMembers(tool);
    IdMember("grant_id");
    var v := Form(Payload(Step(k), ClaimDetail(claimed, tool)));
    assert v.properties ==
      [TextMember("operation", StepName(k)), Member("grant_id", IDENTITY), TextMember("scope_id", tool.scope), TextMember("target", tool.target)];
    ClaimNames(v.properties);
    ShortObjectFits(v);
  }

  // A reading within the bound of a tool request, from its target.
  predicate ReadingFits(r: Reading) {
    ScopeFits(r.scope) && Targets.IsPortable(r.target) && |r.content| <= MAX_READ
  }

  lemma {:induction false} ObservationFits(k: StepKind, observed: nat, r: Reading)
    requires ReadingFits(r)
    ensures Acceptable(Form(Payload(Step(k), ReadingDetail(observed, RefTo(ReadingBlob(r))))))
  {
    hide ShortMember, Named, TextMember, Member, StepName, OperationMembers, IDENTITY, DIGEST, Acceptable, DistinctNames, Zeros;
    OperationMember(k);
    ToolMembers(ToolRequest(r.scope, r.target, 1));
    ShortNumberMember("byte_count", |r.content|);
    IdMember("grant_id");
    IdMember("observation_ref");
    IdMember("content_hash");
    var v := Form(Payload(Step(k), ReadingDetail(observed, RefTo(ReadingBlob(r)))));
    assert v.properties ==
      [TextMember("operation", StepName(k)), Member("grant_id", IDENTITY), Member("observation_ref", DIGEST), TextMember("scope_id", r.scope),
       TextMember("target", r.target), Member("byte_count", Int(|r.content|)), Member("content_hash", DIGEST)];
    ReadingNames(v.properties);
    ShortObjectFits(v);
  }

  lemma {:induction false} ToolFormFits(tool: ToolRequest)
    requires ToolFits(tool)
    ensures Bounded(RequestForm(tool), 1) && Size(RequestForm(tool)) <= 1 + 10 * MOST
  {
    hide Zeros;
    FixedTexts();
    ToolIsShort(tool);
    hide ShortText, ToolFits;
    ShortObjectFits(RequestForm(tool));
  }

  lemma {:induction false} ToolRequestFits(k: StepKind, tool: ToolRequest)
    requires ToolFits(tool)
    ensures Acceptable(Form(Payload(Step(k), ToolDetail(tool))))
  {
    OperationMember(k);
    ToolFormFits(tool);
    hide StepName, ToolFits, RequestForm, ShortText;
    var v := Form(Payload(Step(k), ToolDetail(tool)));
    var a, b := TextMember("operation", StepName(k)), Member("request", RequestForm(tool));
    assert v.properties == [a, b];
    ShortMemberSize(a);
    hide Bounded, TextBytes, Size;
    BytesOfText("request");
    TwoMembers(v);
    TwoBounded(v);
  }

  lemma {:induction false} TwoMembers(v: Value)
    requires v.Object? && |v.properties| == 2
    ensures Size(v) == NameSize(v.properties[0].key) + Size(v.properties[0].value) + NameSize(v.properties[1].key) + Size(v.properties[1].value) + 3
  {
    hide NameSize;
    assert MembersSize(v, 0) == 0;
    assert MembersSize(v, 1) == NameSize(v.properties[0].key) + Size(v.properties[0].value) + 1;
  }

  lemma {:induction false} TwoBounded(v: Value)
    requires v.Object? && |v.properties| == 2 && v.properties[0].key != v.properties[1].key
    ensures Bounded(v, 0) <==>
      && NameFits(v.properties[0]) && NameFits(v.properties[1])
      && Bounded(v.properties[0].value, 1) && Bounded(v.properties[1].value, 1)
  {
    hide NameFits;
    assert v.properties == [v.properties[0], v.properties[1]];
  }

  // ---------- imports, associations and their reviews ----------

  const MAX_FILE_NAME := 255
  const MAX_MEDIA := 127

  predicate FileNameFits(s: string) {
    1 <= |s| <= MAX_FILE_NAME && forall i :: 0 <= i < |s| ==> s[i] > '\U{1F}' && s[i] != '/' && s[i] != '\\'
  }

  lemma {:induction false} SegmentIsShort(target: string, s: string)
    requires Targets.IsPortable(target) && s in Targets.Segments(target)
    ensures ShortText(s)
  {
    SegmentLength(target, s);
    assert Targets.SegmentFits(s);
    assert forall i :: 0 <= i < |s| ==> Targets.InSegment(s[i]);
    hide Targets.IsPortable, Targets.Segments, TextBytes;
    PlainBytes(s);
  }

  lemma {:induction false} SegmentLength(target: string, s: string)
    requires s in Targets.Segments(target)
    ensures |s| <= |target|
  {
    if |target| > 0 {
      var before := Targets.Segments(target[..|target| - 1]);
      forall x | x in before
        ensures |x| < |target|
      {
        SegmentLength(target[..|target| - 1], x);
      }
    }
  }

  lemma {:induction false} ImportOperation(op: Operation)
    requires op.ArtifactImport? || op.ArtifactAssociation?
    ensures |OperationMembers(op)| == 1 && ShortMember(OperationMembers(op)[0]) && Named(OperationMembers(op)[0], "operation")
  {
    hide ShortText, Zeros;
    FixedTexts();
  }

  lemma {:induction false} ImportedFits(source: SelectedFile, name: string, media: string, logical: nat, unique: nat, deduplicated: bool)
    requires ScopeFits(source.scope) && |name| <= MAX_FILE_NAME && |media| <= MAX_MEDIA && logical <= MAX_INTEGER && unique <= MAX_INTEGER
    ensures Acceptable(Form(Payload(ArtifactImport, ImportedDetail(source, name, media, logical, unique, deduplicated))))
  {
    hide ShortMember, ShortText, Named, TextMember, OperationMembers, IDENTITY, DIGEST, Acceptable, DistinctNames, Zeros;
    ImportOperation(ArtifactImport);
    FixedTexts();
    SmallTextIsShort(source.scope);
    SmallTextIsShort(name);
    SmallTextIsShort(media);
    ShortTextMember("status", "imported");
    ShortTextMember("source_scope_id", source.scope);
    ShortTextMember("source_name", name);
    IdMember("selection_hash");
    ShortTextMember("media_type", media);
    ShortNumberMember("logical_bytes", logical);
    ShortNumberMember("unique_physical_bytes", unique);
    FlagMember("deduplicated", deduplicated);
    hide Member;
    var v := Form(Payload(ArtifactImport, ImportedDetail(source, name, media, logical, unique, deduplicated)));
    assert v.properties == OperationMembers(ArtifactImport) +
      [TextMember("status", "imported"), TextMember("source_scope_id", source.scope), TextMember("source_name", name),
       Member("selection_hash", DIGEST), TextMember("media_type", media), Member("logical_bytes", Int(logical)),
       Member("unique_physical_bytes", Int(unique)), Member("deduplicated", Payloads.Bool(deduplicated))];
    ImportedNames(v.properties);
    ShortObjectFits(v);
  }

  lemma {:induction false} FlagMember(name: string, b: bool)
    requires |name| <= 30
    ensures ShortMember(Member(name, Payloads.Bool(b))) && Named(Member(name, Payloads.Bool(b)), name)
  {
  }

  lemma {:induction false} ImportedNames(ps: seq<Property>)
    requires |ps| == 9
    requires Named(ps[0], "operation") && Named(ps[1], "status") && Named(ps[2], "source_scope_id") && Named(ps[3], "source_name")
    requires Named(ps[4], "selection_hash") && Named(ps[5], "media_type") && Named(ps[6], "logical_bytes")
    requires Named(ps[7], "unique_physical_bytes") && Named(ps[8], "deduplicated")
    ensures DistinctNames(ps)
  {
  }

  lemma {:induction false} ImportFailedFits(code: ImportFailure, source: SelectedFile, name: string)
    requires ScopeFits(source.scope) && ShortText(name)
    ensures Acceptable(Form(Payload(ArtifactImport, ImportFailedDetail(code, source, name))))
  {
    hide ShortMember, ShortText, Named, TextMember, OperationMembers, IDENTITY, DIGEST, Acceptable, DistinctNames, Zeros, ImportCode;
    ImportOperation(ArtifactImport);
    FixedTexts();
    ImportCodeIsShort(code);
    SmallTextIsShort(source.scope);
    SmallTextIsShort(ImportCode(code));
    ShortTextMember("status", "failed");
    ShortTextMember("error_code", ImportCode(code));
    ShortTextMember("source_scope_id", source.scope);
    ShortTextMember("source_name", name);
    IdMember("selection_hash");
    hide Member;
    var v := Form(Payload(ArtifactImport, ImportFailedDetail(code, source, name)));
    assert v.properties == OperationMembers(ArtifactImport) +
      [TextMember("status", "failed"), TextMember("error_code", ImportCode(code)), TextMember("source_scope_id", source.scope),
       TextMember("source_name", name), Member("selection_hash", DIGEST)];
    FailedNames(v.properties);
    ShortObjectFits(v);
  }

  lemma {:induction false} ImportCodeIsShort(code: ImportFailure)
    ensures |ImportCode(code)| <= 30
  {
  }

  lemma {:induction false} FailedNames(ps: seq<Property>)
    requires |ps| == 6
    requires Named(ps[0], "operation") && Named(ps[1], "status") && Named(ps[2], "error_code") && Named(ps[3], "source_scope_id")
    requires Named(ps[4], "source_name") && Named(ps[5], "selection_hash")
    ensures DistinctNames(ps)
  {
  }

  lemma {:induction false} AssociationFits(target: Memory.RecordId)
    ensures Acceptable(Form(Payload(ArtifactAssociation, AssociationDetail(Some(target)))))
  {
    hide ShortMember, ShortText, Named, TextMember, OperationMembers, IDENTITY, DIGEST, Acceptable, DistinctNames, Zeros;
    ImportOperation(ArtifactAssociation);
    FixedTexts();
    ShortTextMember("status", "pending_review");
    IdMember("target_record_id");
    hide Member;
    var v := Form(Payload(ArtifactAssociation, AssociationDetail(Some(target))));
    assert v.properties == OperationMembers(ArtifactAssociation) + [TextMember("status", "pending_review"), Member("target_record_id", IDENTITY)];
    AssociationNames(v.properties);
    ShortObjectFits(v);
  }

  // Events that say less than the services write fit as well.
  lemma {:induction false} BareAssociationFits()
    ensures Acceptable(Form(Payload(ArtifactAssociation, AssociationDetail(None))))
  {
    hide ShortMember, ShortText, Named, TextMember, OperationMembers, Acceptable, DistinctNames, Zeros;
    ImportOperation(ArtifactAssociation);
    FixedTexts();
    ShortTextMember("status", "pending_review");
    var v := Form(Payload(ArtifactAssociation, AssociationDetail(None)));
    assert v.properties == OperationMembers(ArtifactAssociation) + [TextMember("status", "pending_review")];
    TwoNames(v.properties, "operation", "status");
    ShortObjectFits(v);
  }

  lemma {:induction false} BareReviewFits(proposal: EventId)
    ensures Acceptable(Form(Payload(AssociationReview(Some(proposal)), NoDetail)))
  {
    hide ShortMember, ShortText, Named, IDENTITY, DIGEST, Acceptable, DistinctNames, Zeros;
    FixedTexts();
    ShortTextMember("operation", "artifact_association_review");
    IdMember("proposal_id");
    hide Member, TextMember;
    var v := Form(Payload(AssociationReview(Some(proposal)), NoDetail));
    assert v.properties == [TextMember("operation", "artifact_association_review"), Member("proposal_id", IDENTITY)];
    assert "operation" != "proposal_id";
    TwoNames(v.properties, "operation", "proposal_id");
    ShortObjectFits(v);
  }

  lemma {:induction false} TwoNames(ps: seq<Property>, a: string, b: string)
    requires |ps| == 2 && a != b && Named(ps[0], a) && Named(ps[1], b)
    ensures DistinctNames(ps)
  {
  }

  lemma {:induction false} AssociationNames(ps: seq<Property>)
    requires |ps| == 3
    requires Named(ps[0], "operation") && Named(ps[1], "status") && Named(ps[2], "target_record_id")
    ensures DistinctNames(ps)
  {
  }

  lemma {:induction false} ReviewFits(proposal: EventId, accepted: bool, target: Memory.RecordId)
    ensures Acceptable(Form(Payload(AssociationReview(Some(proposal)), ReviewDetail(accepted, target))))
  {
    hide ShortMember, ShortText, Named, IDENTITY, DIGEST, Acceptable, DistinctNames, Zeros;
    FixedTexts();
    var decision := if accepted then "approved" else "rejected";
    ShortTextMember("operation", "artifact_association_review");
    IdMember("proposal_id");
    ShortTextMember("decision", decision);
    IdMember("target_record_id");
    hide Member, TextMember;
    var v := Form(Payload(AssociationReview(Some(proposal)), ReviewDetail(accepted, target)));
    assert v.properties ==
      [TextMember("operation", "artifact_association_review"), Member("proposal_id", IDENTITY), TextMember("decision", decision),
       Member("target_record_id", IDENTITY)];
    ReviewNames(v.properties);
    ShortObjectFits(v);
  }

  lemma {:induction false} ReviewNames(ps: seq<Property>)
    requires |ps| == 4
    requires Named(ps[0], "operation") && Named(ps[1], "proposal_id") && Named(ps[2], "decision") && Named(ps[3], "target_record_id")
    ensures DistinctNames(ps)
  {
  }

  // ---------- requests ----------

  lemma {:induction false} ThreeMembers(v: Value)
    requires v.Object? && |v.properties| == 3
    ensures Size(v) == NameSize(v.properties[0].key) + Size(v.properties[0].value) + NameSize(v.properties[1].key) + Size(v.properties[1].value)
                       + NameSize(v.properties[2].key) + Size(v.properties[2].value) + 4
  {
    hide NameSize;
    assert MembersSize(v, 0) == 0;
    assert MembersSize(v, 1) == NameSize(v.properties[0].key) + Size(v.properties[0].value) + 1;
    assert MembersSize(v, 2) == MembersSize(v, 1) + NameSize(v.properties[1].key) + Size(v.properties[1].value) + 1;
  }

  lemma {:induction false} ThreeBounded(v: Value)
    requires v.Object? && |v.properties| == 3
    requires v.properties[0].key != v.properties[1].key && v.properties[0].key != v.properties[2].key && v.properties[1].key != v.properties[2].key
    ensures Bounded(v, 0) <==>
      && NameFits(v.properties[0]) && NameFits(v.properties[1]) && NameFits(v.properties[2])
      && Bounded(v.properties[0].value, 1) && Bounded(v.properties[1].value, 1) && Bounded(v.properties[2].value, 1)
  {
    hide NameFits;
    assert v.properties == [v.properties[0], v.properties[1], v.properties[2]];
  }

  lemma {:induction false} PlainName(name: string)
    requires Plain(name) && |name| <= MAX_NAME
    ensures forall v :: NameSize(Member(name, v).key) == |name| + 3 && NameFits(Member(name, v))
    ensures Size(Payloads.Text(name)) == |name| + 2 && Bounded(Payloads.Text(name), 1)
  {
    PlainBytes(name);
  }

  lemma {:induction false} RequestNames()
    ensures Plain("operation") && Plain("message") && Plain("token_budget") && Plain("request_recorded")
    ensures "operation" != "message" && "operation" != "token_budget" && "message" != "token_budget"
  {
  }

  // A recorded request: the text between its quotation marks and the digits of its budget may take 65,475 bytes.
  lemma {:induction false} RequestFitsExactly(message: string, budget: nat)
    ensures Acceptable(Form(Payload(Step(RequestRecorded), RequestDetail(message, budget))))
      <==> |message| <= MAX_TEXT && budget <= MAX_INTEGER && TextBytes(message) + DecimalLength(budget) <= 65475
  {
    hide Plain, NameSize, NameFits, TextBytes, MembersSize;
    RequestNames();
    PlainName("operation");
    PlainName("message");
    PlainName("token_budget");
    PlainName("request_recorded");
    var v := Form(Payload(Step(RequestRecorded), RequestDetail(message, budget)));
    var a, b, c := TextMember("operation", "request_recorded"), TextMember("message", message), Member("token_budget", Int(budget));
    assert v.properties == [a, b, c];
    ThreeMembers(v);
    ThreeBounded(v);
    hide Bounded, Size;
    RequestValues(message, budget);
  }

  lemma {:induction false} RequestValues(message: string, budget: nat)
    ensures Bounded(Payloads.Text(message), 1) <==> |message| <= MAX_TEXT
    ensures Bounded(Int(budget), 1) <==> budget <= MAX_INTEGER
    ensures Size(Payloads.Text(message)) == TextBytes(message) + 2 && Size(Int(budget)) == DecimalLength(budget)
  {
  }

  // ---------- answers ----------

  predicate CitationFits(c: Citation) {
    |c.title| <= MAX_TEXT && InRange(c.rank) && InRange(c.score)
  }

  // The bytes of the citations of an answer, each with the comma or bracket after it.
  function CitationBytes(citations: seq<Citation>): nat {
    if |citations| == 0 then 0 else
    var c := citations[|citations| - 1];
    CitationBytes(citations[..|citations| - 1]) + 184 + TextBytes(c.title) + Size(Int(c.rank)) + Size(Int(c.score))
  }

  function AnswerBytes(answer: string, citations: seq<Citation>): nat {
    55 + TextBytes(answer) + (if |citations| == 0 then 2 else 1 + CitationBytes(citations))
  }

  // What an answer may be to be recorded.
  predicate AnswerFits(answer: string, citations: seq<Citation>) {
    && |answer| <= MAX_TEXT
    && |citations| <= MAX_ITEMS
    && (forall c :: c in citations ==> CitationFits(c))
    && AnswerBytes(answer, citations) <= MAX_BYTES
  }

  lemma {:induction false} CitationNames()
    ensures Plain("record_id") && Plain("content_hash") && Plain("title") && Plain("retrieval_rank") && Plain("retrieval_score")
    ensures Plain(IDENTITY.text) && Plain(DIGEST.text)
    ensures |IDENTITY.text| == 30 && |DIGEST.text| == 71
  {
    hide Zeros;
  }

  lemma {:induction false} CitationSize(c: Citation)
    ensures Size(CitationForm(c)) == 183 + TextBytes(c.title) + Size(Int(c.rank)) + Size(Int(c.score))
  {
    CitationNames();
    PlainBytes(IDENTITY.text);
    PlainBytes(DIGEST.text);
    PlainBytes("record_id");
    PlainBytes("content_hash");
    PlainBytes("title");
    PlainBytes("retrieval_rank");
    PlainBytes("retrieval_score");
    hide Plain, TextBytes, DecimalLength, IDENTITY, DIGEST;
    var v := CitationForm(c);
    assert MembersSize(v, 0) == 0;
    assert MembersSize(v, 1) == 45;
    assert MembersSize(v, 2) == 45 + 89;
    assert MembersSize(v, 3) == 45 + 89 + 11 + TextBytes(c.title);
    assert MembersSize(v, 4) == 45 + 89 + 11 + TextBytes(c.title) + 18 + Size(Int(c.rank));
    assert MembersSize(v, 5) == 45 + 89 + 11 + TextBytes(c.title) + 18 + Size(Int(c.rank)) + 19 + Size(Int(c.score));
  }

  lemma {:induction false} CitationBounded(c: Citation)
    ensures Bounded(CitationForm(c), 2) <==> CitationFits(c)
  {
    var v := CitationForm(c);
    assert DistinctNames(v.properties);
    assert Bounded(IDENTITY, 3) && Bounded(DIGEST, 3);
    hide DistinctNames;
    assert Bounded(v.properties[2].value, 3) <==> |c.title| <= MAX_TEXT;
    assert Bounded(v.properties[3].value, 3) <==> InRange(c.rank);
    assert Bounded(v.properties[4].value, 3) <==> InRange(c.score);
  }

  lemma {:induction false} CitationsSize(citations: seq<Citation>, n: nat)
    requires n <= |citations|
    ensures MembersSize(CitationForms(citations), n) == CitationBytes(citations[..n])
  {
    hide CitationForm, TextBytes;
    if n > 0 {
      CitationsSize(citations, n - 1);
      CitationSize(citations[n - 1]);
      assert citations[..n][..n - 1] == citations[..n - 1];
    }
  }

  lemma {:induction false} CitationsBounded(citations: seq<Citation>)
    ensures Bounded(CitationForms(citations), 1) <==> |citations| <= MAX_ITEMS && forall c :: c in citations ==> CitationFits(c)
  {
    hide CitationForm, CitationFits;
    var v := CitationForms(citations);
    forall i | 0 <= i < |citations|
      ensures Bounded(v.items[i], 2) <==> CitationFits(citations[i])
    {
      CitationBounded(citations[i]);
    }
  }

  lemma {:induction false} AnswerNames()
    ensures Plain("operation") && Plain("answer") && Plain("citations") && Plain("final_response")
    ensures "operation" != "answer" && "operation" != "citations" && "answer" != "citations"
  {
  }

  // A final response is a payload exactly when the answer is at most 16,384 characters long, cites at most 64 records,
  // and its canonical form takes at most 64 KiB.
  lemma {:induction false} AnswerFitsExactly(answer: string, citations: seq<Citation>)
    ensures Acceptable(Form(Payload(Step(FinalResponse), AnswerDetail(answer, citations)))) <==> AnswerFits(answer, citations)
  {
    hide Plain, NameSize, NameFits, TextBytes, CitationForm, CitationBytes, CitationFits;
    AnswerNames();
    PlainName("operation");
    PlainName("answer");
    PlainName("citations");
    PlainName("final_response");
    var v := Form(Payload(Step(FinalResponse), AnswerDetail(answer, citations)));
    var a, b, c := TextMember("operation", "final_response"), TextMember("answer", answer), Member("citations", CitationForms(citations));
    assert v.properties == [a, b, c];
    ThreeMembers(v);
    ThreeBounded(v);
    CitationsSize(citations, |citations|);
    assert citations[..|citations|] == citations;
    CitationsBounded(citations);
  }
}
