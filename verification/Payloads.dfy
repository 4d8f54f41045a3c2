/** Freezing and thawing event payloads: which values are accepted, and what freezing keeps. */
module Payloads {
  import opened Wrappers

  const MAX_INTEGER := 9007199254740991
  const MAX_ITEMS := 64
  const MAX_NAME := 128
  const MAX_TEXT := 16384
  const MAX_DEPTH := 2

  // A name that is no text has no key. Alien stands for values that are not JSON, and the width of a fractional number
  // is the length of its shortest decimal form.
  datatype Property = Property(key: Option<string>, value: Value)

  datatype Value =
    | Object(isProxy: bool, properties: seq<Property>)
    | Array(isTuple: bool, items: seq<Value>)
    | Text(text: string)
    | Int(number: int)
    | Float(isFinite: bool, amount: real, width: nat)
    | Bool(truth: bool)
    | Null
    | Alien

  // ---------- conversion ----------

  // Every container replaced by its immutable form.
  function Freeze(v: Value): Value {
    match v
    case Object(_, ps) => Object(true, seq(|ps|, i requires 0 <= i < |ps| => Property(ps[i].key, Freeze(ps[i].value))))
    case Array(_, vs) => Array(true, seq(|vs|, i requires 0 <= i < |vs| => Freeze(vs[i])))
    case _ => v
  }

  // Every immutable container replaced by its ordinary form; a list is left as it is, with all it holds.
  function Thaw(v: Value): Value {
    match v
    case Object(_, ps) => Object(false, seq(|ps|, i requires 0 <= i < |ps| => Property(ps[i].key, Thaw(ps[i].value))))
    case Array(isTuple, vs) => if isTuple then Array(false, seq(|vs|, i requires 0 <= i < |vs| => Thaw(vs[i]))) else v
    case _ => v
  }

  // The same JSON value: equal but for the kind of its containers.
  predicate SameJson(v: Value, w: Value) {
    match v
    case Object(_, ps) =>
      w.Object? && |w.properties| == |ps|
      && forall i :: 0 <= i < |ps| ==> ps[i].key == w.properties[i].key && SameJson(ps[i].value, w.properties[i].value)
    case Array(_, vs) => w.Array? && |w.items| == |vs| && forall i :: 0 <= i < |vs| ==> SameJson(vs[i], w.items[i])
    case _ => w == v
  }

  predicate AllFrozen(v: Value) {
    match v
    case Object(isProxy, ps) => isProxy && forall i :: 0 <= i < |ps| ==> AllFrozen(ps[i].value)
    case Array(isTuple, vs) => isTuple && forall i :: 0 <= i < |vs| ==> AllFrozen(vs[i])
    case _ => true
  }

  predicate AllPlain(v: Value) {
    match v
    case Object(isProxy, ps) => !isProxy && forall i :: 0 <= i < |ps| ==> AllPlain(ps[i].value)
    case Array(isTuple, vs) => !isTuple && forall i :: 0 <= i < |vs| ==> AllPlain(vs[i])
    case _ => true
  }

  // Freezing yields the same value with immutable containers throughout.
  lemma {:induction false} FreezeKeeps(v: Value)
    ensures AllFrozen(Freeze(v)) && SameJson(v, Freeze(v))
  {
    match v
    case Object(_, ps) =>
      forall i | 0 <= i < |ps|
        ensures AllFrozen(Freeze(ps[i].value)) && SameJson(ps[i].value, Freeze(ps[i].value))
      {
        FreezeKeeps(ps[i].value);
      }
    case Array(_, vs) =>
      forall i | 0 <= i < |vs|
        ensures AllFrozen(Freeze(vs[i])) && SameJson(vs[i], Freeze(vs[i]))
      {
        FreezeKeeps(vs[i]);
      }
    case _ =>
  }

  // Thawing a frozen value yields the same value with ordinary containers throughout, and freezing that again yields
  // the frozen value.
  lemma {:induction false} ThawOfFrozen(v: Value)
    requires AllFrozen(v)
    ensures AllPlain(Thaw(v)) && SameJson(v, Thaw(v)) && Freeze(Thaw(v)) == v
  {
    match v
    case Object(_, ps) =>
      forall i | 0 <= i < |ps|
        ensures AllPlain(Thaw(ps[i].value)) && SameJson(ps[i].value, Thaw(ps[i].value)) && Freeze(Thaw(ps[i].value)) == ps[i].value
      {
        ThawOfFrozen(ps[i].value);
      }
      assert Freeze(Thaw(v)).properties == ps;
    case Array(_, vs) =>
      forall i | 0 <= i < |vs|
        ensures AllPlain(Thaw(vs[i])) && SameJson(vs[i], Thaw(vs[i])) && Freeze(Thaw(vs[i])) == vs[i]
      {
        ThawOfFrozen(vs[i]);
      }
      assert Freeze(Thaw(v)).items == vs;
    case _ =>
  }

  // Values that are the same JSON freeze to the same value.
  lemma {:induction false} FreezeIsCanonical(v: Value, w: Value)
    requires SameJson(v, w)
    ensures Freeze(v) == Freeze(w)
  {
    match v
    case Object(_, ps) =>
      forall i | 0 <= i < |ps|
        ensures Freeze(ps[i].value) == Freeze(w.properties[i].value)
      {
        FreezeIsCanonical(ps[i].value, w.properties[i].value);
      }
      assert Freeze(v).properties == Freeze(w).properties;
    case Array(_, vs) =>
      forall i | 0 <= i < |vs|
        ensures Freeze(vs[i]) == Freeze(w.items[i])
      {
        FreezeIsCanonical(vs[i], w.items[i]);
      }
      assert Freeze(v).items == Freeze(w).items;
    case _ =>
  }

  // ---------- bounds ----------

  predicate InRange(n: int) { -MAX_INTEGER <= n <= MAX_INTEGER }

  predicate DistinctNames(ps: seq<Property>) {
    forall i, j :: 0 <= i < j < |ps| ==> ps[i].key != ps[j].key
  }

  predicate NameFits(p: Property) {
    p.key.Some? && |p.key.value| <= MAX_NAME
  }

  // A payload the event contract accepts.
  predicate Bounded(v: Value, depth: nat) {
    match v
    case Object(_, ps) =>
      && depth <= MAX_DEPTH
      && |ps| <= MAX_ITEMS
      && DistinctNames(ps)
      && forall i :: 0 <= i < |ps| ==> NameFits(ps[i]) && Bounded(ps[i].value, depth + 1)
    case Array(_, vs) =>
      && depth <= MAX_DEPTH
      && |vs| <= MAX_ITEMS
      && forall i :: 0 <= i < |vs| ==> Bounded(vs[i], depth + 1)
    case Text(s) => |s| <= MAX_TEXT
    case Int(n) => InRange(n)
    case Float(isFinite, x, _) => isFinite && -(MAX_INTEGER as real) <= x <= MAX_INTEGER as real
    case Bool(_) => true
    case Null => true
    case Alien => false
  }

  // Validation and freezing in one pass: it succeeds exactly on bounded values, and then freezes them.
  method FreezeBounded(v: Value, depth: nat) returns (r: Result<Value, ()>)
    ensures r == if Bounded(v, depth) then Success(Freeze(v)) else Failure(())
    decreases v
  {
    match v {
      case Object(_, ps) =>
        if depth > MAX_DEPTH { return Failure(()); }
        var frozen: seq<Property> := [];
        for n := 0 to |ps|
          invariant |frozen| == n && n <= MAX_ITEMS && DistinctNames(ps[..n])
          invariant forall i :: 0 <= i < n ==> NameFits(ps[i]) && Bounded(ps[i].value, depth + 1)
          invariant forall i :: 0 <= i < n ==> frozen[i] == Property(ps[i].key, Freeze(ps[i].value))
        {
          if ps[n].key.None? { return Failure(()); }
          if exists i :: 0 <= i < n && ps[i].key == ps[n].key { return Failure(()); }
          if |frozen| >= MAX_ITEMS || |ps[n].key.value| > MAX_NAME { return Failure(()); }
          var item := FreezeBounded(ps[n].value, depth + 1);
          if item.Failure? { return Failure(()); }
          frozen := frozen + [Property(ps[n].key, item.value)];
        }
        assert ps[..|ps|] == ps && frozen == Freeze(v).properties;
        r := Success(Object(true, frozen));
      case Array(_, vs) =>
        if depth > MAX_DEPTH { return Failure(()); }
        var frozen: seq<Value> := [];
        for n := 0 to |vs|
          invariant |frozen| == n && n <= MAX_ITEMS
          invariant forall i :: 0 <= i < n ==> Bounded(vs[i], depth + 1) && frozen[i] == Freeze(vs[i])
        {
          if |frozen| >= MAX_ITEMS { return Failure(()); }
          var item := FreezeBounded(vs[n], depth + 1);
          if item.Failure? { return Failure(()); }
          frozen := frozen + [item.value];
        }
        assert frozen == Freeze(v).items;
        r := Success(Array(true, frozen));
      case _ =>
        r := if Bounded(v, depth) then Success(v) else Failure(());
    }
  }

  // A stored payload is accepted again after it was thawed, and freezes to the stored one.
  lemma {:induction false} BoundsIgnoreContainers(v: Value, w: Value, depth: nat)
    requires SameJson(v, w)
    ensures Bounded(v, depth) <==> Bounded(w, depth)
    decreases v
  {
    match v
    case Object(_, ps) =>
      forall i | 0 <= i < |ps|
        ensures Bounded(ps[i].value, depth + 1) <==> Bounded(w.properties[i].value, depth + 1)
      {
        BoundsIgnoreContainers(ps[i].value, w.properties[i].value, depth + 1);
      }
      SameNames(ps, w.properties);
    case Array(_, vs) =>
      forall i | 0 <= i < |vs|
        ensures Bounded(vs[i], depth + 1) <==> Bounded(w.items[i], depth + 1)
      {
        BoundsIgnoreContainers(vs[i], w.items[i], depth + 1);
      }
    case _ =>
  }

  lemma {:induction false} SameNames(ps: seq<Property>, qs: seq<Property>)
    requires |ps| == |qs| && forall i :: 0 <= i < |ps| ==> ps[i].key == qs[i].key
    ensures DistinctNames(ps) <==> DistinctNames(qs)
    ensures forall i :: 0 <= i < |ps| ==> (NameFits(ps[i]) <==> NameFits(qs[i]))
  {
  }

  lemma {:induction false} StoredPayloadReadsBack(v: Value)
    requires Bounded(v, 0)
    ensures Bounded(Thaw(Freeze(v)), 0) && Freeze(Thaw(Freeze(v))) == Freeze(v) && SameJson(Freeze(v), Thaw(Freeze(v)))
  {
    FreezeKeeps(v);
    ThawOfFrozen(Freeze(v));
    BoundsIgnoreContainers(v, Freeze(v), 0);
    BoundsIgnoreContainers(Freeze(v), Thaw(Freeze(v)), 0);
  }

  // ---------- the canonical form ----------

  const MAX_BYTES := 65536

  // The bytes a character takes in canonical JSON: control characters are escaped, everything else is UTF-8.
  function CharBytes(c: char): (n: nat)
    ensures 1 <= n <= 6
  {
    if c == '\"' || c == '\\' then 2
    else if c == '\n' || c == '\r' || c == '\t' || c == '\U{8}' || c == '\U{C}' then 2
    else if c < ' ' then 6
    else if c < '\U{80}' then 1
    else if c < '\U{800}' then 2
    else if c < '\U{10000}' then 3
    else 4
  }

  // The bytes of a text between its quotation marks.
  function TextBytes(s: string): nat {
    if |s| == 0 then 0 else TextBytes(s[..|s| - 1]) + CharBytes(s[|s| - 1])
  }

  function DecimalLength(n: nat): nat {
    if n < 10 then 1 else 1 + DecimalLength(n / 10)
  }

  // The bytes of the canonical form of a value.
  function Size(v: Value): nat
    decreases v, 1, 0
  {
    match v
    case Object(_, ps) => if |ps| == 0 then 2 else 1 + MembersSize(v, |ps|)
    case Array(_, vs) => if |vs| == 0 then 2 else 1 + MembersSize(v, |vs|)
    case Text(s) => TextBytes(s) + 2
    case Int(n) => if n < 0 then 1 + DecimalLength(-n) else DecimalLength(n)
    case Float(_, _, width) => width
    case Bool(b) => if b then 4 else 5
    case Null => 4
    case Alien => 0
  }

  // The first n members of a container, each with the comma or bracket after it.
  function MembersSize(v: Value, n: nat): nat
    requires (v.Object? && n <= |v.properties|) || (v.Array? && n <= |v.items|)
    decreases v, 0, n
  {
    if n == 0 then 0
    else if v.Object? then MembersSize(v, n - 1) + NameSize(v.properties[n - 1].key) + Size(v.properties[n - 1].value) + 1
    else MembersSize(v, n - 1) + Size(v.items[n - 1]) + 1
  }

  // A name in quotation marks and the colon after it.
  function NameSize(name: Option<string>): nat {
    if name.Some? then TextBytes(name.value) + 3 else 0
  }

  // A payload the event contract accepts.
  predicate Acceptable(v: Value) {
    v.Object? && Bounded(v, 0) && Size(v) <= MAX_BYTES
  }

  // Characters that canonical JSON writes as they are, in one byte.
  predicate Plain(s: string) {
    forall i :: 0 <= i < |s| ==> ' ' <= s[i] < '\U{7F}' && s[i] != '\"' && s[i] != '\\'
  }

  lemma {:induction false} PlainBytes(s: string)
    requires Plain(s)
    ensures TextBytes(s) == |s|
  {
    if |s| > 0 { PlainBytes(s[..|s| - 1]); }
  }

  lemma {:induction false} BytesOfText(s: string)
    ensures |s| <= TextBytes(s) <= 6 * |s|
  {
    if |s| > 0 { BytesOfText(s[..|s| - 1]); }
  }

  // An object of a few short members is short.
  lemma {:induction false} MembersBounded(v: Value, n: nat, most: nat)
    requires v.Object? && n <= |v.properties|
    requires forall i :: 0 <= i < n ==> NameSize(v.properties[i].key) + Size(v.properties[i].value) + 1 <= most
    ensures MembersSize(v, n) <= n * most
    decreases n
  {
    if n > 0 {
      MembersBounded(v, n - 1, most);
      assert n * most == (n - 1) * most + most;
    }
  }
}
