/**
 * Resolving authoring policies against a base grant, and evaluating a request under the result. A
 * missing dimension restricts nothing; an empty one allows nothing.
 */
module Policies {
  import opened Options
  import opened TextOrder

  type Capability = string
  type Dimension = Option<map<string, bool>>

  datatype Effect = Allow | Deny | Inherit | UnknownEffect
  datatype Rule = Rule(capability: Capability, effect: Effect)

  datatype Constraints = Constraints(
    entityTypes: Dimension, relationTypes: Dimension, layers: Dimension, columns: Dimension, actions: Dimension)

  datatype Policy = Policy(id: string, digest: string, version: string, rules: seq<Rule>, constraints: Constraints)

  const UNRESTRICTED := Constraints(None, None, None, None, None)

  // ----- Capabilities -------------------------------------------------------------------------

  /** Sorts a copy and drops repeats in place, on the copy's own backing array. */
  method CanonicalCapabilities(input: seq<Capability>) returns (result: seq<Capability>)
    ensures Strict(result) && forall c :: c in result <==> c in input
  {
    hide Less, Deduplicated;
    var sorted := SortedBy(Less, input);
    LessIsComparison();
    SortedByIsOrdered(Less, input);
    DeduplicatedIsStrict(sorted);
    SameElements(sorted, input);
    var values := new Capability[|sorted|](i requires 0 <= i < |sorted| => sorted[i]);
    assert values[..] == sorted;
    var n := UniqueInPlace(values);
    return values[..n];
  }

  // ----- Dimensions ---------------------------------------------------------------------------

  predicate Allows(d: Dimension, x: string) {
    d.Some? ==> x in d.value && d.value[x]
  }

  function Intersected(current: Dimension, next: Dimension): Dimension {
    if next.None? then current
    else if current.None? then next
    else Some(map x | x in current.value && current.value[x] && x in next.value && next.value[x] :: true)
  }

  method IntersectDimension(current: Dimension, next: Dimension) returns (result: Dimension)
    ensures result == Intersected(current, next)
  {
    if next.None? {
      return current;
    }
    if current.None? {
      return next;
    }
    var found: map<string, bool> := map[];
    var pending := current.value.Keys;
    while pending != {}
      invariant pending <= current.value.Keys
      invariant forall x :: x in found <==>
                  x in current.value.Keys - pending && current.value[x] && x in next.value && next.value[x]
      invariant forall x :: x in found ==> found[x]
      decreases |pending|
    {
      var x :| x in pending;
      pending := pending - {x};
      if current.value[x] && x in next.value && next.value[x] {
        found := found[x := true];
      }
    }
    assert found == Intersected(current, next).value;
    return Some(found);
  }

  lemma IntersectedAllowsBoth(current: Dimension, next: Dimension, x: string)
    ensures Allows(Intersected(current, next), x) <==> Allows(current, x) && Allows(next, x)
    ensures Intersected(current, next).None? <==> current.None? && next.None?
  {
  }

  // ----- Resolution ---------------------------------------------------------------------------

  predicate ValidPolicy(p: Policy) {
    p.id != "" && p.digest != "" && p.version != "" && forall i :: 0 <= i < |p.rules| ==>
      p.rules[i].effect != UnknownEffect
  }

  predicate Denies(p: Policy, c: Capability) {
    exists i :: 0 <= i < |p.rules| && p.rules[i] == Rule(c, Deny)
  }

  datatype DimensionName = EntityTypes | RelationTypes | Layers | Columns | Actions

  function DimensionOf(c: Constraints, name: DimensionName): Dimension {
    match name
    case EntityTypes => c.entityTypes
    case RelationTypes => c.relationTypes
    case Layers => c.layers
    case Columns => c.columns
    case Actions => c.actions
  }

  /** The dimension allows what every policy allows, and is missing when none of them has it. */
  ghost predicate Conjunction(d: Dimension, policies: seq<Policy>, name: DimensionName) {
    && (forall x :: Allows(d, x) <==> forall p :: p in policies ==> Allows(DimensionOf(p.constraints, name), x))
    && (d.None? <==> forall p :: p in policies ==> DimensionOf(p.constraints, name).None?)
  }

  lemma ConjunctionNext(d: Dimension, policies: seq<Policy>, p: Policy, name: DimensionName)
    requires Conjunction(d, policies, name)
    ensures Conjunction(Intersected(d, DimensionOf(p.constraints, name)), policies + [p], name)
  {
    var n := Intersected(d, DimensionOf(p.constraints, name));
    assert forall q :: q in policies + [p] <==> q in policies || q == p;
    forall x ensures Allows(n, x) <==> forall q :: q in policies + [p] ==> Allows(DimensionOf(q.constraints, name), x) {
      IntersectedAllowsBoth(d, DimensionOf(p.constraints, name), x);
    }
    IntersectedAllowsBoth(d, DimensionOf(p.constraints, name), "");
  }

  datatype Resolution = Resolution(capabilities: seq<Capability>, constraints: Constraints)

  /** What a resolution means: base capabilities nobody denies, and every dimension as a conjunction. */
  ghost predicate Resolves(r: Resolution, base: seq<Capability>, policies: seq<Policy>) {
    && Strict(r.capabilities)
    && (forall c :: c in r.capabilities <==> c in base && forall p :: p in policies ==> !Denies(p, c))
    && forall name :: Conjunction(DimensionOf(r.constraints, name), policies, name)
  }

  method ApplyRules(effective: set<Capability>, p: Policy) returns (ok: bool, result: set<Capability>)
    ensures ok <==> forall i :: 0 <= i < |p.rules| ==> p.rules[i].effect != UnknownEffect
    ensures ok ==> forall c :: c in result <==> c in effective && !Denies(p, c)
  {
    result := effective;
    for i := 0 to |p.rules|
      invariant forall k :: 0 <= k < i ==> p.rules[k].effect != UnknownEffect
      invariant forall c :: c in result <==> c in effective && !(exists k :: 0 <= k < i && p.rules[k] == Rule(c, Deny))
    {
      match p.rules[i].effect {
        case Deny => result := result - {p.rules[i].capability};
        case UnknownEffect => return false, result;
        case _ =>
      }
    }
    return true, result;
  }

  method SetToSeq(values: set<Capability>) returns (result: seq<Capability>)
    ensures forall c :: c in result <==> c in values
  {
    result := [];
    var pending := values;
    while pending != {}
      invariant pending <= values && forall c :: c in result <==> c in values - pending
      decreases |pending|
    {
      var c :| c in pending;
      pending := pending - {c};
      result := result + [c];
    }
  }

  method IntersectConstraints(current: Constraints, p: Policy, ghost before: seq<Policy>) returns (next: Constraints)
    requires forall name :: Conjunction(DimensionOf(current, name), before, name)
    ensures forall name :: Conjunction(DimensionOf(next, name), before + [p], name)
  {
    hide Conjunction, Intersected;
    var entityTypes := IntersectDimension(current.entityTypes, p.constraints.entityTypes);
    var relationTypes := IntersectDimension(current.relationTypes, p.constraints.relationTypes);
    var layers := IntersectDimension(current.layers, p.constraints.layers);
    var columns := IntersectDimension(current.columns, p.constraints.columns);
    var actions := IntersectDimension(current.actions, p.constraints.actions);
    next := Constraints(entityTypes, relationTypes, layers, columns, actions);
    forall name ensures Conjunction(DimensionOf(next, name), before + [p], name) {
      assert Conjunction(DimensionOf(current, name), before, name);
      ConjunctionNext(DimensionOf(current, name), before, p, name);
    }
  }

  method ResolvePolicies(base: seq<Capability>, policies: seq<Policy>) returns (result: Option<Resolution>)
    ensures result.Some? <==> forall p :: p in policies ==> ValidPolicy(p)
    ensures result.Some? ==> Resolves(result.value, base, policies)
  {
    hide Conjunction, Denies;
    var canonical := CanonicalCapabilities(base);
    var effective := set c | c in canonical;
    var constraints := UNRESTRICTED;
    NothingConstrained();
    for n := 0 to |policies|
      invariant forall k :: 0 <= k < n ==> ValidPolicy(policies[k])
      invariant forall c :: c in effective <==> c in base && forall p :: p in policies[..n] ==> !Denies(p, c)
      invariant forall name :: Conjunction(DimensionOf(constraints, name), policies[..n], name)
    {
      var p := policies[n];
      assert policies[..n + 1] == policies[..n] + [p] && p in policies;
      if p.id == "" || p.digest == "" || p.version == "" {
        return None;
      }
      var ok, left := ApplyRules(effective, p);
      if !ok {
        return None;
      }
      effective := left;
      constraints := IntersectConstraints(constraints, p, policies[..n]);
    }
    assert policies[..|policies|] == policies;
    var listed := SetToSeq(effective);
    var capabilities := CanonicalCapabilities(listed);
    return Some(Resolution(capabilities, constraints));
  }

  lemma NothingConstrained()
    ensures forall name :: Conjunction(DimensionOf(UNRESTRICTED, name), [], name)
  {
  }

  ghost predicate SameDimension(a: Dimension, b: Dimension) {
    (a.None? <==> b.None?) && forall x :: Allows(a, x) <==> Allows(b, x)
  }

  /** Policies listed in another order, or more than once, resolve to the same thing. */
  lemma PolicyOrderIsImmaterial(base: seq<Capability>, a: seq<Policy>, b: seq<Policy>, r: Resolution, q: Resolution)
    requires Resolves(r, base, a) && Resolves(q, base, b) && forall p :: p in a <==> p in b
    ensures r.capabilities == q.capabilities
    ensures forall name :: SameDimension(DimensionOf(r.constraints, name), DimensionOf(q.constraints, name))
  {
    hide Denies, Less;
    StrictIsUnique(r.capabilities, q.capabilities);
    forall name ensures SameDimension(DimensionOf(r.constraints, name), DimensionOf(q.constraints, name)) {
      SameConjunction(DimensionOf(r.constraints, name), DimensionOf(q.constraints, name), a, b, name);
    }
  }

  lemma SameConjunction(d: Dimension, e: Dimension, a: seq<Policy>, b: seq<Policy>, name: DimensionName)
    requires Conjunction(d, a, name) && Conjunction(e, b, name) && forall p :: p in a <==> p in b
    ensures SameDimension(d, e)
  {
  }

  // ----- Evaluation ---------------------------------------------------------------------------

  datatype Facts = Facts(
    entityTypes: seq<string>, relationTypes: seq<string>, layers: seq<string>, columns: seq<string>,
    actions: seq<string>)

  datatype Entry = Entry(capability: Capability, subject: string, facts: Option<Facts>)

  const GRAPH_WRITE: Capability := "graph:write"

  predicate GraphAction(action: string) {
    || action == "create" || action == "update" || action == "delete" || action == "rename"
    || action == "move" || action == "bind" || action == "unbind" || action == "maintain"
  }

  datatype Violation = FactsMissing(subject: string) | ConstraintDenied(subject: string)

  predicate AllAllowed(values: seq<string>, d: Dimension) {
    d.Some? ==> forall i :: 0 <= i < |values| ==> Allows(d, values[i])
  }

  predicate Constrained(c: Constraints) {
    c.entityTypes.Some? || c.relationTypes.Some? || c.layers.Some? || c.columns.Some? || c.actions.Some?
  }

  predicate ValidActions(actions: seq<string>) {
    |actions| > 0 && forall i :: 0 <= i < |actions| ==> GraphAction(actions[i])
  }

  function ViolationOf(e: Entry, c: Constraints): Option<Violation> {
    match e.facts
    case None => if Constrained(c) && e.capability == GRAPH_WRITE then Some(FactsMissing(e.subject)) else None
    case Some(f) =>
      if (Constrained(c) && !ValidActions(f.actions)) || !AllAllowed(f.entityTypes, c.entityTypes) ||
        !AllAllowed(f.relationTypes, c.relationTypes)
         || !AllAllowed(f.layers, c.layers) || !AllAllowed(f.columns, c.columns) || !AllAllowed(f.actions, c.actions)
      then Some(ConstraintDenied(e.subject)) else None
  }

  method ConstraintViolations(impact: seq<Entry>, c: Constraints) returns (violations: seq<Violation>)
    ensures forall x :: x in violations <==> exists i :: 0 <= i < |impact| && ViolationOf(impact[i], c) == Some(x)
    ensures violations == [] <==> forall i :: 0 <= i < |impact| ==> ViolationOf(impact[i], c).None?
  {
    violations := [];
    for i := 0 to |impact|
      invariant forall x :: x in violations <==> exists k :: 0 <= k < i && ViolationOf(impact[k], c) == Some(x)
      invariant violations == [] <==> forall k :: 0 <= k < i ==> ViolationOf(impact[k], c).None?
    {
      var found := ViolationOf(impact[i], c);
      if found.Some? {
        violations := violations + [found.value];
      }
    }
  }

  datatype Code = Allowed | PolicyChanged | AgentScopeDenied | CapabilityDenied | ConstraintsDenied

  const AGENT := "agent"

  datatype Permissions = Permissions(read: bool, export_: bool, propose: bool, apply: bool)

  /** What an agent's permissions say of an intent; one they do not know is refused. */
  predicate Permitted(p: Permissions, intent: string) {
    if intent == "preview" then p.read
    else if intent == "propose" then p.propose
    else (intent == "apply" || intent == "publish") && p.apply
  }

  /** A grant may run without end, or end at a time that does not parse. */
  datatype Expiry = NoExpiry | Unreadable | ExpiresAt(at: int)

  predicate Lapsed(e: Expiry, now: int) {
    e.Unreadable? || (e.ExpiresAt? && now >= e.at)
  }

  datatype Request = Request(
    fingerprint: string, expiry: Expiry, actorKind: string, intent: string, required: seq<Capability>,
    impact: seq<Entry>)

  /** What holds when the request is judged. */
  datatype Context = Context(fingerprint: string, permissions: Option<Permissions>, now: int)

  predicate AgentAllowed(request: Request, context: Context) {
    request.actorKind == AGENT ==> context.permissions.Some? && Permitted(context.permissions.value, request.intent)
  }

  datatype Decision = Decision(code: Code, required: seq<Capability>, missing: seq<Capability>,
                               violations: seq<Violation>)

  ghost predicate Permits(request: Request, context: Context, granted: seq<Capability>, c: Constraints) {
    && request.fingerprint == context.fingerprint && !Lapsed(request.expiry, context.now) &&
       AgentAllowed(request, context)
    && (forall x :: x in request.required ==> x in granted)
    && forall i :: 0 <= i < |request.impact| ==> ViolationOf(request.impact[i], c).None?
  }

  method Evaluate(request: Request, context: Context, granted: seq<Capability>, c: Constraints)
    returns (decision: Decision)
    ensures decision.code == Allowed <==> Permits(request, context, granted, c)
    ensures Strict(decision.required) && forall x :: x in decision.required <==> x in request.required
    ensures Strict(decision.missing) && forall x :: x in decision.missing <==> x in request.required && x !in granted
    ensures decision.violations == [] <==> forall i :: 0 <= i < |request.impact| ==>
              ViolationOf(request.impact[i], c).None?
    ensures decision.code == AgentScopeDenied <==> !AgentAllowed(request, context)
    ensures decision.code == PolicyChanged <==>
              AgentAllowed(request, context) && (request.fingerprint != context.fingerprint ||
                                                 Lapsed(request.expiry, context.now))
    ensures decision.code == ConstraintsDenied ==> decision.missing == [] && decision.violations != []
  {
    hide Less;
    var code := Allowed;
    if context.fingerprint != request.fingerprint {
      code := PolicyChanged;
    }
    match request.expiry {
      case NoExpiry =>
      case Unreadable => code := PolicyChanged;
      case ExpiresAt(at) => if context.now >= at { code := PolicyChanged; }
    }
    if request.actorKind == AGENT && (context.permissions.None? ||
                                      !Permitted(context.permissions.value, request.intent)) {
      code := AgentScopeDenied;
    }
    var required := CanonicalCapabilities(request.required);
    var held := set x | x in granted;
    var missing: seq<Capability> := [];
    for i := 0 to |required|
      invariant Strict(missing) && (forall x :: x in missing <==> x in required[..i] && x !in granted)
    {
      assert required[..i + 1] == required[..i] + [required[i]];
      if required[i] !in held {
        forall k | 0 <= k < |missing| ensures Less(missing[k], required[i]) {
          assert missing[k] in missing;
        }
        missing := missing + [required[i]];
      }
    }
    assert required[..|required|] == required;
    var violations := ConstraintViolations(request.impact, c);
    if code == Allowed && |missing| > 0 {
      code := CapabilityDenied;
    }
    if code == Allowed && |violations| > 0 {
      code := ConstraintsDenied;
    }
    if missing != [] {
      assert missing[0] in missing;
    } else {
      assert forall x :: x in request.required ==> x !in missing;
    }
    return Decision(code, required, missing, violations);
  }

  /** A narrower dimension forbids at least what a wider one did. */
  lemma NarrowerForbidsMore(values: seq<string>, wide: Dimension, narrow: Dimension)
    requires (narrow.None? ==> wide.None?) && forall x :: Allows(narrow, x) ==> Allows(wide, x)
    ensures AllAllowed(values, narrow) ==> AllAllowed(values, wide)
  {
  }

  lemma NarrowerKeepsViolation(e: Entry, wide: Constraints, narrow: Constraints)
    requires forall name :: DimensionOf(narrow, name).None? ==> DimensionOf(wide, name).None?
    requires forall name, x :: Allows(DimensionOf(narrow, name), x) ==> Allows(DimensionOf(wide, name), x)
    ensures ViolationOf(e, narrow).None? ==> ViolationOf(e, wide).None?
  {
    forall name, values: seq<string> ensures AllAllowed(values, DimensionOf(narrow, name)) ==>
      AllAllowed(values, DimensionOf(wide, name)) {
      NarrowerForbidsMore(values, DimensionOf(wide, name), DimensionOf(narrow, name));
    }
    assert DimensionOf(narrow, EntityTypes) == narrow.entityTypes && DimensionOf(wide, EntityTypes) == wide.entityTypes;
    assert DimensionOf(narrow, RelationTypes) == narrow.relationTypes &&
      DimensionOf(wide, RelationTypes) == wide.relationTypes;
    assert DimensionOf(narrow, Layers) == narrow.layers && DimensionOf(wide, Layers) == wide.layers;
    assert DimensionOf(narrow, Columns) == narrow.columns && DimensionOf(wide, Columns) == wide.columns;
    assert DimensionOf(narrow, Actions) == narrow.actions && DimensionOf(wide, Actions) == wide.actions;
  }

  /** Adding a policy never turns a denial into permission. */
  lemma AddingPolicyNeverPermits(request: Request, context: Context, base: seq<Capability>, policies: seq<Policy>,
                                 p: Policy, r: Resolution, s: Resolution)
    requires Resolves(r, base, policies) && Resolves(s, base, policies + [p])
    ensures Permits(request, context, s.capabilities, s.constraints) ==>
              Permits(request, context, r.capabilities, r.constraints)
  {
    hide Denies, Less, ViolationOf;
    assert forall q :: q in policies + [p] <==> q in policies || q == p;
    forall name, x | Allows(DimensionOf(s.constraints, name), x) ensures Allows(DimensionOf(r.constraints, name), x) {
      assert Conjunction(DimensionOf(s.constraints, name), policies + [p], name) &&
        Conjunction(DimensionOf(r.constraints, name), policies, name);
    }
    forall name | DimensionOf(s.constraints, name).None? ensures DimensionOf(r.constraints, name).None? {
      assert Conjunction(DimensionOf(s.constraints, name), policies + [p], name) &&
        Conjunction(DimensionOf(r.constraints, name), policies, name);
    }
    forall i | 0 <= i < |request.impact| && ViolationOf(request.impact[i], s.constraints).None?
      ensures ViolationOf(request.impact[i], r.constraints).None?
    {
      NarrowerKeepsViolation(request.impact[i], r.constraints, s.constraints);
    }
  }
}
