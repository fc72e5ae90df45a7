/** What the condition operators of backend/app/engine/policy_engine.py mean, one policy with one condition each. */
module PolicyOperators {
  import opened Common
  import opened Models
  import opened PolicyEngine
  import PlainText = Text

  // ----- the value at a path -----

  /** The parts of a dotted path. */
  ghost predicate Parts(path: string, parts: seq<string>) {
    && parts != [] && Join(parts) == path
    && forall i :: 0 <= i < |parts| ==> '.' !in parts[i]
  }

  /** A walk through nested objects, one key at a time. */
  ghost predicate Trail(context: Json, parts: seq<string>, trail: seq<Json>) {
    && |trail| == |parts| + 1 && trail[0] == context
    && forall i :: 0 <= i < |parts| ==>
         trail[i].Obj? && parts[i] in trail[i].fields && trail[i].fields[parts[i]] == trail[i + 1]
  }

  ghost predicate FoundAt(context: Json, path: string, v: Json) {
    exists parts, trail :: Parts(path, parts) && Trail(context, parts, trail) && trail[|parts|] == v
  }

  /** What a condition on this path looks at: the value there, or null when nothing is there. */
  ghost predicate Actual(context: Json, path: string, v: Json) {
    if path == "" then v == Null
    else FoundAt(context, path, v) || (v == Null && forall w :: !FoundAt(context, path, w))
  }

  lemma {:induction false} SplitWithoutDot(s: string)
    requires '.' !in s
    ensures Split(s) == [s]
  {
    if s != "" {
      assert s == [s[0]] + s[1..];
      SplitWithoutDot(s[1..]);
    }
  }

  lemma {:induction false} SplitAtDot(s: string, rest: string)
    requires '.' !in s
    ensures Split(s + "." + rest) == [s] + Split(rest)
  {
    var whole := s + "." + rest;
    if s == "" {
      assert whole[0] == '.' && whole[1..] == rest;
    } else {
      assert s == [s[0]] + s[1..];
      assert whole[0] == s[0] && whole[1..] == s[1..] + "." + rest;
      SplitAtDot(s[1..], rest);
    }
  }

  lemma {:induction false} PartsAreSplit(path: string, parts: seq<string>)
    requires Parts(path, parts)
    ensures parts == Split(path)
    decreases |parts|
  {
    if |parts| == 1 {
      SplitWithoutDot(parts[0]);
    } else {
      var rest := parts[1..];
      assert forall i :: 0 <= i < |rest| ==> rest[i] == parts[i + 1];
      PartsAreSplit(Join(rest), rest);
      SplitAtDot(parts[0], Join(rest));
    }
  }

  lemma SplitIsParts(path: string)
    ensures Parts(path, Split(path))
  {
    SplitRoundTrips(path);
    SplitPartsHaveNoDot(path);
  }

  lemma {:induction false} TrailEndsWalk(context: Json, parts: seq<string>, trail: seq<Json>)
    requires Trail(context, parts, trail)
    ensures Walk(context, parts) == trail[|parts|]
    decreases |parts|
  {
    if parts != [] {
      assert Trail(trail[1], parts[1..], trail[1..]);
      TrailEndsWalk(trail[1], parts[1..], trail[1..]);
    }
  }

  lemma {:induction false} WalkLeavesTrail(context: Json, parts: seq<string>) returns (trail: seq<Json>)
    requires Walk(context, parts) != Null
    ensures Trail(context, parts, trail) && trail[|parts|] == Walk(context, parts)
    decreases |parts|
  {
    if parts == [] {
      trail := [context];
    } else {
      var rest := WalkLeavesTrail(context.fields[parts[0]], parts[1..]);
      trail := [context] + rest;
    }
  }

  /** Resolving finds exactly the value at the path. */
  lemma ResolveFindsActual(context: Json, path: string, v: Json)
    ensures Actual(context, path, v) <==> Resolve(context, Str(path)) == Ok(v)
  {
    if path != "" {
      var parts := Split(path);
      SplitIsParts(path);
      forall w | FoundAt(context, path, w) ensures w == Walk(context, parts) {
        var ps, trail :| Parts(path, ps) && Trail(context, ps, trail) && trail[|ps|] == w;
        PartsAreSplit(path, ps);
        TrailEndsWalk(context, ps, trail);
      }
      if Walk(context, parts) != Null {
        var trail := WalkLeavesTrail(context, parts);
        assert FoundAt(context, path, Walk(context, parts));
      }
    }
  }

  // ----- equality -----

  /** The number a value counts as: booleans are one and zero. */
  function NumberOf(j: Json): Option<real> {
    match j
    case Bool(true) => Some(1.0)
    case Bool(false) => Some(0.0)
    case Int(i) => Some(i as real)
    case Float(r) => Some(r)
    case _ => None
  }

  /** Equal numbers, equal texts, or containers of equal values. */
  ghost predicate SameValue(a: Json, b: Json) {
    if NumberOf(a).Some? || NumberOf(b).Some? then NumberOf(a) == NumberOf(b)
    else
      match a
      case Null => b.Null?
      case Str(s) => b.Str? && b.s == s
      case Arr(items) =>
        b.Arr? && |b.items| == |items| && forall i :: 0 <= i < |items| ==> SameValue(items[i], b.items[i])
      case Obj(fields) =>
        b.Obj? && b.fields.Keys == fields.Keys && forall k :: k in fields ==> SameValue(fields[k], b.fields[k])
  }

  lemma {:induction false} EqualityIsSameValue(a: Json, b: Json)
    ensures PyEquals(a, b) <==> SameValue(a, b)
  {
    var x, y := Comparable(a), Comparable(b);
    if a.Arr? && b.Arr? && |a.items| == |b.items| {
      forall i | 0 <= i < |a.items| ensures x.items[i] == y.items[i] <==> SameValue(a.items[i], b.items[i]) {
        EqualityIsSameValue(a.items[i], b.items[i]);
      }
    } else if a.Arr? && b.Arr? {
      assert |x.items| == |a.items| && |y.items| == |b.items|;
    } else if a.Obj? && b.Obj? {
      assert x.fields.Keys == a.fields.Keys && y.fields.Keys == b.fields.Keys;
      forall k | k in a.fields && k in b.fields
        ensures x.fields[k] == y.fields[k] <==> SameValue(a.fields[k], b.fields[k])
      {
        EqualityIsSameValue(a.fields[k], b.fields[k]);
      }
    }
  }

  // ----- one condition -----

  function Rule(path: string, op: string, value: Json): Json {
    Obj(map["conditions" := Arr([Obj(map["field" := Str(path), "op" := Str(op), "value" := value])])])
  }

  /** An enabled policy with a single condition. */
  predicate IsSingle(p: Policy, path: string, op: string, value: Json) {
    p.Stored? && p.enabled && p.rule == Rule(path, op, value)
  }

  ghost predicate Matches(lib: Library, context: Json, p: Policy) {
    EvaluateOne(lib, context, p).Ok? && EvaluateOne(lib, context, p).value.Some?
  }

  ghost predicate Fails(lib: Library, context: Json, p: Policy) {
    EvaluateOne(lib, context, p).Err?
  }

  /** The text a value is compared as. */
  ghost predicate IsText(lib: Library, j: Json, t: string) {
    (j.Str? ==> t == j.s) && (!j.Str? ==> t == lib.str(j))
  }

  lemma OneResult(lib: Library, context: Json, condition: Json)
    ensures var r, rs := EvaluateCondition(lib, context, condition), EvaluateConditions(lib, context, [condition]);
            rs == if r.Err? then Err(r.error) else Ok([r.value])
  {
    assert [condition][1..] == [];
    assert EvaluateConditions(lib, context, []) == Ok([]);
    var r := EvaluateCondition(lib, context, condition);
    if r.Ok? {
      assert [r.value] + [] == [r.value];
    }
  }

  lemma OneConditionDecides(lib: Library, context: Json, p: Policy, condition: Json)
    requires p.Stored? && p.enabled && p.rule == Obj(map["conditions" := Arr([condition])])
    ensures var r := EvaluateCondition(lib, context, condition);
            && (Matches(lib, context, p) <==> r == Ok(true))
            && (Fails(lib, context, p) <==> r.Err?) && (r.Err? ==> EvaluateOne(lib, context, p) == Err(r.error))
  {
    OneResult(lib, context, condition);
    var results := EvaluateConditions(lib, context, [condition]);
    if results.Ok? {
      assert results.value[0] == EvaluateCondition(lib, context, condition).value;
    }
  }

  lemma SingleFollowsItsCondition(lib: Library, context: Json, p: Policy, path: string, op: string, value: Json,
                                  actual: Json)
    requires IsSingle(p, path, op, value) && Actual(context, path, actual)
    ensures Matches(lib, context, p) <==> Holds(lib, lib.lower(op), actual, value) == Ok(true)
    ensures Fails(lib, context, p) <==> Holds(lib, lib.lower(op), actual, value).Err?
    ensures Fails(lib, context, p) ==>
              EvaluateOne(lib, context, p) == Err(Holds(lib, lib.lower(op), actual, value).error)
  {
    ResolveFindsActual(context, path, actual);
    var condition := Obj(map["field" := Str(path), "op" := Str(op), "value" := value]);
    assert EvaluateCondition(lib, context, condition) == Holds(lib, lib.lower(op), actual, value);
    OneConditionDecides(lib, context, p, condition);
  }

  lemma EqMeans(lib: Library, context: Json, p: Policy, path: string, op: string, value: Json, actual: Json)
    requires IsSingle(p, path, op, value) && Actual(context, path, actual) && lib.lower(op) == "eq"
    ensures !Fails(lib, context, p)
    ensures Matches(lib, context, p) <==> SameValue(actual, value)
  {
    SingleFollowsItsCondition(lib, context, p, path, op, value, actual);
    EqualityIsSameValue(actual, value);
  }

  lemma NeqMeans(lib: Library, context: Json, p: Policy, path: string, op: string, value: Json, actual: Json)
    requires IsSingle(p, path, op, value) && Actual(context, path, actual) && lib.lower(op) == "neq"
    ensures !Fails(lib, context, p)
    ensures Matches(lib, context, p) <==> !SameValue(actual, value)
  {
    SingleFollowsItsCondition(lib, context, p, path, op, value, actual);
    EqualityIsSameValue(actual, value);
  }

  /** The lowered text of the value is a slice of the lowered text of the field. */
  lemma ContainsMeans(lib: Library, context: Json, p: Policy, path: string, op: string, value: Json, actual: Json,
                      a: string, v: string)
    requires IsSingle(p, path, op, value) && Actual(context, path, actual) && lib.lower(op) == "contains"
    requires IsText(lib, actual, a) && IsText(lib, value, v)
    ensures !Fails(lib, context, p)
    ensures Matches(lib, context, p) <==>
            exists i :: PlainText.SliceAt(lib.lower(a), lib.lower(v), i)
  {
    SingleFollowsItsCondition(lib, context, p, path, op, value, actual);
    PlainText.ContainsIsSlice(lib.lower(a), lib.lower(v));
  }

  lemma InMeans(lib: Library, context: Json, p: Policy, path: string, op: string, value: Json, actual: Json)
    requires IsSingle(p, path, op, value) && Actual(context, path, actual) && lib.lower(op) == "in"
    ensures !Fails(lib, context, p)
    ensures Matches(lib, context, p) <==>
            value.Arr? && exists k :: 0 <= k < |value.items| && SameValue(actual, value.items[k])
  {
    SingleFollowsItsCondition(lib, context, p, path, op, value, actual);
    if value.Arr? {
      forall k | 0 <= k < |value.items|
        ensures PyEquals(actual, value.items[k]) <==> SameValue(actual, value.items[k])
      {
        EqualityIsSameValue(actual, value.items[k]);
      }
    }
  }

  lemma StartsWithMeans(lib: Library, context: Json, p: Policy, path: string, op: string, value: Json, actual: Json,
                        a: string, v: string)
    requires IsSingle(p, path, op, value) && Actual(context, path, actual) && lib.lower(op) == "starts_with"
    requires IsText(lib, actual, a) && IsText(lib, value, v)
    ensures !Fails(lib, context, p)
    ensures Matches(lib, context, p) <==> exists rest :: lib.lower(a) == lib.lower(v) + rest
  {
    SingleFollowsItsCondition(lib, context, p, path, op, value, actual);
    if lib.lower(v) <= lib.lower(a) {
      assert lib.lower(a) == lib.lower(v) + lib.lower(a)[|lib.lower(v)|..];
    }
  }

  lemma EndIsSuffix(x: string, y: string)
    ensures |y| <= |x| && x[|x| - |y|..] == y <==> exists front :: x == front + y
  {
    if |y| <= |x| && x[|x| - |y|..] == y {
      assert x == x[..|x| - |y|] + y;
    }
    if front :| x == front + y {
      assert x[|x| - |y|..] == y;
    }
  }

  lemma EndsWithMeans(lib: Library, context: Json, p: Policy, path: string, op: string, value: Json, actual: Json,
                      a: string, v: string)
    requires IsSingle(p, path, op, value) && Actual(context, path, actual) && lib.lower(op) == "ends_with"
    requires IsText(lib, actual, a) && IsText(lib, value, v)
    ensures !Fails(lib, context, p)
    ensures Matches(lib, context, p) <==> exists front :: lib.lower(a) == front + lib.lower(v)
  {
    SingleFollowsItsCondition(lib, context, p, path, op, value, actual);
    EndIsSuffix(lib.lower(a), lib.lower(v));
  }

  /** The pattern search decides, or rejects its pattern. */
  lemma RegexMeans(lib: Library, context: Json, p: Policy, path: string, op: string, value: Json, actual: Json,
                   a: string, v: string)
    requires IsSingle(p, path, op, value) && Actual(context, path, actual) && lib.lower(op) == "regex"
    requires IsText(lib, actual, a) && IsText(lib, value, v)
    ensures Fails(lib, context, p) <==> lib.search(v, a) == None
    ensures Fails(lib, context, p) ==> EvaluateOne(lib, context, p) == Err(BadPattern)
    ensures Matches(lib, context, p) <==> lib.search(v, a) == Some(true)
  {
    SingleFollowsItsCondition(lib, context, p, path, op, value, actual);
  }

  /** The path leads through nested objects to a value that is not null. */
  lemma ExistsMeans(lib: Library, context: Json, p: Policy, path: string, op: string, value: Json)
    requires IsSingle(p, path, op, value) && lib.lower(op) == "exists"
    ensures !Fails(lib, context, p)
    ensures Matches(lib, context, p) <==> path != "" && exists v :: FoundAt(context, path, v) && v != Null
  {
    var actual := Resolve(context, Str(path)).value;
    ResolveFindsActual(context, path, actual);
    SingleFollowsItsCondition(lib, context, p, path, op, value, actual);
    if v :| FoundAt(context, path, v) && v != Null {
      ResolveFindsActual(context, path, v);
    }
  }

  lemma ComparesNumbers(lib: Library, actual: Json, value: Json)
    ensures Compares(lib, actual, value, true) == Ok(true) <==>
            exists x, y :: lib.float(actual) == Converted(x) && lib.float(value) == Converted(y) && x > y
    ensures Compares(lib, actual, value, false) == Ok(true) <==>
            exists x, y :: lib.float(actual) == Converted(x) && lib.float(value) == Converted(y) && x < y
    ensures forall greater :: Compares(lib, actual, value, greater).Err? ==>
              Compares(lib, actual, value, greater) == Err(NumberTooLarge)
    ensures forall greater :: Compares(lib, actual, value, greater).Err? <==>
              lib.float(actual) == TooLarge || (lib.float(actual).Converted? && lib.float(value) == TooLarge)
  {
  }

  /** The two values as numbers, the field's greater than the condition's. */
  lemma GreaterMeans(lib: Library, context: Json, p: Policy, path: string, op: string, value: Json, actual: Json)
    requires IsSingle(p, path, op, value) && Actual(context, path, actual) && lib.lower(op) == "gt"
    ensures Matches(lib, context, p) <==>
            exists x, y :: lib.float(actual) == Converted(x) && lib.float(value) == Converted(y) && x > y
    ensures Fails(lib, context, p) <==>
            lib.float(actual) == TooLarge || (lib.float(actual).Converted? && lib.float(value) == TooLarge)
    ensures Fails(lib, context, p) ==> EvaluateOne(lib, context, p) == Err(NumberTooLarge)
  {
    SingleFollowsItsCondition(lib, context, p, path, op, value, actual);
    ComparesNumbers(lib, actual, value);
  }

  lemma LessMeans(lib: Library, context: Json, p: Policy, path: string, op: string, value: Json, actual: Json)
    requires IsSingle(p, path, op, value) && Actual(context, path, actual) && lib.lower(op) == "lt"
    ensures Matches(lib, context, p) <==>
            exists x, y :: lib.float(actual) == Converted(x) && lib.float(value) == Converted(y) && x < y
    ensures Fails(lib, context, p) <==>
            lib.float(actual) == TooLarge || (lib.float(actual).Converted? && lib.float(value) == TooLarge)
    ensures Fails(lib, context, p) ==> EvaluateOne(lib, context, p) == Err(NumberTooLarge)
  {
    SingleFollowsItsCondition(lib, context, p, path, op, value, actual);
    ComparesNumbers(lib, actual, value);
  }

  predicate IsOperator(op: string) {
    || op == "eq" || op == "neq" || op == "contains" || op == "in" || op == "starts_with" || op == "ends_with"
    || op == "regex" || op == "exists" || op == "gt" || op == "lt"
  }

  lemma UnknownOperatorNeverMatches(lib: Library, context: Json, p: Policy, path: string, op: string, value: Json)
    requires IsSingle(p, path, op, value) && !IsOperator(lib.lower(op))
    ensures !Fails(lib, context, p) && !Matches(lib, context, p)
  {
    var actual := Resolve(context, Str(path)).value;
    ResolveFindsActual(context, path, actual);
    SingleFollowsItsCondition(lib, context, p, path, op, value, actual);
  }

  /** A condition without an operator tests for equality, and one without a value compares with null. */
  lemma DefaultsAreEqAndNull(lib: Library, context: Json, path: string, op: string, value: Json)
    ensures EvaluateCondition(lib, context, Obj(map["field" := Str(path), "value" := value]))
         == EvaluateCondition(lib, context, Obj(map["field" := Str(path), "op" := Str("eq"), "value" := value]))
    ensures EvaluateCondition(lib, context, Obj(map["field" := Str(path), "op" := Str(op)]))
         == EvaluateCondition(lib, context, Obj(map["field" := Str(path), "op" := Str(op), "value" := Null]))
  {
  }

  // ----- several conditions -----

  predicate HasConditions(p: Policy, conditions: seq<Json>) {
    p.Stored? && p.enabled && p.rule.Obj? && "conditions" in p.rule.fields
    && p.rule.fields["conditions"] == Arr(conditions)
  }

  lemma ConditionsDecide(lib: Library, context: Json, p: Policy, conditions: seq<Json>)
    requires HasConditions(p, conditions) && EvaluateConditions(lib, context, conditions).Ok?
    ensures Matches(lib, context, p) <==>
            conditions != [] &&
            if MatchesAll(lib, p) then forall i :: 0 <= i < |conditions| ==> HoldsOn(lib, context, conditions[i])
            else exists i :: 0 <= i < |conditions| && HoldsOn(lib, context, conditions[i])
  {
    assert RuleOf(p) == p.rule;
    MatchMeaning(lib, context, p, conditions);
  }

  lemma ModeIsRead(lib: Library, p: Policy, mode: string)
    requires p.Stored? && p.rule.Obj? && "match" in p.rule.fields && p.rule.fields["match"] == Str(mode)
    ensures MatchesAll(lib, p) <==> lib.lower(mode) == "all"
  {
    assert RuleOf(p) == p.rule;
  }

  /** Without conditions nothing matches; mode "all" needs all of them and any other mode one. */
  lemma ModesMean(lib: Library, context: Json, p: Policy, mode: string, conditions: seq<Json>)
    requires HasConditions(p, conditions) && EvaluateConditions(lib, context, conditions).Ok?
    requires "match" in p.rule.fields && p.rule.fields["match"] == Str(mode)
    ensures Matches(lib, context, p) <==>
            conditions != [] &&
            if lib.lower(mode) == "all" then forall i :: 0 <= i < |conditions| ==> HoldsOn(lib, context, conditions[i])
            else exists i :: 0 <= i < |conditions| && HoldsOn(lib, context, conditions[i])
  {
    ModeIsRead(lib, p, mode);
    ConditionsDecide(lib, context, p, conditions);
  }

  /** Without a mode it is "all". */
  lemma DefaultModeIsAll(lib: Library, context: Json, p: Policy, conditions: seq<Json>)
    requires HasConditions(p, conditions) && EvaluateConditions(lib, context, conditions).Ok?
    requires "match" !in p.rule.fields && lib.lower("all") == "all"
    ensures Matches(lib, context, p) <==>
            conditions != [] && forall i :: 0 <= i < |conditions| ==> HoldsOn(lib, context, conditions[i])
  {
    ConditionsDecide(lib, context, p, conditions);
  }

  // ----- the policy around its conditions -----

  /** What Python takes for false: null, false, zero and everything empty. */
  lemma FalseValues(j: Json)
    ensures !Truthy(j) <==> j == Null || j == Bool(false) || j == Int(0) || j == Float(0.0)
                            || j == Str("") || j == Arr([]) || j == Obj(map[])
  {
  }

  /** A cached policy is skipped, whatever its rule, when it does not say that it is enabled. */
  lemma UnmarkedPolicyIsSkipped(lib: Library, context: Json, attrs: map<string, Json>)
    requires "enabled" !in attrs || attrs["enabled"] in [Null, Bool(false), Int(0), Float(0.0), Str(""), Arr([])]
    ensures !Matches(lib, context, Cached(attrs)) && !Fails(lib, context, Cached(attrs))
  {
  }

  /** An enabled policy without a rule, or with an empty one, matches nothing; any other rule must be a mapping. */
  lemma RuleMustBeMapping(lib: Library, context: Json, p: Policy)
    requires p.Stored? && p.enabled && !p.rule.Obj?
    ensures !Matches(lib, context, p)
    ensures !Fails(lib, context, p) <==> p.rule in [Null, Bool(false), Int(0), Float(0.0), Str(""), Arr([])]
    ensures Fails(lib, context, p) ==> EvaluateOne(lib, context, p) == Err(NotAMapping)
  {
    if !Fails(lib, context, p) {
      FalseValues(p.rule);
    }
  }

  /** Conditions that are no list: nothing to iterate over, or elements that are no conditions. */
  lemma ConditionsMustBeList(lib: Library, context: Json, p: Policy, conditions: Json)
    requires p.Stored? && p.enabled && p.rule == Obj(map["conditions" := conditions]) && !conditions.Arr?
    ensures !Matches(lib, context, p)
    ensures !Fails(lib, context, p) <==> conditions == Str("") || conditions == Obj(map[])
    ensures Fails(lib, context, p) ==>
              EvaluateOne(lib, context, p)
              == Err(if conditions.Str? || conditions.Obj? then NotAMapping else NotIterable)
  {
    assert Lookup(RuleOf(p).fields, "conditions", Arr([])) == conditions;
    if conditions.Str? && conditions.s != "" {
      var items := Iterate(conditions).value;
      assert items[0] == Str([conditions.s[0]]) && EvaluateCondition(lib, context, items[0]).Err?;
    }
  }

  /** The field of a condition must be text; an empty one of any kind finds null. */
  lemma FieldMustBeText(lib: Library, context: Json, p: Policy, field: Json)
    requires p.Stored? && p.enabled && !field.Str? && lib.lower("eq") == "eq"
    requires p.rule == Obj(map["conditions" := Arr([Obj(map["field" := field])])])
    ensures Fails(lib, context, p) <==> field !in [Null, Bool(false), Int(0), Float(0.0), Arr([]), Obj(map[])]
    ensures Fails(lib, context, p) ==> EvaluateOne(lib, context, p) == Err(BadFieldPath)
  {
    FalseValues(field);
    OneConditionDecides(lib, context, p, Obj(map["field" := field]));
    OneResult(lib, context, Obj(map["field" := field]));
  }

  /** A match of a stored policy carries its id, its name and its action. */
  lemma MatchNamesItsPolicy(lib: Library, context: Json, p: Policy)
    requires p.Stored? && Matches(lib, context, p)
    ensures var m := EvaluateOne(lib, context, p).value.value;
            m.policyId == p.id && m.policyName == p.name && m.action == Known(p.action)
  {
  }

  /** The action of a cached policy: one of five words, REVIEW when absent, and an error for any other word. */
  lemma CachedActions(attrs: map<string, Json>)
    ensures ActionOf(Cached(attrs)) ==
            if "enforcement_action" !in attrs || attrs["enforcement_action"] == Str("REVIEW") then Ok(Known(Review))
            else if attrs["enforcement_action"] == Str("ALLOW") then Ok(Known(Allow))
            else if attrs["enforcement_action"] == Str("BLOCK") then Ok(Known(Block))
            else if attrs["enforcement_action"] == Str("QUARANTINE") then Ok(Known(Quarantine))
            else if attrs["enforcement_action"] == Str("RATE_LIMIT") then Ok(Known(RateLimit))
            else if attrs["enforcement_action"].Str? then Err(BadAction)
            else Ok(Unknown(attrs["enforcement_action"]))
  {
  }

  /** A cached policy without identifier or name gets the two defaults. */
  lemma CachedNames(lib: Library, context: Json, attrs: map<string, Json>)
    requires Matches(lib, context, Cached(attrs))
    ensures var m := EvaluateOne(lib, context, Cached(attrs)).value.value;
            && (if "id" in attrs then IsText(lib, attrs["id"], m.policyId) else m.policyId == "")
            && (if "name" in attrs then IsText(lib, attrs["name"], m.policyName) else m.policyName == "Unnamed Policy")
  {
  }

  // ----- the reported number of conditions -----

  ghost function TrueFrom(rs: seq<bool>, from: nat): set<nat> {
    set i: nat | from <= i < |rs| && rs[i]
  }

  lemma {:induction false} CountIsCardinality(rs: seq<bool>, from: nat)
    requires from <= |rs|
    ensures CountTrue(rs[from..]) == |TrueFrom(rs, from)|
    decreases |rs| - from
  {
    if from == |rs| {
      assert TrueFrom(rs, from) == {};
    } else {
      CountIsCardinality(rs, from + 1);
      assert rs[from..][1..] == rs[from + 1..];
      assert TrueFrom(rs, from) == TrueFrom(rs, from + 1) + if rs[from] then {from} else {};
    }
  }

  /** A match reports how many of its conditions hold, not just that enough of them do. */
  lemma ReportCountsConditions(lib: Library, context: Json, p: Policy, conditions: seq<Json>)
    requires HasConditions(p, conditions) && Matches(lib, context, p)
    ensures EvaluateOne(lib, context, p).value.value.matchedConditions
         == |set i: nat | i < |conditions| && HoldsOn(lib, context, conditions[i])|
  {
    assert RuleOf(p) == p.rule;
    var results := EvaluateConditions(lib, context, conditions);
    assert results.value[0..] == results.value;
    CountIsCardinality(results.value, 0);
    assert TrueFrom(results.value, 0) == set i: nat | i < |conditions| && HoldsOn(lib, context, conditions[i]);
  }
}
