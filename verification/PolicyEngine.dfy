/** backend/app/engine/policy_engine.py and the projection that caches policies */
module PolicyEngine {
  import opened Common
  import opened Models
  import PlainText = Text

  datatype Json =
    | Null
    | Bool(b: bool)
    | Int(i: int)
    | Float(r: real)
    | Str(s: string)
    | Arr(items: seq<Json>)
    | Obj(fields: map<string, Json>)

  /** `float` of a JSON value: text may not spell a number, and an integer may be too large for one. */
  datatype Floating = Converted(value: real) | NotANumber | TooLarge

  /** Python's own conversions: `str`, `lower`, `float` and a pattern search that may reject its pattern. */
  datatype Library = Library(
    str: Json -> string,
    lower: string -> string,
    float: Json -> Floating,
    search: (string, string) -> Option<bool>)

  datatype EvalError = NotAMapping | NotIterable | BadFieldPath | BadPattern | BadAction | NumberTooLarge

  /** An enforcement action; a cached one that is not text is passed on as it is. */
  datatype Action = Known(decision: Decision) | Unknown(raw: Json)

  datatype RuleMatch = RuleMatch(policyId: string, policyName: string, action: Action, matchedConditions: nat)

  /** A policy row as loaded from the database, or the dictionary form kept in the cache. */
  datatype Policy =
    | Stored(id: string, name: string, enabled: bool, rule: Json, action: Decision)
    | Cached(attrs: map<string, Json>)

  function Truthy(j: Json): bool {
    match j
    case Null => false
    case Bool(b) => b
    case Int(i) => i != 0
    case Float(r) => r != 0.0
    case Str(s) => s != ""
    case Arr(items) => items != []
    case Obj(fields) => fields != map[]
  }

  /** `str` of a string is the string itself. */
  function TextOf(lib: Library, j: Json): string {
    if j.Str? then j.s else lib.str(j)
  }

  /** Booleans and whole numbers compare like the equal floating point number. */
  function Comparable(j: Json): Json {
    match j
    case Bool(b) => Float(if b then 1.0 else 0.0)
    case Int(i) => Float(i as real)
    case Arr(items) => Arr(seq(|items|, k requires 0 <= k < |items| => Comparable(items[k])))
    case Obj(fields) => Obj(map k | k in fields :: Comparable(fields[k]))
    case _ => j
  }

  predicate PyEquals(a: Json, b: Json) {
    Comparable(a) == Comparable(b)
  }

  function Lookup(fields: map<string, Json>, key: string, default: Json): Json {
    if key in fields then fields[key] else default
  }

  // ----- resolving a field -----

  function Split(path: string): (parts: seq<string>)
    ensures parts != []
  {
    if path == "" then [""]
    else
      var rest := Split(path[1..]);
      if path[0] == '.' then [""] + rest else [[path[0]] + rest[0]] + rest[1..]
  }

  function Join(parts: seq<string>): string
    requires parts != []
  {
    if |parts| == 1 then parts[0] else parts[0] + "." + Join(parts[1..])
  }

  /** Splitting at dots loses nothing. */
  lemma {:induction false} SplitRoundTrips(path: string)
    ensures Join(Split(path)) == path
  {
    if path != "" {
      SplitRoundTrips(path[1..]);
      var rest := Split(path[1..]);
      if path[0] == '.' {
        assert ([""] + rest)[1..] == rest;
        assert path == "." + path[1..];
      } else {
        assert Split(path)[1..] == rest[1..] && Split(path)[0] == [path[0]] + rest[0];
        assert path == [path[0]] + path[1..];
      }
    }
  }

  /** And it leaves no dot inside a part. */
  lemma {:induction false} SplitPartsHaveNoDot(path: string)
    ensures forall i :: 0 <= i < |Split(path)| ==> '.' !in Split(path)[i]
  {
    if path != "" {
      SplitPartsHaveNoDot(path[1..]);
    }
  }

  function Walk(cursor: Json, parts: seq<string>): Json {
    if parts == [] then cursor
    else if cursor.Obj? && parts[0] in cursor.fields then Walk(cursor.fields[parts[0]], parts[1..])
    else Null
  }

  function Resolve(context: Json, path: Json): Result<Json, EvalError> {
    if !Truthy(path) then Ok(Null)
    else if !path.Str? then Err(BadFieldPath)
    else Ok(Walk(context, Split(path.s)))
  }

  method ResolveField(context: Json, path: Json) returns (r: Result<Json, EvalError>)
    ensures r == Resolve(context, path)
  {
    if !Truthy(path) {
      return Ok(Null);
    }
    if !path.Str? {
      return Err(BadFieldPath);
    }
    var parts := Split(path.s);
    var cursor := context;
    var i := 0;
    while i < |parts|
      invariant 0 <= i <= |parts|
      invariant Walk(cursor, parts[i..]) == Walk(context, parts)
    {
      if cursor.Obj? && parts[i] in cursor.fields {
        cursor := cursor.fields[parts[i]];
      } else {
        return Ok(Null);
      }
      i := i + 1;
    }
    r := Ok(cursor);
  }

  // ----- one condition -----

  /** A value that is no number compares as false; one that is too large is not caught. */
  function Compares(lib: Library, actual: Json, expected: Json, greater: bool): Result<bool, EvalError> {
    match lib.float(actual)
    case NotANumber => Ok(false)
    case TooLarge => Err(NumberTooLarge)
    case Converted(a) =>
      match lib.float(expected)
      case NotANumber => Ok(false)
      case TooLarge => Err(NumberTooLarge)
      case Converted(e) => Ok(if greater then a > e else a < e)
  }

  predicate IsAmong(actual: Json, expected: Json) {
    expected.Arr? && exists k :: 0 <= k < |expected.items| && PyEquals(actual, expected.items[k])
  }

  function Holds(lib: Library, op: string, actual: Json, expected: Json): Result<bool, EvalError> {
    var a, e := lib.lower(TextOf(lib, actual)), lib.lower(TextOf(lib, expected));
    if op == "eq" then Ok(PyEquals(actual, expected))
    else if op == "neq" then Ok(!PyEquals(actual, expected))
    else if op == "contains" then Ok(PlainText.Contains(a, e))
    else if op == "in" then Ok(IsAmong(actual, expected))
    else if op == "starts_with" then Ok(e <= a)
    else if op == "ends_with" then Ok(|e| <= |a| && a[|a| - |e|..] == e)
    else if op == "regex" then
      var found := lib.search(TextOf(lib, expected), TextOf(lib, actual));
      if found.Some? then Ok(found.value) else Err(BadPattern)
    else if op == "exists" then Ok(actual != Null)
    else if op == "gt" then Compares(lib, actual, expected, true)
    else if op == "lt" then Compares(lib, actual, expected, false)
    else Ok(false)
  }

  function EvaluateCondition(lib: Library, context: Json, condition: Json): Result<bool, EvalError> {
    if !condition.Obj? then Err(NotAMapping)
    else
      var f := condition.fields;
      var actual := Resolve(context, Lookup(f, "field", Null));
      if actual.Err? then Err(actual.error)
      else Holds(lib, lib.lower(TextOf(lib, Lookup(f, "op", Str("eq")))), actual.value, Lookup(f, "value", Null))
  }

  /** Prefixes what is already collected to what the remaining elements give. */
  function After<T>(done: seq<T>, rest: Result<seq<T>, EvalError>): Result<seq<T>, EvalError> {
    if rest.Err? then rest else Ok(done + rest.value)
  }

  lemma CollectOne<T>(done: seq<T>, one: T, rest: Result<seq<T>, EvalError>)
    ensures After(done, After([one], rest)) == After(done + [one], rest)
  {
    if rest.Ok? {
      assert done + ([one] + rest.value) == (done + [one]) + rest.value;
    }
  }

  lemma CollectFromNothing<T>(rest: Result<seq<T>, EvalError>)
    ensures After([], rest) == rest
  {
    if rest.Ok? {
      assert [] + rest.value == rest.value;
    }
  }

  function EvaluateConditions(lib: Library, context: Json, conditions: seq<Json>): (r: Result<seq<bool>, EvalError>)
    ensures r.Ok? ==> |r.value| == |conditions|
    ensures r.Ok? ==>
              forall i :: 0 <= i < |conditions| ==> EvaluateCondition(lib, context, conditions[i]) == Ok(r.value[i])
  {
    if conditions == [] then Ok([])
    else
      var first := EvaluateCondition(lib, context, conditions[0]);
      if first.Err? then Err(first.error)
      else
        After([first.value], EvaluateConditions(lib, context, conditions[1..]))
  }

  /** What a `for` loop over the conditions sees; the elements of a string or mapping are strings. */
  function Iterate(conditions: Json): Result<seq<Json>, EvalError> {
    match conditions
    case Arr(items) => Ok(items)
    case Str(s) => Ok(seq(|s|, k requires 0 <= k < |s| => Str([s[k]])))
    case Obj(fields) => if fields == map[] then Ok([]) else Err(NotAMapping)
    case _ => Err(NotIterable)
  }

  // ----- one policy -----

  function ActionText(d: Decision): string {
    match d
    case Allow => "ALLOW"
    case Block => "BLOCK"
    case Review => "REVIEW"
    case Quarantine => "QUARANTINE"
    case RateLimit => "RATE_LIMIT"
  }

  function ParseAction(s: string): Option<Decision> {
    if s == "ALLOW" then Some(Allow)
    else if s == "BLOCK" then Some(Block)
    else if s == "REVIEW" then Some(Review)
    else if s == "QUARANTINE" then Some(Quarantine)
    else if s == "RATE_LIMIT" then Some(RateLimit)
    else None
  }

  predicate IsEnabled(p: Policy) {
    match p
    case Stored(_, _, enabled, _, _) => enabled
    case Cached(attrs) => Truthy(Lookup(attrs, "enabled", Bool(false)))
  }

  function RuleOf(p: Policy): Json {
    var rule :=
      match p
      case Stored(_, _, _, rule, _) => rule
      case Cached(attrs) => Lookup(attrs, "rule_definition", Obj(map[]));
    if Truthy(rule) then rule else Obj(map[])
  }

  function ActionOf(p: Policy): Result<Action, EvalError> {
    match p
    case Stored(_, _, _, _, action) => Ok(Known(action))
    case Cached(attrs) =>
      var action := Lookup(attrs, "enforcement_action", Str(ActionText(Review)));
      if !action.Str? then Ok(Unknown(action))
      else if ParseAction(action.s).Some? then Ok(Known(ParseAction(action.s).value)) else Err(BadAction)
  }

  function IdOf(lib: Library, p: Policy): string {
    match p
    case Stored(id, _, _, _, _) => id
    case Cached(attrs) => TextOf(lib, Lookup(attrs, "id", Str("")))
  }

  function NameOf(lib: Library, p: Policy): string {
    match p
    case Stored(_, name, _, _, _) => name
    case Cached(attrs) => TextOf(lib, Lookup(attrs, "name", Str("Unnamed Policy")))
  }

  predicate All(rs: seq<bool>) { forall i :: 0 <= i < |rs| ==> rs[i] }

  predicate Any(rs: seq<bool>) { exists i :: 0 <= i < |rs| && rs[i] }

  function CountTrue(rs: seq<bool>): nat {
    if rs == [] then 0 else (if rs[0] then 1 else 0) + CountTrue(rs[1..])
  }

  /** `None` when the policy is disabled or its rule does not match. */
  function EvaluateOne(lib: Library, context: Json, p: Policy): Result<Option<RuleMatch>, EvalError> {
    if !IsEnabled(p) then Ok(None)
    else if !RuleOf(p).Obj? then Err(NotAMapping)
    else
      var rule := RuleOf(p).fields;
      var conditions := Lookup(rule, "conditions", Arr([]));
      var mode := lib.lower(TextOf(lib, Lookup(rule, "match", Str("all"))));
      var items := Iterate(conditions);
      if items.Err? then Err(items.error)
      else
        var results := EvaluateConditions(lib, context, items.value);
        if results.Err? then Err(results.error)
        else if !(Truthy(conditions) && if mode == "all" then All(results.value) else Any(results.value)) then Ok(None)
        else
          var action := ActionOf(p);
          if action.Err? then Err(action.error)
          else Ok(Some(RuleMatch(IdOf(lib, p), NameOf(lib, p), action.value, CountTrue(results.value))))
  }

  function Outcomes(lib: Library, context: Json, policies: seq<Policy>)
    : (os: seq<Result<Option<RuleMatch>, EvalError>>)
    ensures |os| == |policies|
  {
    seq(|policies|, i requires 0 <= i < |policies| => EvaluateOne(lib, context, policies[i]))
  }

  /** The matches in order, or the first error. */
  function Collect(outcomes: seq<Result<Option<RuleMatch>, EvalError>>): Result<seq<RuleMatch>, EvalError> {
    if outcomes == [] then Ok([])
    else if outcomes[0].Err? then Err(outcomes[0].error)
    else
      var rest := Collect(outcomes[1..]);
      if outcomes[0].value.Some? then After([outcomes[0].value.value], rest) else rest
  }

  function Evaluate(lib: Library, context: Json, policies: seq<Policy>): Result<seq<RuleMatch>, EvalError> {
    Collect(Outcomes(lib, context, policies))
  }

  method CollectResults(lib: Library, context: Json, conditions: seq<Json>) returns (r: Result<seq<bool>, EvalError>)
    ensures r == EvaluateConditions(lib, context, conditions)
  {
    var results: seq<bool> := [];
    var i := 0;
    assert conditions[0..] == conditions;
    ghost var all := EvaluateConditions(lib, context, conditions);
    CollectFromNothing(all);
    while i < |conditions|
      invariant 0 <= i <= |conditions|
      invariant After(results, EvaluateConditions(lib, context, conditions[i..])) == all
    {
      var one := EvaluateCondition(lib, context, conditions[i]);
      assert conditions[i..][1..] == conditions[i + 1..];
      if one.Err? {
        return Err(one.error);
      }
      CollectOne(results, one.value, EvaluateConditions(lib, context, conditions[i + 1..]));
      results := results + [one.value];
      i := i + 1;
    }
    assert results + [] == results;
    r := Ok(results);
  }

  /** The body of the loop over the policies. */
  method MatchPolicy(lib: Library, context: Json, p: Policy) returns (r: Result<Option<RuleMatch>, EvalError>)
    ensures r == EvaluateOne(lib, context, p)
  {
    if !IsEnabled(p) {
      return Ok(None);
    }
    var rule := RuleOf(p);
    if !rule.Obj? {
      return Err(NotAMapping);
    }
    var conditions := Lookup(rule.fields, "conditions", Arr([]));
    var mode := lib.lower(TextOf(lib, Lookup(rule.fields, "match", Str("all"))));
    var items := Iterate(conditions);
    if items.Err? {
      return Err(items.error);
    }
    var results := CollectResults(lib, context, items.value);
    if results.Err? {
      return Err(results.error);
    }
    var isMatch := if mode == "all" then All(results.value) else Any(results.value);
    if Truthy(conditions) && isMatch {
      var action := ActionOf(p);
      if action.Err? {
        return Err(action.error);
      }
      return Ok(Some(RuleMatch(IdOf(lib, p), NameOf(lib, p), action.value, CountTrue(results.value))));
    }
    r := Ok(None);
  }

  method EvaluatePolicies(lib: Library, context: Json, policies: seq<Policy>)
    returns (r: Result<seq<RuleMatch>, EvalError>)
    ensures r == Evaluate(lib, context, policies)
  {
    var matches: seq<RuleMatch> := [];
    ghost var outcomes := Outcomes(lib, context, policies);
    CollectFromNothing(Collect(outcomes));
    assert outcomes[0..] == outcomes;
    var i := 0;
    while i < |policies|
      invariant 0 <= i <= |policies|
      invariant After(matches, Collect(outcomes[i..])) == Collect(outcomes)
    {
      var one := MatchPolicy(lib, context, policies[i]);
      assert outcomes[i..][1..] == outcomes[i + 1..] && outcomes[i..][0] == one;
      if one.Err? {
        return Err(one.error);
      }
      if one.value.Some? {
        CollectOne(matches, one.value.value, Collect(outcomes[i + 1..]));
        matches := matches + [one.value.value];
      }
      i := i + 1;
    }
    assert matches + [] == matches;
    r := Ok(matches);
  }

  ghost predicate HoldsOn(lib: Library, context: Json, condition: Json) {
    EvaluateCondition(lib, context, condition) == Ok(true)
  }

  lemma ResultsMeaning(lib: Library, context: Json, items: seq<Json>)
    requires EvaluateConditions(lib, context, items).Ok?
    ensures var rs := EvaluateConditions(lib, context, items).value;
            && (All(rs) <==> forall i :: 0 <= i < |items| ==> HoldsOn(lib, context, items[i]))
            && (Any(rs) <==> exists i :: 0 <= i < |items| && HoldsOn(lib, context, items[i]))
  {
    var rs := EvaluateConditions(lib, context, items).value;
    forall i | 0 <= i < |items| ensures rs[i] <==> HoldsOn(lib, context, items[i]) {
    }
    if i :| 0 <= i < |items| && HoldsOn(lib, context, items[i]) {
      assert rs[i];
    }
  }

  predicate MatchesAll(lib: Library, p: Policy) {
    RuleOf(p).Obj? && lib.lower(TextOf(lib, Lookup(RuleOf(p).fields, "match", Str("all")))) == "all"
  }

  /**
   * What matching means: an enabled policy whose conditions all evaluate matches exactly when it
   * has conditions and all of them, or in any other mode at least one of them, holds.
   */
  lemma MatchMeaning(lib: Library, context: Json, p: Policy, items: seq<Json>)
    requires IsEnabled(p) && RuleOf(p).Obj? && Lookup(RuleOf(p).fields, "conditions", Arr([])) == Arr(items)
    requires EvaluateConditions(lib, context, items).Ok? && ActionOf(p).Ok?
    ensures EvaluateOne(lib, context, p).Ok?
    ensures EvaluateOne(lib, context, p).value.Some? <==>
            items != [] &&
            if MatchesAll(lib, p) then forall i :: 0 <= i < |items| ==> HoldsOn(lib, context, items[i])
            else exists i :: 0 <= i < |items| && HoldsOn(lib, context, items[i])
  {
    ResultsMeaning(lib, context, items);
  }

  lemma {:induction false} CountTrueBounds(rs: seq<bool>)
    ensures All(rs) ==> CountTrue(rs) == |rs|
    ensures Any(rs) ==> CountTrue(rs) >= 1
    ensures CountTrue(rs) <= |rs|
  {
    if rs != [] {
      CountTrueBounds(rs[1..]);
    }
  }

  /** A match reports every condition in the "all" mode and at least one otherwise. */
  lemma MatchReportsConditions(lib: Library, context: Json, p: Policy, items: seq<Json>)
    requires RuleOf(p).Obj? && Lookup(RuleOf(p).fields, "conditions", Arr([])) == Arr(items)
    requires EvaluateOne(lib, context, p).Ok? && EvaluateOne(lib, context, p).value.Some?
    ensures var n := EvaluateOne(lib, context, p).value.value.matchedConditions;
            1 <= n <= |items| && (MatchesAll(lib, p) ==> n == |items|)
  {
    CountTrueBounds(EvaluateConditions(lib, context, items).value);
  }

  // ----- the cached form -----

  function Project(p: Policy): Policy {
    match p
    case Stored(id, name, enabled, rule, action) =>
      Cached(map["id" := Str(id), "name" := Str(name), "enabled" := Bool(enabled), "rule_definition" := rule,
                 "enforcement_action" := Str(ActionText(action))])
    case Cached(_) => p
  }

  function ProjectAll(ps: seq<Policy>): seq<Policy> {
    seq(|ps|, i requires 0 <= i < |ps| => Project(ps[i]))
  }

  lemma ActionsRoundTrip(d: Decision)
    ensures ParseAction(ActionText(d)) == Some(d)
  {
  }

  lemma ProjectionKeepsOutcome(lib: Library, context: Json, p: Policy)
    ensures EvaluateOne(lib, context, Project(p)) == EvaluateOne(lib, context, p)
  {
    if p.Stored? {
      ActionsRoundTrip(p.action);
      var c := Project(p);
      assert IsEnabled(c) == IsEnabled(p) && RuleOf(c) == RuleOf(p) && ActionOf(c) == ActionOf(p);
      assert IdOf(lib, c) == IdOf(lib, p) && NameOf(lib, c) == NameOf(lib, p);
    }
  }

  /** Evaluating the cached dictionaries gives the same matches in the same order, or the same error. */
  lemma CachingKeepsMatches(lib: Library, context: Json, ps: seq<Policy>)
    ensures Evaluate(lib, context, ProjectAll(ps)) == Evaluate(lib, context, ps)
  {
    var a, b := Outcomes(lib, context, ProjectAll(ps)), Outcomes(lib, context, ps);
    forall i | 0 <= i < |ps| ensures a[i] == b[i] {
      ProjectionKeepsOutcome(lib, context, ps[i]);
    }
    assert a == b;
  }

  // ----- order of the policies -----

  lemma {:induction false} CollectConcat(a: seq<Result<Option<RuleMatch>, EvalError>>,
                                         b: seq<Result<Option<RuleMatch>, EvalError>>)
    ensures var x, y, xy := Collect(a), Collect(b), Collect(a + b);
            && (xy.Ok? <==> x.Ok? && y.Ok?)
            && (xy.Ok? ==> xy.value == x.value + y.value)
  {
    if a == [] {
      assert a + b == b;
    } else {
      assert (a + b)[1..] == a[1..] + b;
      CollectConcat(a[1..], b);
    }
  }

  lemma EvaluateConcat(lib: Library, context: Json, a: seq<Policy>, b: seq<Policy>)
    ensures var x, y, xy := Evaluate(lib, context, a), Evaluate(lib, context, b), Evaluate(lib, context, a + b);
            && (xy.Ok? <==> x.Ok? && y.Ok?)
            && (xy.Ok? ==> xy.value == x.value + y.value)
  {
    CollectConcat(Outcomes(lib, context, a), Outcomes(lib, context, b));
    assert Outcomes(lib, context, a + b) == Outcomes(lib, context, a) + Outcomes(lib, context, b);
  }

  /** Moving one policy to the front moves its match to the front. */
  lemma MovingToFront(lib: Library, context: Json, left: seq<Policy>, p: Policy, right: seq<Policy>)
    ensures var x, y := Evaluate(lib, context, left + ([p] + right)), Evaluate(lib, context, [p] + (left + right));
            && (x.Ok? <==> y.Ok?)
            && (x.Ok? ==> multiset(x.value) == multiset(y.value))
  {
    EvaluateConcat(lib, context, left, right);
    EvaluateConcat(lib, context, left, [p] + right);
    EvaluateConcat(lib, context, [p], right);
    EvaluateConcat(lib, context, [p], left + right);
  }

  /** Reordering the policies reorders the matches and nothing else. */
  lemma {:induction false} ReorderingPermutesMatches(lib: Library, context: Json, a: seq<Policy>, b: seq<Policy>)
    requires multiset(a) == multiset(b)
    ensures Evaluate(lib, context, a).Ok? <==> Evaluate(lib, context, b).Ok?
    ensures Evaluate(lib, context, a).Ok? ==>
              multiset(Evaluate(lib, context, a).value) == multiset(Evaluate(lib, context, b).value)
    decreases |a|
  {
    if a == [] {
      assert |multiset(b)| == 0;
    } else {
      var p, rest := a[0], a[1..];
      assert a == [p] + rest;
      assert multiset(a) == multiset{p} + multiset(rest);
      var left, right := TakeOut(b, p);
      assert multiset(left + right) == multiset(b) - multiset{p} == multiset(a) - multiset{p} == multiset(rest);
      ReorderingPermutesMatches(lib, context, rest, left + right);
      EvaluateConcat(lib, context, [p], rest);
      EvaluateConcat(lib, context, [p], left + right);
      MovingToFront(lib, context, left, p, right);
    }
  }

  lemma TakeOut(b: seq<Policy>, p: Policy) returns (left: seq<Policy>, right: seq<Policy>)
    requires p in multiset(b)
    ensures b == left + ([p] + right)
    ensures multiset(left + right) == multiset(b) - multiset{p}
  {
    var k :| 0 <= k < |b| && b[k] == p;
    left, right := b[..k], b[k + 1..];
    assert b == left + ([p] + right);
  }
}
