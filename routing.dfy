/**
 The router as this code sees it: a recorder of the calls the scanner issues. What the
 host router does with those calls (expanding a resource into CRUD rules, running a
 group's callback, rejecting duplicates) is not part of this model.
 */
module Routing {
  import opened Wrappers
  import opened Annotations

  /** The group a rule is added to: the group created for its class, or the
      router's current group (`$this->route->getGroup()`). */
  datatype RuleHost = InGroup(groupPath: Path) | InCurrentGroup

  /** The closure built from a class Resource annotation: when run it registers
      `resource(base, class)` and applies the resource options. */
  datatype ResourceCallback = ResourceCallback(base: Path, cls: ClassName, options: OptionMap)

  /** The dispatch target of a rule, the string "Class@method", kept as its two parts. */
  datatype Target = Target(cls: ClassName, methodName: string)

  /** One call on the router, on a group handle or on a rule handle. */
  datatype Command =
    | CreateGroup(path: Path, callback: Option<ResourceCallback>)
    | GroupOption(groupOptions: OptionMap)
    | GroupMiddleware(groupMiddleware: seq<string>)
    | CreateResource(resourceBase: Path, resourceClass: ClassName)
    | ResourceOption(resourceOptions: OptionMap)
    | AddRule(host: RuleHost, rulePath: Path, target: Target, verb: Verb)
    | RuleName(name: string)
    | RuleOption(ruleOptions: OptionMap)
    | RuleMiddleware(ruleMiddleware: seq<string>)
    | RuleGroup(alias: string)
    | RuleModel(bindVar: string, model: string, exception: bool)
    | RuleValidate(validator: string, scene: string, message: OptionMap, batch: bool)

  /** Which router call a command is, without its arguments. */
  datatype Call =
    | GroupCall | GroupOptionCall | GroupMiddlewareCall | ResourceCall | ResourceOptionCall
    | AddRuleCall | NameCall | RuleOptionCall | RuleMiddlewareCall | RuleGroupCall
    | ModelCall | ValidateCall

  function CallOf(c: Command): Call {
    match c
    case CreateGroup(_, _) => GroupCall
    case GroupOption(_) => GroupOptionCall
    case GroupMiddleware(_) => GroupMiddlewareCall
    case CreateResource(_, _) => ResourceCall
    case ResourceOption(_) => ResourceOptionCall
    case AddRule(_, _, _, _) => AddRuleCall
    case RuleName(_) => NameCall
    case RuleOption(_) => RuleOptionCall
    case RuleMiddleware(_) => RuleMiddlewareCall
    case RuleGroup(_) => RuleGroupCall
    case RuleModel(_, _, _) => ModelCall
    case RuleValidate(_, _, _, _) => ValidateCall
  }

  /** The calls made on a rule handle returned by addRule. */
  predicate OnRule(c: Command) {
    c.AddRule? || c.RuleName? || c.RuleOption? || c.RuleMiddleware? || c.RuleGroup?
    || c.RuleModel? || c.RuleValidate?
  }

  /** The subsequence of a log made of one kind of call, in log order. */
  function Select(log: seq<Command>, call: Call): (r: seq<Command>)
    ensures forall i | 0 <= i < |r| :: CallOf(r[i]) == call
    ensures |r| <= |log|
  {
    if log == [] then []
    else
      var n := |log| - 1;
      Select(log[..n], call) + (if CallOf(log[n]) == call then [log[n]] else [])
  }

  lemma {:induction false} SelectAppend(a: seq<Command>, b: seq<Command>, call: Call)
    ensures Select(a + b, call) == Select(a, call) + Select(b, call)
  {
    if b == [] {
      assert a + b == a;
    } else {
      var n := |b| - 1;
      assert (a + b)[..|a + b| - 1] == a + b[..n];
      SelectAppend(a, b[..n], call);
    }
  }

  lemma {:induction false} SelectAll(log: seq<Command>, call: Call)
    requires forall i | 0 <= i < |log| :: CallOf(log[i]) == call
    ensures Select(log, call) == log
  {
    if log != [] {
      var n := |log| - 1;
      SelectAll(log[..n], call);
      assert log == log[..n] + [log[n]];
    }
  }

  lemma {:induction false} SelectNone(log: seq<Command>, call: Call)
    requires forall i | 0 <= i < |log| :: CallOf(log[i]) != call
    ensures Select(log, call) == []
  {
    if log != [] {
      SelectNone(log[..|log| - 1], call);
    }
  }

  /** Selecting from a log made of one kind of call keeps all or nothing. */
  lemma SelectUniform(log: seq<Command>, kind: Call, call: Call)
    requires forall i | 0 <= i < |log| :: CallOf(log[i]) == kind
    ensures Select(log, call) == if call == kind then log else []
  {
    if call == kind {
      SelectAll(log, call);
    } else {
      SelectNone(log, call);
    }
  }

  /** The logs of the elements of a list, one after the other. */
  function ConcatMap<T>(xs: seq<T>, f: T -> seq<Command>): seq<Command> {
    if xs == [] then []
    else
      var n := |xs| - 1;
      ConcatMap(xs[..n], f) + f(xs[n])
  }

  lemma {:induction false} ConcatMapAppend<T>(a: seq<T>, b: seq<T>, f: T -> seq<Command>)
    ensures ConcatMap(a + b, f) == ConcatMap(a, f) + ConcatMap(b, f)
  {
    if b == [] {
      assert a + b == a;
    } else {
      var n := |b| - 1;
      assert (a + b)[..|a + b| - 1] == a + b[..n];
      ConcatMapAppend(a, b[..n], f);
    }
  }

  lemma ConcatMapSingle<T>(x: T, f: T -> seq<Command>)
    ensures ConcatMap([x], f) == f(x)
  {
    assert [x][..0] == [];
  }

  /** One more element of a list, in the form a loop over it uses. */
  lemma ConcatMapStep<T>(xs: seq<T>, i: nat, f: T -> seq<Command>)
    requires i < |xs|
    ensures ConcatMap(xs[..i + 1], f) == ConcatMap(xs[..i], f) + f(xs[i])
  {
    assert xs[..i + 1][..i] == xs[..i];
  }

  /** Appending to a log in two steps is appending once. */
  lemma AppendAssoc(a: seq<Command>, b: seq<Command>, c: seq<Command>)
    ensures (a + b) + c == a + (b + c)
  {
  }

  /** The router object the scanner drives (`$this->route`), reduced to the log of
      calls made on it and on the group and rule handles it hands out. */
  class Router {
    var log: seq<Command>

    constructor ()
      ensures log == []
    {
      log := [];
    }

    method Record(c: Command)
      modifies this
      ensures log == old(log) + [c]
    {
      log := log + [c];
    }
  }
}
