/**
 What one rule and one public method issue, stated by selecting one kind of router
 call out of the log: the rules in lookup order, each with its own path, verb and
 options, and after each of them the same attachments read from the method.
 */
module RuleProperties {
  import opened Wrappers
  import opened Annotations
  import opened Routing
  import opened Translation

  /** The rules held by the filled slots, in slot order. */
  function PresentRules(routes: seq<Option<Rule>>): seq<Rule> {
    if routes == [] then []
    else
      var n := |routes| - 1;
      PresentRules(routes[..n]) + (if routes[n].Some? then [routes[n].value] else [])
  }

  /** k copies of a log, one after the other. */
  function Repeat(log: seq<Command>, k: nat): seq<Command> {
    if k == 0 then [] else Repeat(log, k - 1) + log
  }

  /** A log of calls made on rule handles only, whose addRule calls all go to host. */
  predicate RuleLog(log: seq<Command>, host: RuleHost) {
    forall c | c in log :: OnRule(c) && (c.AddRule? ==> c.host == host)
  }

  lemma RuleLogAppend(a: seq<Command>, b: seq<Command>, host: RuleHost)
    requires RuleLog(a, host) && RuleLog(b, host)
    ensures RuleLog(a + b, host)
  {
  }

  /* ---------- the attachments of a method (lines 122-143) ---------- */

  /** One model call per Model annotation, position by position. */
  lemma {:induction false} ModelCommandsBindEach(models: seq<Annotation>)
    requires forall i | 0 <= i < |models| :: models[i].Model?
    ensures |ModelCommands(models)| == |models|
    ensures forall j | 0 <= j < |models| ::
      ModelCommands(models)[j] == RuleModel(models[j].bindVar, models[j].model, models[j].exception)
  {
    if models != [] {
      var n := |models| - 1;
      ModelCommandsBindEach(models[..n]);
    }
  }

  lemma {:induction false} ModelCommandsAreModels(models: seq<Annotation>)
    ensures forall i | 0 <= i < |ModelCommands(models)| :: ModelCommands(models)[i].RuleModel?
  {
    if models != [] {
      ModelCommandsAreModels(models[..|models| - 1]);
    }
  }

  lemma SelectMiddleware(anns: seq<Annotation>, call: Call)
    ensures Select(MiddlewareCommands(anns), call) == if call == RuleMiddlewareCall then MiddlewareCommands(anns) else []
  {
    var p := MiddlewareCommands(anns);
    assert forall i | 0 <= i < |p| :: p[i].RuleMiddleware?;
    SelectUniform(p, RuleMiddlewareCall, call);
  }

  lemma SelectAlias(anns: seq<Annotation>, call: Call)
    ensures Select(AliasCommands(anns), call) == if call == RuleGroupCall then AliasCommands(anns) else []
  {
    var p := AliasCommands(anns);
    assert forall i | 0 <= i < |p| :: p[i].RuleGroup?;
    SelectUniform(p, RuleGroupCall, call);
  }

  lemma SelectValidate(anns: seq<Annotation>, call: Call)
    ensures Select(ValidateCommands(anns), call) == if call == ValidateCall then ValidateCommands(anns) else []
  {
    var p := ValidateCommands(anns);
    assert forall i | 0 <= i < |p| :: p[i].RuleValidate?;
    SelectUniform(p, ValidateCall, call);
  }

  lemma SelectModels(models: seq<Annotation>, call: Call)
    ensures Select(ModelCommands(models), call) == if call == ModelCall then ModelCommands(models) else []
  {
    ModelCommandsAreModels(models);
    SelectUniform(ModelCommands(models), ModelCall, call);
  }

  /** Selecting from a log made of four pieces is selecting from each piece. */
  lemma SelectFour(p1: seq<Command>, p2: seq<Command>, p3: seq<Command>, p4: seq<Command>,
                   q1: seq<Command>, q2: seq<Command>, q3: seq<Command>, q4: seq<Command>, call: Call)
    requires Select(p1, call) == q1 && Select(p2, call) == q2
    requires Select(p3, call) == q3 && Select(p4, call) == q4
    ensures Select(p1 + p2 + p3 + p4, call) == q1 + q2 + q3 + q4
  {
    SelectAppend(p1 + p2 + p3, p4, call);
    SelectAppend(p1 + p2, p3, call);
    SelectAppend(p1, p2, call);
  }

  /** The attachments of a method, one kind of call at a time. */
  lemma AttachmentSelect(anns: seq<Annotation>, call: Call)
    ensures Select(AttachmentCommands(anns), call) ==
      (if call == RuleMiddlewareCall then MiddlewareCommands(anns) else [])
      + (if call == RuleGroupCall then AliasCommands(anns) else [])
      + (if call == ModelCall then ModelCommands(FilterByKind(anns, ModelK)) else [])
      + (if call == ValidateCall then ValidateCommands(anns) else [])
  {
    var models := FilterByKind(anns, ModelK);
    SelectMiddleware(anns, call);
    SelectAlias(anns, call);
    SelectModels(models, call);
    SelectValidate(anns, call);
    SelectFour(MiddlewareCommands(anns), AliasCommands(anns), ModelCommands(models), ValidateCommands(anns),
      if call == RuleMiddlewareCall then MiddlewareCommands(anns) else [],
      if call == RuleGroupCall then AliasCommands(anns) else [],
      if call == ModelCall then ModelCommands(models) else [],
      if call == ValidateCall then ValidateCommands(anns) else [],
      call);
  }

  /** The attachments are calls on the rule handle. */
  lemma AttachmentsOnRule(anns: seq<Annotation>, host: RuleHost)
    ensures RuleLog(AttachmentCommands(anns), host)
  {
    ModelCommandsAreModels(FilterByKind(anns, ModelK));
  }

  /** None of the attachments adds, names or configures a rule. */
  lemma AttachmentsAfterHead(anns: seq<Annotation>, call: Call)
    requires call == AddRuleCall || call == NameCall || call == RuleOptionCall
    ensures Select(AttachmentCommands(anns), call) == []
  {
    AttachmentSelect(anns, call);
  }

  /** The model calls among the attachments are exactly the bindings of the
      filtered Model annotations. */
  lemma AttachmentModels(anns: seq<Annotation>)
    ensures Select(AttachmentCommands(anns), ModelCall) == ModelCommands(FilterByKind(anns, ModelK))
  {
    var models := ModelCommands(FilterByKind(anns, ModelK));
    AttachmentSelect(anns, ModelCall);
    assert [] + [] + models + [] == models;
  }

  /** The single lookups: the first annotation of the kind, or nothing. */
  lemma FirstMiddleware(anns: seq<Annotation>)
    ensures (forall p | 0 <= p < |anns| :: !anns[p].Middleware?) ==> MiddlewareCommands(anns) == []
    ensures forall p | 0 <= p < |anns| && anns[p].Middleware? && (forall q | 0 <= q < p :: !anns[q].Middleware?) ::
      MiddlewareCommands(anns) == [RuleMiddleware(anns[p].middleware)]
  {
    FirstOfKindFound(anns, MiddlewareK);
    forall p | 0 <= p < |anns| && anns[p].Middleware? && (forall q | 0 <= q < p :: !anns[q].Middleware?) {
      FirstOfKindAt(anns, MiddlewareK, p);
    }
  }

  lemma FirstAlias(anns: seq<Annotation>)
    ensures (forall p | 0 <= p < |anns| :: !anns[p].Group?) ==> AliasCommands(anns) == []
    ensures forall p | 0 <= p < |anns| && anns[p].Group? && (forall q | 0 <= q < p :: !anns[q].Group?) ::
      AliasCommands(anns) == [RuleGroup(anns[p].alias)]
  {
    FirstOfKindFound(anns, GroupK);
    forall p | 0 <= p < |anns| && anns[p].Group? && (forall q | 0 <= q < p :: !anns[q].Group?) {
      FirstOfKindAt(anns, GroupK, p);
    }
  }

  lemma FirstValidate(anns: seq<Annotation>)
    ensures (forall p | 0 <= p < |anns| :: !anns[p].Validate?) ==> ValidateCommands(anns) == []
    ensures forall p | 0 <= p < |anns| && anns[p].Validate? && (forall q | 0 <= q < p :: !anns[q].Validate?) ::
      ValidateCommands(anns) == [RuleValidate(anns[p].validator, anns[p].scene, anns[p].message, anns[p].batch)]
  {
    FirstOfKindFound(anns, ValidateK);
    forall p | 0 <= p < |anns| && anns[p].Validate? && (forall q | 0 <= q < p :: !anns[q].Validate?) {
      FirstOfKindAt(anns, ValidateK, p);
    }
  }

  /** A method with a Middleware annotation attaches the first one's value to each
      rule; one without attaches none. */
  lemma AttachedMiddleware(anns: seq<Annotation>)
    ensures (forall p | 0 <= p < |anns| :: !anns[p].Middleware?) ==>
      Select(AttachmentCommands(anns), RuleMiddlewareCall) == []
    ensures forall p | 0 <= p < |anns| && anns[p].Middleware? && (forall q | 0 <= q < p :: !anns[q].Middleware?) ::
      Select(AttachmentCommands(anns), RuleMiddlewareCall) == [RuleMiddleware(anns[p].middleware)]
  {
    AttachmentSelect(anns, RuleMiddlewareCall);
    FirstMiddleware(anns);
  }

  /** Likewise the first Group annotation sets the rule's group alias. */
  lemma AttachedAlias(anns: seq<Annotation>)
    ensures (forall p | 0 <= p < |anns| :: !anns[p].Group?) ==>
      Select(AttachmentCommands(anns), RuleGroupCall) == []
    ensures forall p | 0 <= p < |anns| && anns[p].Group? && (forall q | 0 <= q < p :: !anns[q].Group?) ::
      Select(AttachmentCommands(anns), RuleGroupCall) == [RuleGroup(anns[p].alias)]
  {
    AttachmentSelect(anns, RuleGroupCall);
    FirstAlias(anns);
  }

  /** Likewise the first Validate annotation, with all four of its fields. */
  lemma AttachedValidate(anns: seq<Annotation>)
    ensures (forall p | 0 <= p < |anns| :: !anns[p].Validate?) ==>
      Select(AttachmentCommands(anns), ValidateCall) == []
    ensures forall p | 0 <= p < |anns| && anns[p].Validate? && (forall q | 0 <= q < p :: !anns[q].Validate?) ::
      Select(AttachmentCommands(anns), ValidateCall)
        == [RuleValidate(anns[p].validator, anns[p].scene, anns[p].message, anns[p].batch)]
  {
    AttachmentSelect(anns, ValidateCall);
    FirstValidate(anns);
  }

  /** Every Model annotation becomes one binding, in annotation order: the j-th
      model call binds the j-th Model annotation of the method. */
  lemma AttachedModels(anns: seq<Annotation>)
    ensures var bindings := Select(AttachmentCommands(anns), ModelCall);
      var at := KindIndices(anns, ModelK);
      && |bindings| == |at|
      && forall j | 0 <= j < |at| ::
           bindings[j] == RuleModel(anns[at[j]].bindVar, anns[at[j]].model, anns[at[j]].exception)
  {
    AttachmentModels(anns);
    ModelsInOrder(anns);
  }

  /** The bindings built from the filtered Model annotations, one per annotation. */
  lemma ModelsInOrder(anns: seq<Annotation>)
    ensures var bindings := ModelCommands(FilterByKind(anns, ModelK));
      var at := KindIndices(anns, ModelK);
      && |bindings| == |at|
      && forall j | 0 <= j < |at| ::
           bindings[j] == RuleModel(anns[at[j]].bindVar, anns[at[j]].model, anns[at[j]].exception)
  {
    var models := FilterByKind(anns, ModelK);
    FilterByKindKinds(anns, ModelK);
    FilterByKindIsOrdered(anns, ModelK);
    ModelCommandsBindEach(models);
  }

  /* ---------- one rule (lines 113-121) ---------- */

  /** A rule's calls, one kind at a time: its addRule, its name when truthy, its
      options, and whatever the attachments hold of that kind. */
  lemma RuleSelect(cls: ClassName, host: RuleHost, name: string, r: Rule, attachments: seq<Command>, call: Call)
    ensures Select(RuleCommands(cls, host, name, r, attachments), call) ==
      (if call == AddRuleCall then [AddRule(host, r.value, Target(cls, name), r.verb)] else [])
      + (if call == NameCall && NameIsTruthy(r.name) then [RuleName(r.name.value)] else [])
      + (if call == RuleOptionCall then [RuleOption(r.options)] else [])
      + Select(attachments, call)
  {
    var named := if NameIsTruthy(r.name) then [RuleName(r.name.value)] else [];
    HeadSelect(AddRule(host, r.value, Target(cls, name), r.verb), named, RuleOption(r.options), attachments, call);
  }

  /** Selecting from an addRule, its name calls, its option call and the
      attachments, in that order. */
  lemma HeadSelect(add: Command, named: seq<Command>, opt: Command, attachments: seq<Command>, call: Call)
    requires CallOf(add) == AddRuleCall && CallOf(opt) == RuleOptionCall
    requires forall i | 0 <= i < |named| :: CallOf(named[i]) == NameCall
    ensures Select([add] + named + [opt] + attachments, call) ==
      (if call == AddRuleCall then [add] else [])
      + (if call == NameCall then named else [])
      + (if call == RuleOptionCall then [opt] else [])
      + Select(attachments, call)
  {
    SelectUniform([add], AddRuleCall, call);
    SelectUniform(named, NameCall, call);
    SelectUniform([opt], RuleOptionCall, call);
    SelectFour([add], named, [opt], attachments,
      if call == AddRuleCall then [add] else [],
      if call == NameCall then named else [],
      if call == RuleOptionCall then [opt] else [],
      Select(attachments, call), call);
  }

  /** A rule's log holds one addRule, its own, when the attachments hold none. */
  lemma RuleSelectAdd(cls: ClassName, host: RuleHost, name: string, r: Rule, attachments: seq<Command>)
    requires Select(attachments, AddRuleCall) == []
    ensures Select(RuleCommands(cls, host, name, r, attachments), AddRuleCall)
      == [AddRule(host, r.value, Target(cls, name), r.verb)]
  {
    RuleSelect(cls, host, name, r, attachments, AddRuleCall);
    assert [AddRule(host, r.value, Target(cls, name), r.verb)] + [] + [] + []
      == [AddRule(host, r.value, Target(cls, name), r.verb)];
  }

  /** A rule's log holds one option call, its own, when the attachments hold none. */
  lemma RuleSelectOption(cls: ClassName, host: RuleHost, name: string, r: Rule, attachments: seq<Command>)
    requires Select(attachments, RuleOptionCall) == []
    ensures Select(RuleCommands(cls, host, name, r, attachments), RuleOptionCall) == [RuleOption(r.options)]
  {
    RuleSelect(cls, host, name, r, attachments, RuleOptionCall);
    assert [] + [] + [RuleOption(r.options)] + [] == [RuleOption(r.options)];
  }

  /** A rule's log starts with its addRule, made on the class's group, and every
      later call is made on the rule handle. */
  lemma RuleOnRule(cls: ClassName, host: RuleHost, name: string, r: Rule, anns: seq<Annotation>)
    ensures RuleCommands(cls, host, name, r, AttachmentCommands(anns))[0] == AddRule(host, r.value, Target(cls, name), r.verb)
    ensures RuleLog(RuleCommands(cls, host, name, r, AttachmentCommands(anns)), host)
  {
    var head := [AddRule(host, r.value, Target(cls, name), r.verb)]
      + (if NameIsTruthy(r.name) then [RuleName(r.name.value)] else []) + [RuleOption(r.options)];
    AttachmentsOnRule(anns, host);
    assert RuleLog(head, host);
    RuleLogAppend(head, AttachmentCommands(anns), host);
  }

  /* ---------- one method (lines 99-112) ---------- */

  /** The selected calls of each rule of a list, one rule after the other. */
  function EachRule(cls: ClassName, host: RuleHost, name: string, rules: seq<Rule>, attachments: seq<Command>, call: Call): seq<Command> {
    if rules == [] then []
    else
      var n := |rules| - 1;
      EachRule(cls, host, name, rules[..n], attachments, call) + Select(RuleCommands(cls, host, name, rules[n], attachments), call)
  }

  lemma {:induction false} PresentRulesBounds(routes: seq<Option<Rule>>)
    ensures |PresentRules(routes)| <= |routes|
    ensures PresentRules(routes) == [] <==> forall i | 0 <= i < |routes| :: routes[i].None?
  {
    if routes != [] {
      var n := |routes| - 1;
      PresentRulesBounds(routes[..n]);
      assert forall i | 0 <= i < n :: routes[..n][i] == routes[i];
    }
  }

  /** Empty slots issue nothing: selecting from the log of a list of slots selects
      from each present rule in turn. */
  lemma {:induction false} RoutesSelect(cls: ClassName, host: RuleHost, name: string, routes: seq<Option<Rule>>,
                                        attachments: seq<Command>, call: Call)
    ensures Select(RoutesCommands(cls, host, name, routes, attachments), call)
      == EachRule(cls, host, name, PresentRules(routes), attachments, call)
  {
    if routes != [] {
      var n := |routes| - 1;
      var prefix := RoutesCommands(cls, host, name, routes[..n], attachments);
      var front := PresentRules(routes[..n]);
      RoutesSelect(cls, host, name, routes[..n], attachments, call);
      match routes[n]
      case None =>
        assert RoutesCommands(cls, host, name, routes, attachments) == prefix + [] == prefix;
        assert PresentRules(routes) == front + [] == front;
      case Some(r) =>
        var last := RuleCommands(cls, host, name, r, attachments);
        assert RoutesCommands(cls, host, name, routes, attachments) == prefix + last;
        SelectAppend(prefix, last, call);
        assert PresentRules(routes) == front + [r];
        assert (front + [r])[..|front|] == front;
        assert EachRule(cls, host, name, front + [r], attachments, call)
          == EachRule(cls, host, name, front, attachments, call) + Select(last, call);
    }
  }

  lemma {:induction false} RoutesEmpty(cls: ClassName, host: RuleHost, name: string, routes: seq<Option<Rule>>, attachments: seq<Command>)
    ensures RoutesCommands(cls, host, name, routes, attachments) == [] <==> PresentRules(routes) == []
  {
    if routes != [] {
      RoutesEmpty(cls, host, name, routes[..|routes| - 1], attachments);
    }
  }

  lemma {:induction false} RoutesOnRule(cls: ClassName, host: RuleHost, name: string, routes: seq<Option<Rule>>, anns: seq<Annotation>)
    ensures RuleLog(RoutesCommands(cls, host, name, routes, AttachmentCommands(anns)), host)
  {
    if routes != [] {
      var n := |routes| - 1;
      RoutesOnRule(cls, host, name, routes[..n], anns);
      if routes[n].Some? {
        RuleOnRule(cls, host, name, routes[n].value, anns);
      }
      RuleLogAppend(RoutesCommands(cls, host, name, routes[..n], AttachmentCommands(anns)),
        match routes[n] case Some(r) => RuleCommands(cls, host, name, r, AttachmentCommands(anns)) case None => [],
        host);
    }
  }

  /** Each rule issues exactly one addRule, with its own path and verb. */
  lemma {:induction false} EachRuleAdds(cls: ClassName, host: RuleHost, name: string, rules: seq<Rule>, attachments: seq<Command>)
    requires Select(attachments, AddRuleCall) == []
    ensures |EachRule(cls, host, name, rules, attachments, AddRuleCall)| == |rules|
    ensures forall j | 0 <= j < |rules| ::
      EachRule(cls, host, name, rules, attachments, AddRuleCall)[j] == AddRule(host, rules[j].value, Target(cls, name), rules[j].verb)
  {
    if rules != [] {
      var n := |rules| - 1;
      EachRuleAdds(cls, host, name, rules[..n], attachments);
      RuleSelectAdd(cls, host, name, rules[n], attachments);
      var front := EachRule(cls, host, name, rules[..n], attachments, AddRuleCall);
      var all := EachRule(cls, host, name, rules, attachments, AddRuleCall);
      assert all == front + [AddRule(host, rules[n].value, Target(cls, name), rules[n].verb)];
      forall j | 0 <= j < |rules|
        ensures all[j] == AddRule(host, rules[j].value, Target(cls, name), rules[j].verb)
      {
        if j < n {
          assert all[j] == front[j];
          assert rules[..n][j] == rules[j];
        }
      }
    }
  }

  /** Each rule gets exactly one option call, with its own options. */
  lemma {:induction false} EachRuleOptions(cls: ClassName, host: RuleHost, name: string, rules: seq<Rule>, attachments: seq<Command>)
    requires Select(attachments, RuleOptionCall) == []
    ensures |EachRule(cls, host, name, rules, attachments, RuleOptionCall)| == |rules|
    ensures forall j | 0 <= j < |rules| ::
      EachRule(cls, host, name, rules, attachments, RuleOptionCall)[j] == RuleOption(rules[j].options)
  {
    if rules != [] {
      var n := |rules| - 1;
      EachRuleOptions(cls, host, name, rules[..n], attachments);
      RuleSelectOption(cls, host, name, rules[n], attachments);
      var front := EachRule(cls, host, name, rules[..n], attachments, RuleOptionCall);
      var all := EachRule(cls, host, name, rules, attachments, RuleOptionCall);
      assert all == front + [RuleOption(rules[n].options)];
      forall j | 0 <= j < |rules|
        ensures all[j] == RuleOption(rules[j].options)
      {
        if j < n {
          assert all[j] == front[j];
          assert rules[..n][j] == rules[j];
        }
      }
    }
  }

  /** Every rule gets the same attachments of any other kind. */
  lemma {:induction false} EachRuleAttachments(cls: ClassName, host: RuleHost, name: string, rules: seq<Rule>,
                                               attachments: seq<Command>, call: Call)
    requires call != AddRuleCall && call != NameCall && call != RuleOptionCall
    ensures EachRule(cls, host, name, rules, attachments, call) == Repeat(Select(attachments, call), |rules|)
  {
    if rules != [] {
      var n := |rules| - 1;
      EachRuleAttachments(cls, host, name, rules[..n], attachments, call);
      RuleSelectAttached(cls, host, name, rules[n], attachments, call);
      var x := Select(attachments, call);
      assert EachRule(cls, host, name, rules, attachments, call)
        == EachRule(cls, host, name, rules[..n], attachments, call) + Select(RuleCommands(cls, host, name, rules[n], attachments), call);
      assert Repeat(x, n + 1) == Repeat(x, n) + x;
    }
  }

  /** A kind of call other than addRule, name and option comes from the attachments only. */
  lemma RuleSelectAttached(cls: ClassName, host: RuleHost, name: string, r: Rule, attachments: seq<Command>, call: Call)
    requires call != AddRuleCall && call != NameCall && call != RuleOptionCall
    ensures Select(RuleCommands(cls, host, name, r, attachments), call) == Select(attachments, call)
  {
    RuleSelect(cls, host, name, r, attachments, call);
    assert [] + [] + [] + Select(attachments, call) == Select(attachments, call);
  }

  /** The six slots: slot i holds a rule exactly when the method carries an
      annotation of the i-th kind, and then it is the first such annotation's rule. */
  lemma LookupSlots(anns: seq<Annotation>)
    ensures |Lookups(anns)| == |RULE_KIND_ORDER|
    ensures forall i | 0 <= i < |RULE_KIND_ORDER| ::
      Lookups(anns)[i].None? <==> forall p | 0 <= p < |anns| :: KindOf(anns[p]) != RuleK(RULE_KIND_ORDER[i])
    ensures forall i | 0 <= i < |RULE_KIND_ORDER| && Lookups(anns)[i].Some? ::
      exists p | 0 <= p < |anns| ::
        anns[p] == Mapping(RULE_KIND_ORDER[i], Lookups(anns)[i].value)
        && forall q | 0 <= q < p :: KindOf(anns[q]) != RuleK(RULE_KIND_ORDER[i])
  {
    forall i | 0 <= i < |RULE_KIND_ORDER| {
      FirstOfKindFound(anns, RuleK(RULE_KIND_ORDER[i]));
    }
    forall i | 0 <= i < |RULE_KIND_ORDER| && Lookups(anns)[i].Some?
      ensures exists p | 0 <= p < |anns| ::
        anns[p] == Mapping(RULE_KIND_ORDER[i], Lookups(anns)[i].value)
        && forall q | 0 <= q < p :: KindOf(anns[q]) != RuleK(RULE_KIND_ORDER[i])
    {
      FirstOfKindIsFirst(anns, RuleK(RULE_KIND_ORDER[i]));
    }
  }

  /** What a list of slots issues: one addRule per filled slot, in slot order, each
      with its own options, and the attachments of any other kind after each rule. */
  lemma RoutesRules(cls: ClassName, host: RuleHost, name: string, routes: seq<Option<Rule>>, attachments: seq<Command>)
    requires Select(attachments, AddRuleCall) == [] && Select(attachments, RuleOptionCall) == []
    ensures var rules := PresentRules(routes);
      var log := RoutesCommands(cls, host, name, routes, attachments);
      && |Select(log, AddRuleCall)| == |rules|
      && (forall j | 0 <= j < |rules| ::
           Select(log, AddRuleCall)[j] == AddRule(host, rules[j].value, Target(cls, name), rules[j].verb))
      && |Select(log, RuleOptionCall)| == |rules|
      && (forall j | 0 <= j < |rules| :: Select(log, RuleOptionCall)[j] == RuleOption(rules[j].options))
      && Select(log, ModelCall) == Repeat(Select(attachments, ModelCall), |rules|)
  {
    var rules := PresentRules(routes);
    RoutesSelect(cls, host, name, routes, attachments, AddRuleCall);
    RoutesSelect(cls, host, name, routes, attachments, RuleOptionCall);
    RoutesSelect(cls, host, name, routes, attachments, ModelCall);
    EachRuleAdds(cls, host, name, rules, attachments);
    EachRuleOptions(cls, host, name, rules, attachments);
    EachRuleAttachments(cls, host, name, rules, attachments, ModelCall);
  }

  /** What one public method issues: one addRule per filled slot, in slot order,
      each with its own options, and the method's model bindings after each rule. */
  lemma MethodRules(cls: ClassName, host: RuleHost, m: MethodDecl)
    ensures var rules := PresentRules(Lookups(m.annotations));
      var log := MethodCommands(cls, host, m);
      && |Select(log, AddRuleCall)| == |rules|
      && (forall j | 0 <= j < |rules| ::
           Select(log, AddRuleCall)[j] == AddRule(host, rules[j].value, Target(cls, m.name), rules[j].verb))
      && |Select(log, RuleOptionCall)| == |rules|
      && (forall j | 0 <= j < |rules| :: Select(log, RuleOptionCall)[j] == RuleOption(rules[j].options))
      && Select(log, ModelCall) == Repeat(ModelCommands(FilterByKind(m.annotations, ModelK)), |rules|)
  {
    AttachmentsAfterHead(m.annotations, AddRuleCall);
    AttachmentsAfterHead(m.annotations, RuleOptionCall);
    AttachmentModels(m.annotations);
    RoutesRules(cls, host, m.name, Lookups(m.annotations), AttachmentCommands(m.annotations));
  }

  /** Every slot is empty exactly when the method carries no rule annotation. */
  lemma NoRuleAnnotation(anns: seq<Annotation>)
    ensures (forall i | 0 <= i < |Lookups(anns)| :: Lookups(anns)[i].None?)
      <==> forall p | 0 <= p < |anns| :: !anns[p].Mapping?
  {
    var routes := Lookups(anns);
    LookupSlots(anns);
    if forall p | 0 <= p < |anns| :: !anns[p].Mapping? {
      forall i | 0 <= i < |routes| ensures routes[i].None? {
        assert forall p | 0 <= p < |anns| :: KindOf(anns[p]) != RuleK(RULE_KIND_ORDER[i]);
      }
    } else {
      var p :| 0 <= p < |anns| && anns[p].Mapping?;
      var i := match anns[p].kind
        case Route => 0 case RequestMapping => 1 case GetMapping => 2
        case PostMapping => 3 case DeleteMapping => 4 case PutMapping => 5;
      assert KindOf(anns[p]) == RuleK(RULE_KIND_ORDER[i]);
      assert routes[i].Some?;
    }
  }

  /** A method issues nothing exactly when it carries no rule annotation. */
  lemma MethodSilent(cls: ClassName, host: RuleHost, m: MethodDecl)
    ensures MethodCommands(cls, host, m) == [] <==> forall p | 0 <= p < |m.annotations| :: !m.annotations[p].Mapping?
  {
    RoutesEmpty(cls, host, m.name, Lookups(m.annotations), AttachmentCommands(m.annotations));
    PresentRulesBounds(Lookups(m.annotations));
    NoRuleAnnotation(m.annotations);
  }

  /** All the rules of a class's public methods go to the class's group, and the
      method loop makes no call other than on rule handles. */
  lemma {:induction false} MethodsOnRule(cls: ClassName, host: RuleHost, ms: seq<MethodDecl>)
    ensures RuleLog(MethodsCommands(cls, host, ms), host)
  {
    if ms != [] {
      var n := |ms| - 1;
      MethodsOnRule(cls, host, ms[..n]);
      RoutesOnRule(cls, host, ms[n].name, Lookups(ms[n].annotations), ms[n].annotations);
      RuleLogAppend(MethodsCommands(cls, host, ms[..n]), MethodCommands(cls, host, ms[n]), host);
    }
  }

  /** The filter keeps nothing when no annotation has the kind. */
  lemma {:induction false} FilterNothing(anns: seq<Annotation>, k: Kind)
    requires forall i | 0 <= i < |anns| :: KindOf(anns[i]) != k
    ensures FilterByKind(anns, k) == []
  {
    if anns != [] {
      FilterNothing(anns[..|anns| - 1], k);
    }
  }

  /** A method carrying only rule annotations attaches nothing to its rules. */
  lemma OnlyMappings(anns: seq<Annotation>)
    requires forall i | 0 <= i < |anns| :: anns[i].Mapping?
    ensures AttachmentCommands(anns) == []
  {
    FirstOfKindFound(anns, MiddlewareK);
    FirstOfKindFound(anns, GroupK);
    FirstOfKindFound(anns, ValidateK);
    FilterNothing(anns, ModelK);
  }

  /** The rule slots of a concatenation issue the slots' logs one after the other. */
  lemma RoutesAppend(cls: ClassName, host: RuleHost, name: string, a: seq<Option<Rule>>, b: seq<Option<Rule>>, att: seq<Command>)
    ensures RoutesCommands(cls, host, name, a + b, att)
      == RoutesCommands(cls, host, name, a, att) + RoutesCommands(cls, host, name, b, att)
  {
    ConcatMapAppend(a, b, slot => SlotCommands(cls, host, name, slot, att));
  }

  /** Six slots with one rule in slot i issue that rule's log alone. */
  lemma OneSlot(cls: ClassName, host: RuleHost, name: string, routes: seq<Option<Rule>>, i: nat, r: Rule)
    requires |routes| == 6 && i < 6 && routes[i] == Some(r)
    requires forall j | 0 <= j < 6 && j != i :: routes[j].None?
    ensures RoutesCommands(cls, host, name, routes, []) == RuleCommands(cls, host, name, r, [])
  {
    var before, after := routes[..i], routes[i + 1..];
    assert routes == before + [Some(r)] + after;
    RoutesAppend(cls, host, name, before + [Some(r)], after, []);
    RoutesAppend(cls, host, name, before, [Some(r)], []);
    RoutesEmpty(cls, host, name, before, []);
    RoutesEmpty(cls, host, name, after, []);
    NoneSlots(before);
    NoneSlots(after);
    ConcatMapSingle(Some(r), slot => SlotCommands(cls, host, name, slot, []));
  }

  /** Slots that are all empty hold no rules. */
  lemma {:induction false} NoneSlots(routes: seq<Option<Rule>>)
    requires forall j | 0 <= j < |routes| :: routes[j].None?
    ensures PresentRules(routes) == []
  {
    if routes != [] {
      NoneSlots(routes[..|routes| - 1]);
    }
  }
}
