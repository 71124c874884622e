/**
 What the class-level part of scanDir issues: which group, if any, a class's rules
 go to, where the resource registration happens, and which group option and
 middleware calls are made.
 */
module ClassProperties {
  import opened Wrappers
  import opened Annotations
  import opened Routing
  import opened Translation
  import opened RuleProperties

  /** The first Controller annotation's value is the group path. */
  lemma GroupPathFromController(c: ClassDecl)
    ensures forall p | 0 <= p < |c.annotations| && c.annotations[p].Controller?
        && (forall q | 0 <= q < p :: !c.annotations[q].Controller?) ::
      GroupPathOf(c) == Some(c.annotations[p].path)
  {
    var anns := c.annotations;
    forall p | 0 <= p < |anns| && anns[p].Controller? && (forall q | 0 <= q < p :: !anns[q].Controller?) {
      FirstOfKindAt(anns, ControllerK, p);
    }
  }

  /** Without a Controller annotation, a Middleware annotation opens a group with
      the empty path, and with neither there is no group. */
  lemma GroupPathWithoutController(c: ClassDecl)
    requires forall p | 0 <= p < |c.annotations| :: !c.annotations[p].Controller?
    ensures GroupPathOf(c) ==
      if exists p | 0 <= p < |c.annotations| :: c.annotations[p].Middleware? then Some("") else None
  {
    FirstOfKindFound(c.annotations, ControllerK);
    FirstOfKindFound(c.annotations, MiddlewareK);
  }

  /** The resource callback exists exactly when the class has a Resource annotation. */
  lemma ResourceCallbackExists(c: ClassDecl)
    ensures ResourceCallbackOf(c).None? <==> forall p | 0 <= p < |c.annotations| :: !c.annotations[p].Resource?
  {
    FirstOfKindFound(c.annotations, ResourceK);
  }

  /** It registers the first Resource annotation's path for the class itself. */
  lemma ResourceCallbackIsFirst(c: ClassDecl)
    ensures forall p | 0 <= p < |c.annotations| && c.annotations[p].Resource?
        && (forall q | 0 <= q < p :: !c.annotations[q].Resource?) ::
      ResourceCallbackOf(c) == Some(ResourceCallback(c.annotations[p].base, c.name, c.annotations[p].resourceOptions))
  {
    var anns := c.annotations;
    forall p | 0 <= p < |anns| && anns[p].Resource? && (forall q | 0 <= q < p :: !anns[q].Resource?) {
      FirstOfKindAt(anns, ResourceK, p);
    }
  }

  /** The group middleware is the first Middleware annotation's value... */
  lemma MiddlewareOfIsFirst(anns: seq<Annotation>)
    ensures forall p | 0 <= p < |anns| && anns[p].Middleware? && (forall q | 0 <= q < p :: !anns[q].Middleware?) ::
      MiddlewareOf(anns) == anns[p].middleware
  {
    forall p | 0 <= p < |anns| && anns[p].Middleware? && (forall q | 0 <= q < p :: !anns[q].Middleware?) {
      FirstOfKindAt(anns, MiddlewareK, p);
    }
  }

  /** ...and empty when there is none (a group opened by a Controller alone). */
  lemma MiddlewareOfNone(anns: seq<Annotation>)
    requires forall p | 0 <= p < |anns| :: !anns[p].Middleware?
    ensures MiddlewareOf(anns) == []
  {
    FirstOfKindFound(anns, MiddlewareK);
  }

  /** The group option call carries the first Controller annotation's options... */
  lemma GroupOptionIsFirst(anns: seq<Annotation>)
    ensures forall p | 0 <= p < |anns| && anns[p].Controller? && (forall q | 0 <= q < p :: !anns[q].Controller?) ::
      GroupOptionCommands(anns) == [GroupOption(anns[p].controllerOptions)]
  {
    forall p | 0 <= p < |anns| && anns[p].Controller? && (forall q | 0 <= q < p :: !anns[q].Controller?) {
      FirstOfKindAt(anns, ControllerK, p);
    }
  }

  /** ...and is not made without one. */
  lemma GroupOptionNone(anns: seq<Annotation>)
    requires forall p | 0 <= p < |anns| :: !anns[p].Controller?
    ensures GroupOptionCommands(anns) == []
  {
    FirstOfKindFound(anns, ControllerK);
  }

  lemma SelectGroupOption(anns: seq<Annotation>, call: Call)
    ensures Select(GroupOptionCommands(anns), call) == if call == GroupOptionCall then GroupOptionCommands(anns) else []
  {
    var p := GroupOptionCommands(anns);
    assert forall i | 0 <= i < |p| :: p[i].GroupOption?;
    SelectUniform(p, GroupOptionCall, call);
  }

  /** The header of a grouped class, one kind of call at a time: the group is
      created first, carrying the resource callback, then the options, then the
      middleware. */
  lemma GroupedHeaderSelect(c: ClassDecl, call: Call)
    requires GroupPathOf(c).Some?
    ensures ClassHeader(c)[0] == CreateGroup(GroupPathOf(c).value, ResourceCallbackOf(c))
    ensures Select(ClassHeader(c), call) ==
      (if call == GroupCall then [CreateGroup(GroupPathOf(c).value, ResourceCallbackOf(c))] else [])
      + (if call == GroupOptionCall then GroupOptionCommands(c.annotations) else [])
      + (if call == GroupMiddlewareCall then [GroupMiddleware(MiddlewareOf(c.annotations))] else [])
  {
    var p1 := [CreateGroup(GroupPathOf(c).value, ResourceCallbackOf(c))];
    var p2 := GroupOptionCommands(c.annotations);
    var p3 := [GroupMiddleware(MiddlewareOf(c.annotations))];
    assert ClassHeader(c) == p1 + p2 + p3;
    SelectUniform(p1, GroupCall, call);
    SelectGroupOption(c.annotations, call);
    SelectUniform(p3, GroupMiddlewareCall, call);
    SelectAppend(p1 + p2, p3, call);
    SelectAppend(p1, p2, call);
  }

  /** The header of an ungrouped class: the resource callback run at once, or nothing. */
  lemma UngroupedHeaderSelect(c: ClassDecl, call: Call)
    requires GroupPathOf(c).None?
    ensures Select(ClassHeader(c), call) ==
      if ResourceCallbackOf(c).None? then []
      else
        (if call == ResourceCall then [CreateResource(ResourceCallbackOf(c).value.base, c.name)] else [])
        + (if call == ResourceOptionCall then [ResourceOption(ResourceCallbackOf(c).value.options)] else [])
  {
    match ResourceCallbackOf(c)
    case Some(cb) =>
      assert cb.cls == c.name;
      var p1, p2 := [CreateResource(cb.base, cb.cls)], [ResourceOption(cb.options)];
      assert ClassHeader(c) == p1 + p2;
      SelectAppend(p1, p2, call);
      SelectUniform(p1, ResourceCall, call);
      SelectUniform(p2, ResourceOptionCall, call);
    case None =>
  }

  /** Where the resource is registered: a grouped class hands the callback to the
      group and registers nothing itself; an ungrouped one runs the callback at
      once, before its rules, and creates no group. */
  lemma ResourceCallbackPlacement(c: ClassDecl)
    ensures GroupPathOf(c).Some? ==>
      && Select(ClassHeader(c), GroupCall) == [CreateGroup(GroupPathOf(c).value, ResourceCallbackOf(c))]
      && Select(ClassHeader(c), ResourceCall) == []
    ensures GroupPathOf(c).None? ==>
      && Select(ClassHeader(c), GroupCall) == []
      && Select(ClassHeader(c), ResourceCall)
         == (if ResourceCallbackOf(c).Some? then [CreateResource(ResourceCallbackOf(c).value.base, c.name)] else [])
  {
    if GroupPathOf(c).Some? {
      var group := [CreateGroup(GroupPathOf(c).value, ResourceCallbackOf(c))];
      GroupedHeaderSelect(c, GroupCall);
      assert group + [] + [] == group;
      GroupedHeaderSelect(c, ResourceCall);
    } else {
      UngroupedHeaderSelect(c, GroupCall);
      UngroupedHeaderSelect(c, ResourceCall);
      if ResourceCallbackOf(c).Some? {
        var res := [CreateResource(ResourceCallbackOf(c).value.base, c.name)];
        assert res + [] == res;
      }
    }
  }

  /** A grouped class sets its group's options (only when it has a Controller
      annotation) and always sets its middleware, possibly none; an ungrouped class
      makes neither call. */
  lemma GroupOptionAndMiddleware(c: ClassDecl)
    ensures GroupPathOf(c).Some? ==>
      && Select(ClassHeader(c), GroupOptionCall) == GroupOptionCommands(c.annotations)
      && Select(ClassHeader(c), GroupMiddlewareCall) == [GroupMiddleware(MiddlewareOf(c.annotations))]
    ensures GroupPathOf(c).None? ==>
      Select(ClassHeader(c), GroupOptionCall) == [] && Select(ClassHeader(c), GroupMiddlewareCall) == []
  {
    if GroupPathOf(c).Some? {
      var opts, mw := GroupOptionCommands(c.annotations), [GroupMiddleware(MiddlewareOf(c.annotations))];
      GroupedHeaderSelect(c, GroupOptionCall);
      assert [] + opts + [] == opts;
      GroupedHeaderSelect(c, GroupMiddlewareCall);
      assert [] + [] + mw == mw;
    } else {
      UngroupedHeaderSelect(c, GroupOptionCall);
      UngroupedHeaderSelect(c, GroupMiddlewareCall);
    }
  }

  /** Every rule of the class goes to the group created for it, or to the router's
      current group when none was created; after the header, only rule handles are
      called. */
  lemma RulesGoToClassGroup(c: ClassDecl)
    ensures ClassCommands(c)[..|ClassHeader(c)|] == ClassHeader(c)
    ensures RuleLog(ClassCommands(c)[|ClassHeader(c)|..], HostOf(c))
    ensures forall cmd | cmd in ClassCommands(c) && cmd.AddRule? ::
      cmd.host == match GroupPathOf(c) case Some(path) => InGroup(path) case None => InCurrentGroup
  {
    var header, rules := ClassHeader(c), MethodsCommands(c.name, HostOf(c), c.methods);
    MethodsOnRule(c.name, HostOf(c), c.methods);
    assert ClassCommands(c) == header + rules;
    assert (header + rules)[|header|..] == rules;
    assert forall cmd | cmd in header :: !cmd.AddRule?;
  }
}
