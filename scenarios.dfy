/**
 Worked examples: small controller classes and configurations, and exactly the
 calls the scan makes for them.
 */
module Scenarios {
  import opened Wrappers
  import opened Annotations
  import opened Routing
  import opened PhpArrays
  import opened Translation
  import opened DirProperties
  import opened RuleProperties

  /** The lookup on one annotation. */
  lemma FirstOfOne(a: Annotation, k: Kind)
    ensures FirstOfKind([a], k) == if KindOf(a) == k then Some(a) else None
  {
    assert [a][1..] == [];
  }

  /** The lookup on two annotations. */
  lemma FirstOfTwo(a: Annotation, b: Annotation, k: Kind)
    ensures FirstOfKind([a, b], k) == if KindOf(a) == k then Some(a) else if KindOf(b) == k then Some(b) else None
  {
    assert [a, b][1..] == [b];
    FirstOfOne(b, k);
  }

  /** The lookups of a method with a single rule annotation: one slot filled. */
  lemma SingleMapping(k: RuleKind, r: Rule, i: nat)
    requires i < 6 && RULE_KIND_ORDER[i] == k
    ensures |Lookups([Mapping(k, r)])| == 6
    ensures Lookups([Mapping(k, r)])[i] == Some(r)
    ensures forall j | 0 <= j < 6 && j != i :: Lookups([Mapping(k, r)])[j].None?
  {
    forall j | 0 <= j < 6 ensures Lookups([Mapping(k, r)])[j] == if j == i then Some(r) else None {
      FirstOfOne(Mapping(k, r), RuleK(RULE_KIND_ORDER[j]));
    }
  }

  /** A class whose only annotation is Controller(path) opens the group at that
      path, sets its (empty) options and its (empty) middleware. */
  lemma ControllerOnly(name: ClassName, path: Path, ms: seq<MethodDecl>)
    ensures var c := ClassDecl(name, [Controller(path, map[])], ms);
      ClassHeader(c) == [CreateGroup(path, None), GroupOption(map[]), GroupMiddleware([])]
      && HostOf(c) == InGroup(path)
  {
    forall k ensures FirstOfKind([Controller(path, map[])], k) == if k == ControllerK then Some(Controller(path, map[])) else None {
      FirstOfOne(Controller(path, map[]), k);
    }
  }

  /** A grouped class: `Controller("foo")` on class Foo and a named GET rule on
      its method bar. The group is created and configured, then the rule is added
      to it and named. */
  lemma GroupedClassWithNamedRule()
    ensures
      var bar := MethodDecl("bar", [Mapping(GetMapping, Rule("bar/:id", Get, Some("foo.bar"), map[]))]);
      var foo := ClassDecl("Foo", [Controller("foo", map[])], [bar]);
      ClassCommands(foo) == [
        CreateGroup("foo", None), GroupOption(map[]), GroupMiddleware([]),
        AddRule(InGroup("foo"), "bar/:id", Target("Foo", "bar"), Get), RuleName("foo.bar"), RuleOption(map[])]
  {
    var rule := Rule("bar/:id", Get, Some("foo.bar"), map[]);
    var bar := MethodDecl("bar", [Mapping(GetMapping, rule)]);
    var foo := ClassDecl("Foo", [Controller("foo", map[])], [bar]);
    ControllerOnly("Foo", "foo", [bar]);
    SingleRule("Foo", InGroup("foo"), "bar", GetMapping, rule, 2);
    ConcatMapSingle(bar, m => MethodCommands("Foo", InGroup("foo"), m));
  }

  /** A method with a single rule annotation issues that rule's commands alone. */
  lemma SingleRule(cls: ClassName, host: RuleHost, name: string, k: RuleKind, r: Rule, i: nat)
    requires i < 6 && RULE_KIND_ORDER[i] == k
    ensures MethodCommands(cls, host, MethodDecl(name, [Mapping(k, r)])) == RuleCommands(cls, host, name, r, [])
  {
    SingleMapping(k, r, i);
    OnlyMappings([Mapping(k, r)]);
    OneSlot(cls, host, name, Lookups([Mapping(k, r)]), i, r);
  }

  /** A class with only a Resource annotation opens no group: the resource is
      registered at once, and the class's rules go to the current group. */
  lemma ResourceOnlyClass()
    ensures
      var baz := ClassDecl("Baz", [Resource("baz", map[])], []);
      ClassCommands(baz) == [CreateResource("baz", "Baz"), ResourceOption(map[])]
      && HostOf(baz) == InCurrentGroup
  {
  }

  /** A class with Resource and Middleware annotations hands the resource to a
      group with the empty path instead. */
  lemma ResourceInMiddlewareGroup()
    ensures
      var baz := ClassDecl("Baz", [Resource("baz", map[]), Middleware(["auth"])], []);
      ClassCommands(baz) == [CreateGroup("", Some(ResourceCallback("baz", "Baz", map[]))), GroupMiddleware(["auth"])]
  {
  }

  /** GET and PUT on the same method: two rules with the same target, in lookup order. */
  lemma TwoVerbsOneMethod()
    ensures
      var get := Rule("edit/:id", Get, None, map[]);
      var put := Rule("edit/:id", Put, None, map[]);
      var edit := MethodDecl("edit", [Mapping(PutMapping, put), Mapping(GetMapping, get)]);
      MethodCommands("Blog", InCurrentGroup, edit) == [
        AddRule(InCurrentGroup, "edit/:id", Target("Blog", "edit"), Get), RuleOption(map[]),
        AddRule(InCurrentGroup, "edit/:id", Target("Blog", "edit"), Put), RuleOption(map[])]
  {
    var get := Rule("edit/:id", Get, None, map[]);
    var put := Rule("edit/:id", Put, None, map[]);
    var anns := [Mapping(PutMapping, put), Mapping(GetMapping, get)];
    forall j | 0 <= j < 6 ensures Lookups(anns)[j] == if j == 2 then Some(get) else if j == 5 then Some(put) else None {
      FirstOfTwo(anns[0], anns[1], RuleK(RULE_KIND_ORDER[j]));
    }
    OnlyMappings(anns);
    assert Lookups(anns) == [None, None, Some(get)] + [None, None, Some(put)];
    RoutesAppend("Blog", InCurrentGroup, "edit", [None, None, Some(get)], [None, None, Some(put)], []);
    ThirdSlot("Blog", InCurrentGroup, "edit", get);
    ThirdSlot("Blog", InCurrentGroup, "edit", put);
  }

  /** Three slots with only the last one filled. */
  lemma ThirdSlot(cls: ClassName, host: RuleHost, name: string, r: Rule)
    ensures RoutesCommands(cls, host, name, [None, None, Some(r)], []) == RuleCommands(cls, host, name, r, [])
  {
    assert [None, None, Some(r)] == [None, None] + [Some(r)];
    RoutesAppend(cls, host, name, [None, None], [Some(r)], []);
    RoutesEmpty(cls, host, name, [None, None], []);
    NoneSlots([None, None]);
    ConcatMapSingle(Some(r), slot => SlotCommands(cls, host, name, slot, []));
  }

  /** Two GetMapping annotations on one method: only the first becomes a rule. */
  lemma RepeatedKindOneRule()
    ensures
      var first := Rule("a", Get, None, map[]);
      var second := Rule("b", Get, None, map[]);
      var m := MethodDecl("index", [Mapping(GetMapping, first), Mapping(GetMapping, second)]);
      MethodCommands("Blog", InCurrentGroup, m) == [AddRule(InCurrentGroup, "a", Target("Blog", "index"), Get), RuleOption(map[])]
  {
    var first := Rule("a", Get, None, map[]);
    var second := Rule("b", Get, None, map[]);
    var anns := [Mapping(GetMapping, first), Mapping(GetMapping, second)];
    forall j | 0 <= j < 6 ensures Lookups(anns)[j] == if j == 2 then Some(first) else None {
      FirstOfTwo(anns[0], anns[1], RuleK(RULE_KIND_ORDER[j]));
    }
    OnlyMappings(anns);
    OneSlot("Blog", InCurrentGroup, "index", Lookups(anns), 2, first);
  }

  /** A name of "0" is false in PHP, so the rule is not named. */
  lemma FalsyNameNotSet()
    ensures
      var r := Rule("x", Any, Some("0"), map[]);
      RuleCommands("Blog", InCurrentGroup, "x", r, []) == [AddRule(InCurrentGroup, "x", Target("Blog", "x"), Any), RuleOption(map[])]
  {
  }

  /** Configuring `['app/admin/', 'app/api/']` scans the application's controller
      directory and 'app/api/' only: 'app/admin/' sits under key 0. */
  lemma FirstConfiguredDirDropped()
    ensures
      var cfg := Config(None, "app/", "controller/", Some(List(["app/admin/", "app/api/"])));
      ScannedDirs(cfg) == [ControllerDir(cfg), "app/api/"]
  {
    var cfg := Config(None, "app/", "controller/", Some(List(["app/admin/", "app/api/"])));
    ScannedDirsOfList(cfg, ["app/admin/", "app/api/"]);
    assert ["app/admin/", "app/api/"][1..] == ["app/api/"];
  }

  /** A configured directory that does not exist contributes nothing. */
  lemma MissingConfiguredDir(cfg: Config, fs: FileSystem)
    requires cfg == Config(None, "app/", "controller/", Some(List(["app/admin/", "app/api/"])))
    requires ControllerDir(cfg) in fs.classMap && "app/api/" !in fs.classMap
    ensures LoadedCommands(cfg, fs) == ClassesCommands(fs.classMap[ControllerDir(cfg)])
  {
    FirstConfiguredDirDropped();
    var d := ControllerDir(cfg);
    MissingDirSkipped(fs, [d], "app/api/", []);
    DirScanned(fs, d);
    assert [d] + ["app/api/"] + [] == [d, "app/api/"];
    assert [d] + [] == [d];
  }
}
