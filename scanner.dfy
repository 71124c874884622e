/**
 The scanner itself, written the way the trait does its work: loops over directories,
 classes, public methods, the six rule lookups and the Model annotations, issuing
 calls on the shared router as it goes. Each method is proved to append exactly the
 log the Translation functions describe.
 */
module Scanner {
  import opened Wrappers
  import opened Annotations
  import opened Routing
  import opened Translation

  /** registerAnnotationRoute, followed by the one RouteLoaded event the host fires:
      when the feature is disabled no listener exists and nothing is issued. */
  method RegisterAnnotationRoute(router: Router, cfg: Config, fs: FileSystem) returns (listening: bool)
    modifies router
    ensures listening == RouteEnabled(cfg)
    ensures router.log == old(router.log) + (if listening then LoadedCommands(cfg, fs) else [])
  {
    listening := cfg.enable.None? || cfg.enable.value;
    if listening {
      OnRouteLoaded(router, cfg, fs);
    }
  }

  /** The listener body: scan every directory of `$dirs` that exists. */
  method OnRouteLoaded(router: Router, cfg: Config, fs: FileSystem)
    modifies router
    ensures router.log == old(router.log) + LoadedCommands(cfg, fs)
  {
    var dirs := ScannedDirs(cfg);
    ScanDirs(router, fs, dirs);
  }

  /** `foreach ($dirs as $dir)`: a directory that exists is scanned, one that does
      not is passed over. */
  method ScanDirs(router: Router, fs: FileSystem, dirs: seq<Path>)
    modifies router
    ensures router.log == old(router.log) + DirsCommands(fs, dirs)
  {
    var i := 0;
    while i < |dirs|
      invariant 0 <= i <= |dirs|
      invariant router.log == old(router.log) + DirsCommands(fs, dirs[..i])
    {
      ghost var before := router.log;
      if dirs[i] in fs.classMap {
        ScanDir(router, fs.classMap[dirs[i]]);
      }
      assert router.log == before + DirCommands(fs, dirs[i]);
      ConcatMapStep(dirs, i, dir => DirCommands(fs, dir));
      AppendAssoc(old(router.log), DirsCommands(fs, dirs[..i]), DirCommands(fs, dirs[i]));
      i := i + 1;
    }
    assert dirs[..|dirs|] == dirs;
  }

  /** scanDir over the classes the class map of one directory lists. */
  method ScanDir(router: Router, classes: seq<ClassDecl>)
    modifies router
    ensures router.log == old(router.log) + ClassesCommands(classes)
  {
    var i := 0;
    while i < |classes|
      invariant 0 <= i <= |classes|
      invariant router.log == old(router.log) + ClassesCommands(classes[..i])
    {
      ScanClass(router, classes[i]);
      ConcatMapStep(classes, i, ClassCommands);
      AppendAssoc(old(router.log), ClassesCommands(classes[..i]), ClassCommands(classes[i]));
      i := i + 1;
    }
    assert classes[..|classes|] == classes;
  }

  /** Running the resource callback: `resource(value, class)->option(options)`. */
  method RunCallback(router: Router, cb: ResourceCallback)
    modifies router
    ensures router.log == old(router.log) + CallbackCommands(cb)
  {
    router.Record(CreateResource(cb.base, cb.cls));
    router.Record(ResourceOption(cb.options));
  }

  /** The class-level part of scanDir's loop body: read the Resource, Middleware and
      Controller annotations, then either create the group or run the resource
      callback at once; the result is the group the rules go to. */
  method OpenClass(router: Router, c: ClassDecl) returns (host: RuleHost)
    modifies router
    ensures host == HostOf(c)
    ensures router.log == old(router.log) + ClassHeader(c)
  {
    var routeGroup: Option<Path> := None;
    var routeMiddleware: seq<string> := [];
    var callback: Option<ResourceCallback> := None;

    var resource := FirstOfKind(c.annotations, ResourceK);
    FirstOfKindHasKind(c.annotations, ResourceK);
    if resource.Some? {
      callback := Some(ResourceCallback(resource.value.base, c.name, resource.value.resourceOptions));
    }
    var middleware := FirstOfKind(c.annotations, MiddlewareK);
    FirstOfKindHasKind(c.annotations, MiddlewareK);
    if middleware.Some? {
      routeGroup := Some("");
      routeMiddleware := middleware.value.middleware;
    }
    var controller := FirstOfKind(c.annotations, ControllerK);
    FirstOfKindHasKind(c.annotations, ControllerK);
    if controller.Some? {
      routeGroup := Some(controller.value.path);
    }

    if routeGroup.Some? {
      router.Record(CreateGroup(routeGroup.value, callback));
      if controller.Some? {
        router.Record(GroupOption(controller.value.controllerOptions));
      }
      router.Record(GroupMiddleware(routeMiddleware));
      host := InGroup(routeGroup.value);
    } else {
      if callback.Some? {
        RunCallback(router, callback.value);
      }
      host := InCurrentGroup;
    }
  }

  /** The body of scanDir's loop for one class. */
  method ScanClass(router: Router, c: ClassDecl)
    modifies router
    ensures router.log == old(router.log) + ClassCommands(c)
  {
    var host := OpenClass(router, c);
    ghost var header := router.log;
    var i := 0;
    while i < |c.methods|
      invariant 0 <= i <= |c.methods|
      invariant router.log == header + MethodsCommands(c.name, host, c.methods[..i])
    {
      ScanMethod(router, c.name, host, c.methods[i]);
      ConcatMapStep(c.methods, i, m => MethodCommands(c.name, host, m));
      AppendAssoc(header, MethodsCommands(c.name, host, c.methods[..i]), MethodCommands(c.name, host, c.methods[i]));
      i := i + 1;
    }
    assert c.methods[..|c.methods|] == c.methods;
    AppendAssoc(old(router.log), ClassHeader(c), MethodsCommands(c.name, host, c.methods));
  }

  /** The six lookups of one public method and the rules they produce. */
  method ScanMethod(router: Router, cls: ClassName, host: RuleHost, m: MethodDecl)
    modifies router
    ensures router.log == old(router.log) + MethodCommands(cls, host, m)
  {
    var routes := Lookups(m.annotations);
    ScanRoutes(router, cls, host, m, routes);
  }

  /** `foreach ($routes as $route)`: each rule the lookups found is registered
      with the method's attachments; an empty slot is skipped. */
  method ScanRoutes(router: Router, cls: ClassName, host: RuleHost, m: MethodDecl, routes: seq<Option<Rule>>)
    modifies router
    ensures router.log == old(router.log) + RoutesCommands(cls, host, m.name, routes, AttachmentCommands(m.annotations))
  {
    ghost var attachments := AttachmentCommands(m.annotations);
    var j := 0;
    while j < |routes|
      invariant 0 <= j <= |routes|
      invariant router.log == old(router.log) + RoutesCommands(cls, host, m.name, routes[..j], attachments)
    {
      ghost var before := router.log;
      if routes[j].Some? {
        AddRoute(router, cls, host, m, routes[j].value);
      }
      assert router.log == before + SlotCommands(cls, host, m.name, routes[j], attachments);
      ConcatMapStep(routes, j, slot => SlotCommands(cls, host, m.name, slot, attachments));
      AppendAssoc(old(router.log), RoutesCommands(cls, host, m.name, routes[..j], attachments),
        SlotCommands(cls, host, m.name, routes[j], attachments));
      j := j + 1;
    }
    assert routes[..|routes|] == routes;
  }

  /** `foreach ($models as $model) $rule->model(...)`. */
  method BindModels(router: Router, models: seq<Annotation>)
    requires forall i | 0 <= i < |models| :: models[i].Model?
    modifies router
    ensures router.log == old(router.log) + ModelCommands(models)
  {
    var j := 0;
    while j < |models|
      invariant 0 <= j <= |models|
      invariant router.log == old(router.log) + ModelCommands(models[..j])
    {
      var binding := RuleModel(models[j].bindVar, models[j].model, models[j].exception);
      router.Record(binding);
      assert models[..j + 1][..j] == models[..j];
      AppendAssoc(old(router.log), ModelCommands(models[..j]), [binding]);
      j := j + 1;
    }
    assert models[..|models|] == models;
  }

  /** Registering one rule: addRule, its name when truthy and its options, then the
      method's attachments. */
  method AddRoute(router: Router, cls: ClassName, host: RuleHost, m: MethodDecl, route: Rule)
    modifies router
    ensures router.log == old(router.log) + RuleCommands(cls, host, m.name, route, AttachmentCommands(m.annotations))
  {
    var addRule := AddRule(host, route.value, Target(cls, m.name), route.verb);
    router.Record(addRule);
    if NameIsTruthy(route.name) {
      router.Record(RuleName(route.name.value));
    }
    router.Record(RuleOption(route.options));
    ghost var head := [addRule] + (if NameIsTruthy(route.name) then [RuleName(route.name.value)] else [])
      + [RuleOption(route.options)];
    assert router.log == old(router.log) + head;
    Attach(router, m.annotations);
    AppendAssoc(old(router.log), head, AttachmentCommands(m.annotations));
  }

  /** Attaching middleware, group alias, model bindings and validation to the rule
      just added, each read from the method's annotations. */
  method Attach(router: Router, anns: seq<Annotation>)
    modifies router
    ensures router.log == old(router.log) + AttachmentCommands(anns)
  {
    ghost var start := router.log;
    var middleware := FirstOfKind(anns, MiddlewareK);
    FirstOfKindHasKind(anns, MiddlewareK);
    if middleware.Some? {
      router.Record(RuleMiddleware(middleware.value.middleware));
    }
    ghost var issued := MiddlewareCommands(anns);
    assert router.log == start + issued;

    var alias := FirstOfKind(anns, GroupK);
    FirstOfKindHasKind(anns, GroupK);
    if alias.Some? {
      router.Record(RuleGroup(alias.value.alias));
    }
    AppendAssoc(start, issued, AliasCommands(anns));
    issued := issued + AliasCommands(anns);
    assert router.log == start + issued;

    var models := FilterByKind(anns, ModelK);
    FilterByKindKinds(anns, ModelK);
    if models != [] {
      BindModels(router, models);
    }
    AppendAssoc(start, issued, ModelCommands(models));
    issued := issued + ModelCommands(models);
    assert router.log == start + issued;

    var validate := FirstOfKind(anns, ValidateK);
    FirstOfKindHasKind(anns, ValidateK);
    if validate.Some? {
      var v := validate.value;
      router.Record(RuleValidate(v.validator, v.scene, v.message, v.batch));
    }
    AppendAssoc(start, issued, ValidateCommands(anns));
    issued := issued + ValidateCommands(anns);
    assert router.log == start + issued;
  }
}
