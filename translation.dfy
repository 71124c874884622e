/**
 What the route scan issues, as functions of the declarations: the listener body of
 registerAnnotationRoute over the configured directories, scanDir over the classes of
 one directory, and for each class its group commands followed by the rules of its
 public methods. The imperative scanner is proved to issue exactly these logs.
 */
module Translation {
  import opened Wrappers
  import opened Annotations
  import opened Routing
  import opened PhpArrays

  /** PHP truthiness of a route name: null, '' and '0' are false. */
  predicate NameIsTruthy(name: Option<string>) {
    name.Some? && name.value != "" && name.value != "0"
  }

  /* ---------- class level ---------- */

  /** The deferred resource registration, built when the class has a Resource annotation. */
  function ResourceCallbackOf(c: ClassDecl): Option<ResourceCallback> {
    match FirstOfKind(c.annotations, ResourceK)
    case Some(Resource(base, opts)) => Some(ResourceCallback(base, c.name, opts))
    case _ => None
  }

  /** `$routeGroup` once the class annotations are read; None stands for `false`. */
  function GroupPathOf(c: ClassDecl): Option<Path> {
    match FirstOfKind(c.annotations, ControllerK)
    case Some(Controller(path, _)) => Some(path)
    case _ => if FirstOfKind(c.annotations, MiddlewareK).Some? then Some("") else None
  }

  /** The value of the first Middleware annotation, or [] when there is none. */
  function MiddlewareOf(anns: seq<Annotation>): seq<string> {
    match FirstOfKind(anns, MiddlewareK)
    case Some(Middleware(names)) => names
    case _ => []
  }

  /** What running the resource callback issues. */
  function CallbackCommands(cb: ResourceCallback): seq<Command> {
    [CreateResource(cb.base, cb.cls), ResourceOption(cb.options)]
  }

  /** The option call on the group, made only when the class has a Controller annotation. */
  function GroupOptionCommands(anns: seq<Annotation>): seq<Command> {
    match FirstOfKind(anns, ControllerK)
    case Some(Controller(_, opts)) => [GroupOption(opts)]
    case _ => []
  }

  /** The commands issued for a class before its methods are visited. */
  function ClassHeader(c: ClassDecl): seq<Command> {
    match GroupPathOf(c)
    case Some(path) =>
      [CreateGroup(path, ResourceCallbackOf(c))]
      + GroupOptionCommands(c.annotations)
      + [GroupMiddleware(MiddlewareOf(c.annotations))]
    case None =>
      match ResourceCallbackOf(c)
      case Some(cb) => CallbackCommands(cb)
      case None => []
  }

  /** Where the rules of a class go. */
  function HostOf(c: ClassDecl): RuleHost {
    match GroupPathOf(c)
    case Some(path) => InGroup(path)
    case None => InCurrentGroup
  }

  /* ---------- method and rule level ---------- */

  /** The rule annotation of kind k on a method (the first one), if any. */
  function RuleOf(anns: seq<Annotation>, k: RuleKind): Option<Rule> {
    match FirstOfKind(anns, RuleK(k))
    case Some(Mapping(_, r)) => Some(r)
    case _ => None
  }

  /** The `$routes` array: the six lookups, in the order scanDir makes them. */
  function Lookups(anns: seq<Annotation>): seq<Option<Rule>> {
    seq(|RULE_KIND_ORDER|, i requires 0 <= i < |RULE_KIND_ORDER| => RuleOf(anns, RULE_KIND_ORDER[i]))
  }

  /** One `model(var, value, exception)` call per Model annotation, in order. */
  function ModelCommands(models: seq<Annotation>): seq<Command> {
    if models == [] then []
    else
      var n := |models| - 1;
      ModelCommands(models[..n])
      + (match models[n]
         case Model(v, model, exception) => [RuleModel(v, model, exception)]
         case _ => [])
  }

  /** The optional per-rule attachments read from the method's annotations. */
  function MiddlewareCommands(anns: seq<Annotation>): seq<Command> {
    match FirstOfKind(anns, MiddlewareK)
    case Some(Middleware(names)) => [RuleMiddleware(names)]
    case _ => []
  }

  function AliasCommands(anns: seq<Annotation>): seq<Command> {
    match FirstOfKind(anns, GroupK)
    case Some(Group(alias)) => [RuleGroup(alias)]
    case _ => []
  }

  function ValidateCommands(anns: seq<Annotation>): seq<Command> {
    match FirstOfKind(anns, ValidateK)
    case Some(Validate(v, scene, message, batch)) => [RuleValidate(v, scene, message, batch)]
    case _ => []
  }

  /** What every rule of a method gets attached after its options: the method's
      middleware, group alias, model bindings and validation, in that order. The
      reader is asked again for each rule, and each time gives the same answer. */
  function AttachmentCommands(anns: seq<Annotation>): seq<Command> {
    MiddlewareCommands(anns) + AliasCommands(anns) + ModelCommands(FilterByKind(anns, ModelK))
    + ValidateCommands(anns)
  }

  /** The commands for one rule of a method: addRule, the name when it is truthy,
      the options, then the method's attachments. */
  function RuleCommands(cls: ClassName, host: RuleHost, methodName: string, r: Rule, attachments: seq<Command>): seq<Command> {
    [AddRule(host, r.value, Target(cls, methodName), r.verb)]
    + (if NameIsTruthy(r.name) then [RuleName(r.name.value)] else [])
    + [RuleOption(r.options)]
    + attachments
  }

  /** The commands for a list of looked-up rule slots; an empty slot issues nothing. */
  function RoutesCommands(cls: ClassName, host: RuleHost, methodName: string, routes: seq<Option<Rule>>,
                          attachments: seq<Command>): seq<Command> {
    ConcatMap(routes, slot => SlotCommands(cls, host, methodName, slot, attachments))
  }

  /** One looked-up slot: the rule's commands, or nothing when the lookup found none. */
  function SlotCommands(cls: ClassName, host: RuleHost, methodName: string, slot: Option<Rule>,
                        attachments: seq<Command>): seq<Command> {
    match slot
    case Some(r) => RuleCommands(cls, host, methodName, r, attachments)
    case None => []
  }

  function MethodCommands(cls: ClassName, host: RuleHost, m: MethodDecl): seq<Command> {
    RoutesCommands(cls, host, m.name, Lookups(m.annotations), AttachmentCommands(m.annotations))
  }

  /** The loop over the public methods of a class. */
  function MethodsCommands(cls: ClassName, host: RuleHost, ms: seq<MethodDecl>): seq<Command> {
    ConcatMap(ms, m => MethodCommands(cls, host, m))
  }

  function ClassCommands(c: ClassDecl): seq<Command> {
    ClassHeader(c) + MethodsCommands(c.name, HostOf(c), c.methods)
  }

  /** scanDir: the classes of one directory, in the class map's order. */
  function ClassesCommands(classes: seq<ClassDecl>): seq<Command> {
    ConcatMap(classes, ClassCommands)
  }

  /* ---------- configuration and directories ---------- */

  /** The configuration values read: `annotation.route.enable` (absent means true),
      the application path, `route.controller_layer`, and
      `annotation.route.controllers` (absent means []). */
  datatype Config = Config(
    enable: Option<bool>,
    appPath: string,
    controllerLayer: string,
    controllers: Option<ValidArray<Path>>)

  predicate RouteEnabled(cfg: Config) {
    cfg.enable.None? || cfg.enable.value
  }

  function ControllerDir(cfg: Config): Path {
    cfg.appPath + cfg.controllerLayer
  }

  /** `$dirs`: the application controller directory united with the configured ones. */
  function ScannedDirs(cfg: Config): (r: seq<Path>)
    ensures |r| >= 1 && r[0] == ControllerDir(cfg)
  {
    var configured := if cfg.controllers.Some? then cfg.controllers.value else [];
    Values(Union(List([ControllerDir(cfg)]), configured))
  }

  /** The file system as the scan sees it: the directories that exist, each with the
      classes its class map lists, in order. */
  datatype FileSystem = FileSystem(classMap: map<Path, seq<ClassDecl>>)

  /** One iteration of the directory loop: scan the directory if it exists. */
  function DirCommands(fs: FileSystem, dir: Path): seq<Command> {
    if dir in fs.classMap then ClassesCommands(fs.classMap[dir]) else []
  }

  function DirsCommands(fs: FileSystem, dirs: seq<Path>): seq<Command> {
    ConcatMap(dirs, dir => DirCommands(fs, dir))
  }

  /** The body of the RouteLoaded listener. */
  function LoadedCommands(cfg: Config, fs: FileSystem): seq<Command> {
    DirsCommands(fs, ScannedDirs(cfg))
  }
}
