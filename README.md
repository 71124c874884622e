# think-annotation: annotation route registration

This project models the route half of think-annotation, the ThinkPHP package that
turns Doctrine-style annotations on controller classes into router calls. The
modelled code is the `InteractsWithRoute` trait and its three members:

- `registerAnnotationRoute` reads `annotation.route.enable`. When that is absent or
  true, it registers a `RouteLoaded` listener. The listener builds the directory list
  `$dirs` as `[app path . route.controller_layer] + annotation.route.controllers`
  and scans every directory of it that exists.
- `scanDir` visits the classes of one directory. For each class it reads the
  `Resource`, `Middleware` and `Controller` class annotations. It then either opens
  a group, passing the resource callback to it, or runs the callback at once and
  uses the router's current group. Next, for each public method, it looks up the
  six rule annotations in a fixed order: Route, RequestMapping, GetMapping,
  PostMapping, DeleteMapping, PutMapping. For every rule it finds, it adds the rule
  and then sets:
  - the rule's name, when the name is truthy;
  - the rule's options;
  - the method's `Middleware`, `Group` alias, all of its `Model` bindings, and its
    `Validate` annotation.
- `getMethodAnnotations` filters the method's annotations by class.

The router is modelled as a `Router` object. Its only state is `log`: the ordered
list of calls made on it, and on the group and rule handles it returns. The
imperative scanner (module `Scanner`) has a loop for each `foreach` of the source.
Each of its methods is proved to append exactly the log that a function of the
declarations describes (module `Translation`). Lemmas about those functions state
what the log contains (modules `RuleProperties`, `ClassProperties` and
`DirProperties`). `Scenarios` works out small concrete classes and configurations
completely.

Behaviour reproduced as the code has it:

- **PHP array union.** `+` keeps every key of its left operand. A configured *list*
  of directories therefore loses its first entry (key 0). The model has PHP's union
  (`PhpArrays.Union`) and proves the consequence (`DirProperties.ScannedDirsOfList`,
  `Scenarios.FirstConfiguredDirDropped`). It does not fix it.
- **Resource-only classes.** A class with a `Resource` annotation but no
  `Controller` or `Middleware` annotation gets no group: the callback runs at once
  (`resource(...)` then `option(...)`) and the class's rules go to the router's
  current group (src/InteractsWithRoute.php:91-95; `Scenarios.ResourceOnlyClass`,
  `ClassProperties.ResourceCallbackPlacement`).
- **Repeated annotations.** Each lookup returns only the first annotation of its
  kind, as Doctrine's single-annotation reader does. A second `GetMapping` on a
  method makes no rule (`Scenarios.RepeatedKindOneRule`). `Model` annotations are
  the exception: they all bind, in their order.
- **Rule names.** A name is set only when it is truthy. `null`, `''` and `'0'` set
  no name (`Translation.NameIsTruthy`, `Scenarios.FalsyNameNotSet`).

## Model

| member | source | states |
|---|---|---|
| Scanner.RegisterAnnotationRoute | src/InteractsWithRoute.php:38-53 | the RouteLoaded listener exists exactly when `annotation.route.enable` is absent or true; then the event appends the listener's directory scan to the router log, otherwise nothing is issued |
| Scanner.OnRouteLoaded | src/InteractsWithRoute.php:41-51 | the listener appends the scan of `$dirs`, the controller directory united with the configured ones, in that order |
| Scanner.ScanDirs | src/InteractsWithRoute.php:46-50 | each directory of the list is scanned in list order when it exists and skipped when it does not |
| Scanner.ScanDir | src/InteractsWithRoute.php:55-148 | the classes of the directory's class map are scanned one after the other, in map order |
| Scanner.RunCallback | src/InteractsWithRoute.php:68-71 | the resource callback issues `resource(value, class)` followed by `option(options)` |
| Scanner.OpenClass | src/InteractsWithRoute.php:59-96 | returns the group the class's rules go to (the created group, or the current group when none is created) and appends the class header: group/option/middleware calls, or the callback's calls when there is no group |
| Scanner.ScanClass | src/InteractsWithRoute.php:59-146 | a class issues its header and then the rules of its public methods, method by method |
| Scanner.ScanMethod | src/InteractsWithRoute.php:99-112 | a public method issues the rules of its six lookups, in lookup order |
| Scanner.ScanRoutes | src/InteractsWithRoute.php:110-145 | each looked-up rule is registered with the method's attachments, and an empty slot issues nothing |
| Scanner.AddRoute | src/InteractsWithRoute.php:114-143 | one rule issues addRule on the class's group with path, `Class@method` target and verb, then its name when it is truthy, then its options, then the method's attachments |
| Scanner.Attach | src/InteractsWithRoute.php:122-143 | the attachments, in this order: the method's first Middleware, its first Group alias, one model call per Model annotation, and its first Validate |
| Scanner.BindModels | src/InteractsWithRoute.php:132-137 | one `model(var, value, exception)` call per Model annotation, in annotation order |
| Annotations.FirstOfKindFound | src/InteractsWithRoute.php:102-107 | a single-annotation lookup finds nothing exactly when no annotation of the kind is present; what it finds has the kind and is one of the method's annotations |
| Annotations.FirstOfKindAt | src/InteractsWithRoute.php:102-107 | the lookup returns the annotation at the first position holding the kind |
| Annotations.FirstOfKindIsFirst | src/InteractsWithRoute.php:102-107 | whatever the lookup returns sits at a position before which no annotation of the kind occurs |
| Annotations.FirstOfKindHasKind | src/InteractsWithRoute.php:66-80 | what a class annotation lookup returns is an instance of the class asked for |
| Annotations.FilterByKindKinds | src/InteractsWithRoute.php:150-157 | the filter keeps only annotations of the requested class, and no more than it is given |
| Annotations.FilterByKindKeepsExactly | src/InteractsWithRoute.php:154-156 | every annotation of the class is kept as often as it occurs, and any other is dropped |
| Annotations.FilterByKindIsOrdered | src/InteractsWithRoute.php:150-157 | the filter's j-th result is the annotation at the j-th position holding the class; the original order is kept |
| Annotations.FilterByKindAppend | src/InteractsWithRoute.php:150-157 | filtering a concatenation is concatenating the filtered parts |
| Annotations.FirstOfKindIsFilterHead | src/InteractsWithRoute.php:123-141 | the single lookup returns the first element of the filtered list, or nothing when that list is empty |
| PhpArrays.UnionLookup | src/InteractsWithRoute.php:44-45 | PHP `+`: a key of the left operand keeps its left value, and any other key takes the right operand's value |
| PhpArrays.UnionOfLists | src/InteractsWithRoute.php:44-45 | on two list arrays `+` keeps the left list whole and appends only the right list's entries past the left list's length |
| PhpArrays.ListWellFormed | src/InteractsWithRoute.php:45 | a configured list of directories is an array PHP can hold: its keys 0, 1, ... are distinct integers |
| PhpArrays.UnionDisjoint | src/InteractsWithRoute.php:44-45 | when no key of the right operand occurs on the left, `+` is plain concatenation |
| Translation.ScannedDirs | src/InteractsWithRoute.php:44-45 | `$dirs` is never empty and starts with the application path joined to the controller layer |
| DirProperties.ScannedDirsDefault | src/InteractsWithRoute.php:44-45 | without `annotation.route.controllers`, only the controller directory is scanned |
| DirProperties.ScannedDirsOfList | src/InteractsWithRoute.php:44-45 | a configured list `[d0, d1, ...]` yields the controller directory, then `d1, d2, ...`; `d0` is dropped |
| DirProperties.ScannedDirsWithoutKeyZero | src/InteractsWithRoute.php:44-45 | a configured array none of whose keys is 0 is scanned whole, in its order, after the controller directory |
| DirProperties.DirsAppend | src/InteractsWithRoute.php:46-50 | the directory loop's log over a concatenation is the logs of the parts, in order |
| DirProperties.DirScanned | src/InteractsWithRoute.php:47-48 | an existing directory contributes exactly the scan of its classes |
| DirProperties.MissingDirSkipped | src/InteractsWithRoute.php:47-48 | a directory that does not exist contributes nothing, wherever it sits in the list |
| DirProperties.ClassesAppend | src/InteractsWithRoute.php:57 | scanDir's log over a concatenation of class lists is the logs of the parts, in order |
| DirProperties.LoadedFromList | src/InteractsWithRoute.php:41-50 | with a configured list, the listener scans the controller directory, then the configured directories from the second one on |
| ClassProperties.GroupPathFromController | src/InteractsWithRoute.php:80-82 | the first Controller annotation's value is the group path |
| ClassProperties.GroupPathWithoutController | src/InteractsWithRoute.php:74-82 | without a Controller annotation, the group path is '' exactly when there is a Middleware annotation, and otherwise there is no group |
| ClassProperties.ResourceCallbackExists | src/InteractsWithRoute.php:66-72 | a resource callback exists exactly when the class has a Resource annotation |
| ClassProperties.ResourceCallbackIsFirst | src/InteractsWithRoute.php:66-71 | the callback registers the first Resource annotation's path, for the class itself, with that annotation's options |
| ClassProperties.MiddlewareOfIsFirst | src/InteractsWithRoute.php:74-77 | the group middleware is the first Middleware annotation's value |
| ClassProperties.MiddlewareOfNone | src/InteractsWithRoute.php:61 | without a Middleware annotation, the group middleware is the empty list |
| ClassProperties.GroupOptionIsFirst | src/InteractsWithRoute.php:86-88 | the group option call carries the first Controller annotation's options |
| ClassProperties.GroupOptionNone | src/InteractsWithRoute.php:86-88 | without a Controller annotation, no group option call is made |
| ClassProperties.GroupedHeaderSelect | src/InteractsWithRoute.php:84-90 | a grouped class first creates its group, carrying the resource callback; then it makes the option call when it has a Controller, and always the middleware call; it makes nothing else |
| ClassProperties.UngroupedHeaderSelect | src/InteractsWithRoute.php:91-95 | a class without a group makes only the callback's resource and option calls, or nothing when it has no Resource |
| ClassProperties.ResourceCallbackPlacement | src/InteractsWithRoute.php:84-95 | grouped: exactly one group call, carrying the callback, and no direct resource call; ungrouped: no group call, and the resource call is made at once exactly when there is a callback |
| ClassProperties.GroupOptionAndMiddleware | src/InteractsWithRoute.php:84-90 | grouped: options only under a Controller and exactly one middleware call; ungrouped: neither call |
| ClassProperties.RulesGoToClassGroup | src/InteractsWithRoute.php:84-114 | the class log starts with its header; after it, only rule handles are called, and every addRule goes to the created group (`InGroup(path)`) or to the current group when none was created |
| RuleProperties.ModelCommandsBindEach | src/InteractsWithRoute.php:134-136 | the j-th model call binds the j-th Model annotation's variable, model and exception flag |
| RuleProperties.AttachmentSelect | src/InteractsWithRoute.php:122-143 | the attachments, taken one kind of call at a time: middleware, group alias, model bindings and validate |
| RuleProperties.AttachmentsOnRule | src/InteractsWithRoute.php:122-143 | every attachment is a call on the rule handle |
| RuleProperties.AttachmentsAfterHead | src/InteractsWithRoute.php:122-143 | no attachment adds, names or configures a rule |
| RuleProperties.AttachmentModels | src/InteractsWithRoute.php:132-137 | the model calls among the attachments are exactly the bindings of the filtered Model annotations |
| RuleProperties.FirstMiddleware | src/InteractsWithRoute.php:123-125 | the rule middleware call carries the first Middleware annotation's value, and there is none without one |
| RuleProperties.FirstAlias | src/InteractsWithRoute.php:127-129 | the rule group call carries the first Group annotation's alias, and there is none without one |
| RuleProperties.FirstValidate | src/InteractsWithRoute.php:141-143 | the validate call carries the first Validate annotation's four fields, and there is none without one |
| RuleProperties.AttachedMiddleware | src/InteractsWithRoute.php:123-125 | among a rule's attachments, the only middleware call is the first Middleware annotation's value, or there is none |
| RuleProperties.AttachedAlias | src/InteractsWithRoute.php:127-129 | among a rule's attachments, the only group alias call is the first Group annotation's, or there is none |
| RuleProperties.AttachedValidate | src/InteractsWithRoute.php:141-143 | among a rule's attachments, the only validate call is the first Validate annotation's, or there is none |
| RuleProperties.AttachedModels | src/InteractsWithRoute.php:132-137 | a rule gets one model call per Model annotation of its method; the j-th binds the annotation at the j-th Model position |
| RuleProperties.ModelsInOrder | src/InteractsWithRoute.php:132-137 | binding the filtered Model annotations gives one call per Model position, in position order |
| RuleProperties.RuleSelect | src/InteractsWithRoute.php:114-120 | a rule's log, one kind of call at a time: one addRule, one name when it is truthy, one option call, then the attachments |
| RuleProperties.RuleOnRule | src/InteractsWithRoute.php:114-143 | a rule's log starts with its addRule on the class's group, and every call in it is made on the rule handle |
| RuleProperties.RoutesSelect | src/InteractsWithRoute.php:110-112 | empty slots contribute nothing: selecting from the slots' log selects from each present rule in slot order |
| RuleProperties.RoutesEmpty | src/InteractsWithRoute.php:110-112 | the slots issue nothing exactly when none of them holds a rule |
| RuleProperties.RoutesOnRule | src/InteractsWithRoute.php:110-145 | the slots' log is made of rule-handle calls whose addRule calls all go to the class's group |
| RuleProperties.EachRuleAdds | src/InteractsWithRoute.php:114 | each present rule issues exactly one addRule, with its own path, the method's target and its own verb |
| RuleProperties.EachRuleOptions | src/InteractsWithRoute.php:120 | each present rule gets exactly one option call, with its own options |
| RuleProperties.EachRuleAttachments | src/InteractsWithRoute.php:122-143 | every rule of a method gets the same attachments |
| RuleProperties.LookupSlots | src/InteractsWithRoute.php:101-108 | slot i holds a rule exactly when the method carries an annotation of the i-th kind, and then it is the first such annotation's rule |
| RuleProperties.RoutesRules | src/InteractsWithRoute.php:110-145 | the addRule calls are one per present rule, in slot order; so are the option calls; and the model calls are the attachments' bindings once per rule |
| RuleProperties.MethodRules | src/InteractsWithRoute.php:99-145 | one public method: the addRule calls are its present rules in lookup order, each with its path, `Class@method` target and verb; the option calls follow their rules; each rule repeats all of the method's Model bindings |
| RuleProperties.NoRuleAnnotation | src/InteractsWithRoute.php:101-108 | all six slots are empty exactly when the method carries no rule annotation |
| RuleProperties.MethodSilent | src/InteractsWithRoute.php:101-112 | a method makes no call at all exactly when it carries no rule annotation |
| RuleProperties.MethodsOnRule | src/InteractsWithRoute.php:99-146 | the method loop calls rule handles only, and every addRule goes to the class's group |
| Scenarios.ControllerOnly | src/InteractsWithRoute.php:80-90 | a class with only `Controller(path)` creates the group at that path, sets empty options and an empty middleware list, and adds its rules to that group |
| Scenarios.SingleRule | src/InteractsWithRoute.php:99-121 | a method with a single rule annotation issues that rule's calls and nothing else |
| Scenarios.GroupedClassWithNamedRule | src/InteractsWithRoute.php:80-120 | class Foo with `Controller("foo")` and a GET `bar/:id` rule named `foo.bar` on method bar: group("foo") with its option and middleware calls, then addRule on that group with target Foo@bar, then name, then option |
| Scenarios.ResourceOnlyClass | src/InteractsWithRoute.php:66-95 | a class with only `Resource("baz")` issues `resource("baz", Baz)` and its option at once; no group is created, and its rules go to the current group |
| Scenarios.ResourceInMiddlewareGroup | src/InteractsWithRoute.php:66-90 | with Resource and Middleware, the callback goes to a group with the empty path, which gets the middleware and no option call |
| Scenarios.TwoVerbsOneMethod | src/InteractsWithRoute.php:101-120 | GET and PUT on method edit give two rules with the same target: GET first, as the lookup order has it, whatever the annotation order |
| Scenarios.RepeatedKindOneRule | src/InteractsWithRoute.php:102-107 | two GetMapping annotations on one method give one rule, from the first |
| Scenarios.FalsyNameNotSet | src/InteractsWithRoute.php:116-118 | a rule named "0" gets no name call |
| Scenarios.FirstConfiguredDirDropped | src/InteractsWithRoute.php:44-45 | configuring `['app/admin/', 'app/api/']` scans the controller directory and 'app/api/' only |
| Scenarios.MissingConfiguredDir | src/InteractsWithRoute.php:44-50 | with that configuration and 'app/api/' missing, only the controller directory's classes are scanned |

## Left out

- Doctrine's annotation reader and PHP reflection are not modelled. A class is given
  as data: its name, its class annotations, and its public methods in reflection
  order, each with its annotations in declaration order. The `IS_PUBLIC` filter is
  assumed already applied.
- Annotation classes are distinct tags (`Annotations.Kind`). `instanceof` through
  subclasses is not modelled. Neither is the exact class each of the six lookups
  names: the same six kinds are used in the same order.
- The rule annotation classes (src/route/PutMapping.php and its siblings) appear
  only as their fields: path, verb, name and options. The verb is the rule
  annotation's `method` property (line 114), taken as a given field; how that
  property is set is not modelled (PutMapping.php declares only a constant named
  `method`). `Annotations.Verb` also has `Any` for a verb outside the seven the
  `@Enum` lists. Option arrays are opaque maps.
- `ClassMapGenerator`, the file system and `is_dir` become a map from existing
  directories to the classes their class map lists (`Translation.FileSystem`).
  Each class map entry's file path (`$path`, unused by the source) is not modelled;
  the entry's key, the class name, is `ClassDecl.name`.
- The configuration store, the application path and the event bus become data
  (`Translation.Config`). Only the one `RouteLoaded` event is modelled, through
  `Scanner.RegisterAnnotationRoute`.
- The router's own behaviour is not modelled: what `group`, `resource`, `addRule`
  and the rule handle methods do with their arguments, whether and when a group
  runs its callback, and rejection of duplicate rules. The router is only the
  recorder of the calls made on it.
- A rule's target `"Class@method"` is kept as the pair (class, method) in
  `Routing.Target`, not joined into one string.
- Scanner.AddRoute: like the source, it calls `Scanner.Attach` for every rule, and
  `Attach` redoes the lookups each time. Only the function form,
  `Translation.AttachmentCommands`, computes the attachments once per method; the
  two agree because every lookup on the same method gives the same answer.
- The configured `annotation.route.controllers` value is a `PhpArrays.ValidArray`:
  distinct keys, and no string key that spells a canonical decimal integer, since PHP
  stores such a key as an integer. PHP keeps a decimal string outside its 64-bit
  integer range as a string key; the model treats every such string as an integer
  key and so excludes those keys too.
- array_filter keeps the original keys of what it keeps; the model keeps only the
  order, which is all the `foreach` over the models uses.
- Errors are not modelled: a class that cannot be loaded, a reader exception, or a
  router rejection.
- PHP truthiness is modelled only where the source tests a value:
  - the route name (`null`, `''`, `'0'`);
  - an annotation that is present or absent;
  - the non-empty Model list.
  The enable flag is modelled as a boolean that may be absent. A Controller whose
  value is `false` is not modelled.
