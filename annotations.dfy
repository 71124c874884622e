/** The stock Option datatype, used for an annotation lookup that may find nothing. */
module Wrappers {
  datatype Option<+T> = None | Some(value: T)
}

/**
 The annotations the route scanner reads, as plain data. Doctrine's reader and PHP
 reflection are not modelled: a class declaration carries its class-level annotations
 and its public methods, each with its method-level annotations, in declaration order.
 */
module Annotations {
  import opened Wrappers

  type ClassName = string
  type Path = string

  /** An option array handed unchanged to the router (never interpreted here). */
  type OptionMap = map<string, string>

  /** The verb a rule annotation carries: the seven of the rule annotations' @Enum,
      and Any for any other value of the annotation's `method` property. */
  datatype Verb = Get | Post | Put | Delete | Patch | Options | Head | Any

  /** The six rule annotation kinds scanDir looks up on each public method. */
  datatype RuleKind = Route | RequestMapping | GetMapping | PostMapping | DeleteMapping | PutMapping

  /** The order in which scanDir looks the six kinds up. */
  const RULE_KIND_ORDER: seq<RuleKind> :=
    [Route, RequestMapping, GetMapping, PostMapping, DeleteMapping, PutMapping]

  /** The fields of a rule annotation: path pattern, verb, optional name, options. */
  datatype Rule = Rule(value: Path, verb: Verb, name: Option<string>, options: OptionMap)

  datatype Annotation =
    | Mapping(kind: RuleKind, rule: Rule)
    | Resource(base: Path, resourceOptions: OptionMap)
    | Controller(path: Path, controllerOptions: OptionMap)
    | Middleware(middleware: seq<string>)
    | Group(alias: string)
    | Model(bindVar: string, model: string, exception: bool)
    | Validate(validator: string, scene: string, message: OptionMap, batch: bool)
    | Other(annotationClass: string)

  /** The annotation class an annotation is an instance of. */
  datatype Kind =
    | RuleK(ruleKind: RuleKind)
    | ResourceK | ControllerK | MiddlewareK | GroupK | ModelK | ValidateK
    | OtherK(otherClass: string)

  datatype MethodDecl = MethodDecl(name: string, annotations: seq<Annotation>)

  /** A controller class: its name, class-level annotations and public methods. */
  datatype ClassDecl = ClassDecl(name: ClassName, annotations: seq<Annotation>, methods: seq<MethodDecl>)

  function KindOf(a: Annotation): Kind {
    match a
    case Mapping(k, _) => RuleK(k)
    case Resource(_, _) => ResourceK
    case Controller(_, _) => ControllerK
    case Middleware(_) => MiddlewareK
    case Group(_) => GroupK
    case Model(_, _, _) => ModelK
    case Validate(_, _, _, _) => ValidateK
    case Other(c) => OtherK(c)
  }

  /** The reader's single-annotation lookup (getClassAnnotation, getMethodAnnotation):
      the first annotation of kind k, if there is one. */
  function FirstOfKind(anns: seq<Annotation>, k: Kind): Option<Annotation> {
    if anns == [] then None
    else if KindOf(anns[0]) == k then Some(anns[0])
    else FirstOfKind(anns[1..], k)
  }

  /** What the lookup finds has the kind asked for. */
  lemma {:induction false} FirstOfKindHasKind(anns: seq<Annotation>, k: Kind)
    ensures FirstOfKind(anns, k).Some? ==> KindOf(FirstOfKind(anns, k).value) == k
  {
    if anns != [] && KindOf(anns[0]) != k {
      FirstOfKindHasKind(anns[1..], k);
    }
  }

  /** The lookup finds nothing exactly when no annotation has kind k, and what it
      finds has kind k and is one of the annotations. */
  lemma {:induction false} FirstOfKindFound(anns: seq<Annotation>, k: Kind)
    ensures FirstOfKind(anns, k).None? <==> forall i | 0 <= i < |anns| :: KindOf(anns[i]) != k
    ensures FirstOfKind(anns, k).Some? ==> KindOf(FirstOfKind(anns, k).value) == k && FirstOfKind(anns, k).value in anns
  {
    if anns != [] && KindOf(anns[0]) != k {
      FirstOfKindFound(anns[1..], k);
      assert forall i | 1 <= i < |anns| :: anns[i] == anns[1..][i - 1];
    }
  }

  /** getMethodAnnotations filtered by kind (array_filter with instanceof): the
      annotations of kind k, in their order. */
  function FilterByKind(anns: seq<Annotation>, k: Kind): seq<Annotation> {
    if anns == [] then []
    else
      var n := |anns| - 1;
      FilterByKind(anns[..n], k) + (if KindOf(anns[n]) == k then [anns[n]] else [])
  }

  /** Everything the filter keeps has kind k, and it keeps no more than it was given. */
  lemma {:induction false} FilterByKindKinds(anns: seq<Annotation>, k: Kind)
    ensures forall i | 0 <= i < |FilterByKind(anns, k)| :: KindOf(FilterByKind(anns, k)[i]) == k
    ensures |FilterByKind(anns, k)| <= |anns|
  {
    if anns != [] {
      FilterByKindKinds(anns[..|anns| - 1], k);
    }
  }

  /** The filter keeps every annotation of kind k as often as it occurs, and drops
      every other annotation. */
  lemma {:induction false} FilterByKindKeepsExactly(anns: seq<Annotation>, k: Kind, a: Annotation)
    ensures multiset(FilterByKind(anns, k))[a] == if KindOf(a) == k then multiset(anns)[a] else 0
  {
    if anns != [] {
      var n := |anns| - 1;
      assert anns == anns[..n] + [anns[n]];
      FilterByKindKeepsExactly(anns[..n], k, a);
    }
  }

  /** The positions of the annotations of kind k, in increasing order. */
  function KindIndices(anns: seq<Annotation>, k: Kind): (r: seq<nat>)
    ensures forall j | 0 <= j < |r| :: r[j] < |anns|
    ensures forall j, l | 0 <= j < l < |r| :: r[j] < r[l]
    ensures forall i | 0 <= i < |anns| :: (i in r <==> KindOf(anns[i]) == k)
  {
    if anns == [] then []
    else
      var n := |anns| - 1;
      KindIndices(anns[..n], k) + (if KindOf(anns[n]) == k then [n] else [])
  }

  /** Order preservation: the filter picks exactly the annotations at the increasing
      positions of kind k, so their relative order is that of the method. */
  lemma {:induction false} FilterByKindIsOrdered(anns: seq<Annotation>, k: Kind)
    ensures |FilterByKind(anns, k)| == |KindIndices(anns, k)|
    ensures forall j | 0 <= j < |KindIndices(anns, k)| ::
      FilterByKind(anns, k)[j] == anns[KindIndices(anns, k)[j]]
  {
    if anns != [] {
      var n := |anns| - 1;
      var front, idx := FilterByKind(anns[..n], k), KindIndices(anns[..n], k);
      FilterByKindIsOrdered(anns[..n], k);
      var tail: seq<Annotation> := if KindOf(anns[n]) == k then [anns[n]] else [];
      var tailIdx: seq<nat> := if KindOf(anns[n]) == k then [n] else [];
      assert FilterByKind(anns, k) == front + tail;
      assert KindIndices(anns, k) == idx + tailIdx;
      forall j | 0 <= j < |idx + tailIdx|
        ensures (front + tail)[j] == anns[(idx + tailIdx)[j]]
      {
        if j < |idx| {
          assert (front + tail)[j] == front[j] == anns[..n][idx[j]];
        }
      }
    }
  }

  lemma {:induction false} FilterByKindAppend(a: seq<Annotation>, b: seq<Annotation>, k: Kind)
    ensures FilterByKind(a + b, k) == FilterByKind(a, k) + FilterByKind(b, k)
  {
    if b == [] {
      assert a + b == a;
    } else {
      var n := |b| - 1;
      assert (a + b)[..|a + b| - 1] == a + b[..n];
      FilterByKindAppend(a, b[..n], k);
    }
  }

  /** The single lookup agrees with the list lookup: it is the first annotation of
      kind k that getMethodAnnotations would return. */
  lemma {:induction false} FirstOfKindIsFilterHead(anns: seq<Annotation>, k: Kind)
    ensures FirstOfKind(anns, k) ==
      if FilterByKind(anns, k) == [] then None else Some(FilterByKind(anns, k)[0])
  {
    if anns != [] {
      assert anns == [anns[0]] + anns[1..];
      FilterByKindAppend([anns[0]], anns[1..], k);
      assert FilterByKind([anns[0]], k) == (if KindOf(anns[0]) == k then [anns[0]] else []) by {
        assert [anns[0]][..0] == [];
      }
      FirstOfKindIsFilterHead(anns[1..], k);
    }
  }

  /** The lookup finds the annotation at the first position of kind k. */
  lemma {:induction false} FirstOfKindAt(anns: seq<Annotation>, k: Kind, i: nat)
    requires i < |anns| && KindOf(anns[i]) == k
    requires forall j | 0 <= j < i :: KindOf(anns[j]) != k
    ensures FirstOfKind(anns, k) == Some(anns[i])
  {
    if i > 0 {
      assert forall j | 0 <= j < i - 1 :: anns[1..][j] == anns[j + 1];
      FirstOfKindAt(anns[1..], k, i - 1);
    }
  }

  /** Conversely, what the lookup finds sits at the first position of kind k. */
  lemma {:induction false} FirstOfKindIsFirst(anns: seq<Annotation>, k: Kind)
    requires FirstOfKind(anns, k).Some?
    ensures exists i | 0 <= i < |anns| ::
      anns[i] == FirstOfKind(anns, k).value && forall j | 0 <= j < i :: KindOf(anns[j]) != k
  {
    if KindOf(anns[0]) != k {
      FirstOfKindIsFirst(anns[1..], k);
      var i :| 0 <= i < |anns[1..]| && anns[1..][i] == FirstOfKind(anns[1..], k).value
        && forall j | 0 <= j < i :: KindOf(anns[1..][j]) != k;
      assert anns[i + 1] == FirstOfKind(anns, k).value;
      assert forall j | 0 <= j < i + 1 :: KindOf(anns[j]) != k by {
        forall j | 0 <= j < i + 1 ensures KindOf(anns[j]) != k {
          if j > 0 { assert anns[j] == anns[1..][j - 1]; }
        }
      }
    } else {
      assert anns[0] == FirstOfKind(anns, k).value;
    }
  }
}
