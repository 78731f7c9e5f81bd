/**
 * The binder: it merges the route's parameters with the caller's overrides
 * into one ordered bag, rewrites raw bag values into string-backed enum cases
 * and then into models fetched through route-model binding, and finally
 * instantiates the target class and invokes the selected method.
 *
 * The pure functions below state what each step computes; the class
 * `Binder` performs the steps in place on its `parameters` field and is
 * proved against them.
 */
module Binding {
  import opened Wrappers
  import opened Collections
  import opened PhpArrays
  import opened ParameterDescriptors
  import opened BoundDescriptors

  const URL_ROUTABLE: TypeName := "Illuminate\\Contracts\\Routing\\UrlRoutable"
  const SOFT_DELETES: TypeName := "Illuminate\\Database\\Eloquent\\SoftDeletes"

  /** An object: its class and an identity that tells objects apart. */
  datatype Obj = Obj(cls: TypeName, handle: nat)

  /** A value in the bag: a raw route value, a bound enum case or an object. */
  datatype Value =
    | Raw(text: string)
    | EnumCase(enumType: TypeName, backing: string)
    | Instance(obj: Obj)

  /** The parameter bag: a PHP array from parameter names to values, so no key occurs twice. */
  type Bag = b: seq<(string, Value)> | UniqueKeys(b) witness []

  datatype BindingMethod = ResolveRouteBinding | ResolveSoftDeletableRouteBinding
  datatype ChildBindingMethod = ResolveChildRouteBinding | ResolveSoftDeletableChildRouteBinding

  /**
   * The framework around the binder. Each field stands for code that is not
   * part of this model:
   *  - `snake` is `Str::snake`;
   *  - `hasCase(e, s)` holds when `e::tryFrom(s)` yields a case, the case backed by `s`;
   *  - `stringOf` is the string conversion of an object, None when its class has no `__toString`;
   *  - `make` is the container's `app()->make`;
   *  - `traitsOf` is `class_uses_recursive` for a class;
   *  - `lookup` and `childLookup` are the model's route-binding methods, None when no row matches.
   */
  datatype Host = Host(
    reflection: Reflection,
    snake: string -> string,
    hasCase: (TypeName, string) -> bool,
    stringOf: Obj -> Option<string>,
    make: TypeName -> Obj,
    traitsOf: TypeName -> seq<TypeName>,
    lookup: (Obj, BindingMethod, Value, Option<string>) -> Option<Obj>,
    childLookup: (Value, ChildBindingMethod, string, Value, Option<string>) -> Option<Obj>)

  /** The route the request matched: its parameters, its binding flags and its binding fields. */
  datatype Route = Route(
    parameters: Bag,
    enforcesScopedBindings: bool,
    allowsTrashedBindings: bool,
    bindingFieldFor: string -> Option<string>)

  /** Why binding stopped. */
  datatype BindError =
    | DescriptorError(reason: DescribeError)
    | EnumCaseNotFound(enumType: TypeName, value: string)
    | ModelNotFound(model: TypeName, ids: seq<Value>)
    | NotStringable(offending: Value)

  /** The class to bind: a class name, or an existing object of that class. */
  datatype Target = ClassString(decl: ClassDecl) | ObjectOf(decl: ClassDecl, handle: nat)

  /** How the instance came about. */
  datatype Instantiation =
    | Bare(cls: TypeName)                          // created without running a constructor
    | Constructed(cls: TypeName, arguments: Bag)   // constructor called with the bag
    | Given(obj: Obj)                              // the object the caller passed

  /** What `bind` returns: the instance itself, or the result of calling a method on it with the bag. */
  datatype Outcome =
    | Returned(instance: Instantiation)
    | Invoked(instance: Instantiation, name: string, arguments: Bag)

  /** The lookup `bindUrlRoutable` performs on a model instance or on the parent model. */
  datatype Lookup =
    | Plain(instance: Obj, via: BindingMethod, value: Value, field: Option<string>)
    | Scoped(parent: Value, childVia: ChildBindingMethod, childType: string, value: Value, field: Option<string>)

  /** The state of a coercion pass: the bag so far, and the error that stopped it, if any. */
  datatype Run = Run(bag: Bag, failure: Option<BindError>)

  /** `getParameterName`: the bag key for a signature parameter. */
  function ParameterName(host: Host, bag: Bag, name: string): (r: Option<string>)
    ensures r.Some? ==> r.value in Keys(bag)
    ensures r.Some? ==> r.value == name || r.value == host.snake(name)
    ensures r.None? <==> name !in Keys(bag) && host.snake(name) !in Keys(bag)
    ensures name in Keys(bag) ==> r == Some(name)
  {
    if name in Keys(bag) then Some(name)
    else if host.snake(name) in Keys(bag) then Some(host.snake(name))
    else None
  }

  /** The guard `! ($name = $this->getParameterName(...))`: a falsy key counts as none. */
  function BagKey(host: Host, bag: Bag, name: string): (r: Option<string>)
    ensures r.Some? ==> r.value in Keys(bag) && Truthy(r.value)
    ensures r.Some? <==> ParameterName(host, bag, name).Some? && Truthy(ParameterName(host, bag, name).value)
  {
    var n := ParameterName(host, bag, name);
    if n.Some? && Truthy(n.value) then n else None
  }

  /** `getParentOfParameter`: the value just before `k` in bag order, none for the first key. */
  function ParentOf(bag: Bag, k: string): (r: Option<Value>)
    ensures k !in Keys(bag) ==> r.None?
    ensures forall i :: 0 <= i < |bag| && bag[i].0 == k ==>
      r == (if i == 0 then None else Some(bag[i - 1].1))
  {
    match IndexOfKey(Keys(bag), k)
    case None => None
    case Some(i) => if i == 0 then None else Some(bag[i - 1].1)
  }

  /** PHP's `instanceof` on a bag value; a raw value is a scalar and never an instance. */
  predicate InstanceOf(refl: Reflection, v: Value, t: TypeName)
    ensures InstanceOf(refl, v, t) ==> !v.Raw?
    ensures v.Instance? ==> (InstanceOf(refl, v, t) <==> IsA(refl, v.obj.cls, t))
    ensures v.EnumCase? ==> (InstanceOf(refl, v, t) <==> IsA(refl, v.enumType, t))
  {
    match v
    case Raw(_) => false
    case EnumCase(e, _) => IsA(refl, e, t)
    case Instance(o) => IsA(refl, o.cls, t)
  }

  /** `(string) $value`: None where PHP throws, for an enum case or an object without `__toString`. */
  function StringOf(host: Host, v: Value): (r: Option<string>)
    ensures v.Raw? ==> r == Some(v.text)
    ensures v.EnumCase? ==> r.None?
    ensures v.Instance? ==> (r.Some? <==> host.stringOf(v.obj).Some?)
  {
    match v
    case Raw(s) => Some(s)
    case EnumCase(_, _) => None
    case Instance(o) => host.stringOf(o)
  }

  predicate UsesSoftDeletes(host: Host, o: Obj) {
    SOFT_DELETES in host.traitsOf(o.cls)
  }

  /** `getBindingMethod`. */
  function BindingMethodFor(host: Host, route: Route, o: Obj): (m: BindingMethod)
    ensures m == ResolveSoftDeletableRouteBinding <==> route.allowsTrashedBindings && UsesSoftDeletes(host, o)
  {
    if route.allowsTrashedBindings && UsesSoftDeletes(host, o) then ResolveSoftDeletableRouteBinding
    else ResolveRouteBinding
  }

  /** `getChildBindingMethod`. */
  function ChildBindingMethodFor(host: Host, route: Route, o: Obj): (m: ChildBindingMethod)
    ensures m == ResolveSoftDeletableChildRouteBinding <==> route.allowsTrashedBindings && UsesSoftDeletes(host, o)
  {
    if route.allowsTrashedBindings && UsesSoftDeletes(host, o) then ResolveSoftDeletableChildRouteBinding
    else ResolveChildRouteBinding
  }

  /** The scoping condition of `bindUrlRoutable`. */
  predicate ScopedToParent(host: Host, route: Route, bag: Bag, key: string) {
    var parent := ParentOf(bag, key);
    var field := route.bindingFieldFor(key);
    parent.Some? && InstanceOf(host.reflection, parent.value, URL_ROUTABLE)
    && (route.enforcesScopedBindings || (field.Some? && Truthy(field.value)))
  }

  /** The lookup `bindUrlRoutable` performs for bag key `key` and model type `modelType`. */
  function LookupFor(host: Host, route: Route, bag: Bag, key: string, modelType: TypeName): (r: Lookup)
    requires key in Keys(bag)
    ensures r.Scoped? <==> ScopedToParent(host, route, bag, key)
    ensures r.value == Get(bag, key).value && r.field == route.bindingFieldFor(key)
    ensures r.Scoped? ==> r.parent == ParentOf(bag, key).value && r.childType == key
    ensures r.Plain? ==> r.instance == host.make(modelType)
    ensures r.Plain? ==> (r.via.ResolveSoftDeletableRouteBinding? <==>
      route.allowsTrashedBindings && UsesSoftDeletes(host, host.make(modelType)))
    ensures r.Scoped? ==> (r.childVia.ResolveSoftDeletableChildRouteBinding? <==>
      route.allowsTrashedBindings && UsesSoftDeletes(host, host.make(modelType)))
  {
    var value := Get(bag, key).value;
    var instance := host.make(modelType);
    var field := route.bindingFieldFor(key);
    if ScopedToParent(host, route, bag, key) then
      Scoped(ParentOf(bag, key).value, ChildBindingMethodFor(host, route, instance), key, value, field)
    else
      Plain(instance, BindingMethodFor(host, route, instance), value, field)
  }

  /**
   * Carry out a lookup: a plain lookup asks the model instance, a scoped one
   * asks the parent, for the child named by the bag key.
   */
  function Perform(host: Host, l: Lookup): (r: Option<Obj>)
    ensures l.Plain? ==> r == host.lookup(l.instance, l.via, l.value, l.field)
    ensures l.Scoped? ==> r == host.childLookup(l.parent, l.childVia, l.childType, l.value, l.field)
  {
    match l
    case Plain(instance, via, value, field) => host.lookup(instance, via, value, field)
    case Scoped(parent, via, childType, value, field) => host.childLookup(parent, via, childType, value, field)
  }

  /** `bindEnum`: what one string-backed enum dependency does to the bag. */
  function EnumStep(host: Host, bag: Bag, dep: ParameterDescriptor): (r: Result<Bag, BindError>)
    requires HasStringBackedEnums(host.reflection, dep)
    ensures r.Failure? ==> r.error.EnumCaseNotFound? || r.error.NotStringable?
    ensures BagKey(host, bag, dep.name).None? ==> r == Success(bag)
    ensures r.Success? ==> Keys(r.value) == Keys(bag)
    ensures r.Success? ==> forall j :: BagKey(host, bag, dep.name) != Some(j) ==> Get(r.value, j) == Get(bag, j)
    ensures BagKey(host, bag, dep.name).Some? ==>
      var key := BagKey(host, bag, dep.name).value;
      var first := StringBackedEnums(host.reflection, dep)[0];
      match StringOf(host, Get(bag, key).value)
      case None => r == Failure(NotStringable(Get(bag, key).value))
      case Some(s) =>
        (r.Success? <==> host.hasCase(first, s))
        && (r.Success? ==> Get(r.value, key) == Some(EnumCase(first, s)))
        && (r.Failure? ==> r.error == EnumCaseNotFound(first, s))
  {
    match BagKey(host, bag, dep.name)
    case None => Success(bag)
    case Some(key) =>
      var value := Get(bag, key).value;
      var first := StringBackedEnums(host.reflection, dep)[0];
      match StringOf(host, value)
      case None => Failure(NotStringable(value))
      case Some(s) =>
        if host.hasCase(first, s) then Success(Put(bag, key, EnumCase(first, s)))
        else Failure(EnumCaseNotFound(first, s))
  }

  /** `bindUrlRoutable`: what one routable dependency does to the bag. */
  function RoutableStep(host: Host, route: Route, bag: Bag, dep: ParameterDescriptor): (r: Result<Bag, BindError>)
    requires HasType(host.reflection, dep, URL_ROUTABLE)
    ensures r.Failure? ==> r.error.ModelNotFound?
    ensures BagKey(host, bag, dep.name).None? ==> r == Success(bag)
    ensures r.Success? ==> Keys(r.value) == Keys(bag)
    ensures r.Success? ==> forall j :: BagKey(host, bag, dep.name) != Some(j) ==> Get(r.value, j) == Get(bag, j)
    ensures BagKey(host, bag, dep.name).Some? ==>
      var key := BagKey(host, bag, dep.name).value;
      var value := Get(bag, key).value;
      var modelType := GetType(host.reflection, dep, URL_ROUTABLE)[0];
      if InstanceOf(host.reflection, value, URL_ROUTABLE) then r == Success(bag)
      else match Perform(host, LookupFor(host, route, bag, key, modelType))
        case Some(model) => r.Success? && Get(r.value, key) == Some(Instance(model))
        case None => r == Failure(ModelNotFound(modelType, [value]))
  {
    match BagKey(host, bag, dep.name)
    case None => Success(bag)
    case Some(key) =>
      var value := Get(bag, key).value;
      if InstanceOf(host.reflection, value, URL_ROUTABLE) then Success(bag)
      else
        var modelType := GetType(host.reflection, dep, URL_ROUTABLE)[0];
        match Perform(host, LookupFor(host, route, bag, key, modelType))
        case Some(model) => Success(Put(bag, key, Instance(model)))
        case None => Failure(ModelNotFound(modelType, [value]))
  }

  predicate AllStringBackedEnums(refl: Reflection, deps: seq<ParameterDescriptor>) {
    forall i :: 0 <= i < |deps| ==> HasStringBackedEnums(refl, deps[i])
  }

  predicate AllRoutable(refl: Reflection, deps: seq<ParameterDescriptor>) {
    forall i :: 0 <= i < |deps| ==> HasType(refl, deps[i], URL_ROUTABLE)
  }

  /** The `foreach` of `bindEnums`: the steps in order, stopping at the first error. */
  function EnumsRun(host: Host, bag: Bag, deps: seq<ParameterDescriptor>): (r: Run)
    requires AllStringBackedEnums(host.reflection, deps)
    ensures Keys(r.bag) == Keys(bag)
    ensures r.failure.Some? ==> r.failure.value.EnumCaseNotFound? || r.failure.value.NotStringable?
    decreases |deps|
  {
    if deps == [] then Run(bag, None)
    else match EnumStep(host, bag, deps[0])
      case Failure(e) => Run(bag, Some(e))
      case Success(next) => EnumsRun(host, next, deps[1..])
  }

  /** The `foreach` of `bindUrlRoutables`: the steps in order, stopping at the first error. */
  function RoutablesRun(host: Host, route: Route, bag: Bag, deps: seq<ParameterDescriptor>): (r: Run)
    requires AllRoutable(host.reflection, deps)
    ensures Keys(r.bag) == Keys(bag)
    ensures r.failure.Some? ==> r.failure.value.ModelNotFound?
    decreases |deps|
  {
    if deps == [] then Run(bag, None)
    else match RoutableStep(host, route, bag, deps[0])
      case Failure(e) => Run(bag, Some(e))
      case Success(next) => RoutablesRun(host, route, next, deps[1..])
  }

  /** The dependencies `bindEnums` walks: those with a string-backed enum type, in order. */
  function EnumDependencies(refl: Reflection, d: BoundDescriptor): (r: seq<ParameterDescriptor>)
    ensures AllStringBackedEnums(refl, r)
    ensures Subsequence(r, d.dependencies)
    ensures forall p :: p in r <==> p in d.dependencies && HasStringBackedEnums(refl, p)
  {
    FilterSubsequence(GetDependencies(refl, d, None), p => HasStringBackedEnums(refl, p));
    Filter(GetDependencies(refl, d, None), p => HasStringBackedEnums(refl, p))
  }

  /** The dependencies `bindUrlRoutables` walks: those typed as routable, in order. */
  function RoutableDependencies(refl: Reflection, d: BoundDescriptor): (r: seq<ParameterDescriptor>)
    ensures AllRoutable(refl, r)
    ensures Subsequence(r, d.dependencies)
    ensures forall p :: p in r <==> p in d.dependencies && HasType(refl, p, URL_ROUTABLE)
  {
    GetDependencies(refl, d, Some(URL_ROUTABLE))
  }

  /** Both coercion passes, enums first; the routable pass only runs when the enum pass succeeded. */
  function Coerce(host: Host, route: Route, d: BoundDescriptor, bag: Bag): (r: Run)
    ensures Keys(r.bag) == Keys(bag)
    ensures r.failure.Some? ==> r.failure.value.EnumCaseNotFound? || r.failure.value.NotStringable? || r.failure.value.ModelNotFound?
    ensures d.dependencies == [] ==> r == Run(bag, None)
  {
    var enums := EnumsRun(host, bag, EnumDependencies(host.reflection, d));
    if enums.failure.Some? then enums
    else RoutablesRun(host, route, enums.bag, RoutableDependencies(host.reflection, d))
  }

  /** `createClass`. */
  function CreateClass(target: Target, d: BoundDescriptor, bag: Bag): (r: Instantiation)
    ensures target.ObjectOf? ==> r == Given(Obj(target.decl.name, target.handle))
    ensures target.ClassString? ==> (r.Constructed? <==> HasConstructor(d))
    ensures r.Constructed? ==> r.arguments == bag
    ensures !r.Given? ==> r.cls == d.cls.name
  {
    match target
    case ObjectOf(decl, handle) => Given(Obj(decl.name, handle))
    case ClassString(_) => if HasConstructor(d) then Constructed(d.cls.name, bag) else Bare(d.cls.name)
  }

  /** The part of `bind` after coercion. */
  function Finish(target: Target, d: BoundDescriptor, bag: Bag): (r: Outcome)
    ensures d.selected.None? && !HasConstructor(d) ==> r == Returned(Bare(d.cls.name))
    ensures r.Returned? <==> d.selected.None? || d.selected.value.name == CONSTRUCT
    ensures r.Invoked? ==> r.name == d.selected.value.name && r.arguments == bag
    ensures d.selected.Some? || HasConstructor(d) ==> r.instance == CreateClass(target, d, bag)
  {
    if d.selected.None? && !HasConstructor(d) then Returned(Bare(d.cls.name))
    else
      var instance := CreateClass(target, d, bag);
      if d.selected.None? || d.selected.value.name == CONSTRUCT then Returned(instance)
      else Invoked(instance, d.selected.value.name, bag)
  }

  /** Every bag `o` hands over, to the constructor or to the method, has the keys `ks`. */
  predicate HandsOver(o: Outcome, ks: seq<string>) {
    (o.instance.Constructed? ==> Keys(o.instance.arguments) == ks)
    && (o.Invoked? ==> Keys(o.arguments) == ks)
  }

  /**
   * `bind` on a binder holding `bag`: coercion only ever replaces values, so
   * whatever is handed over has the bag's keys; the only errors are those of
   * the two passes; and without dependencies the bag is handed over as it is.
   */
  function BindSpec(host: Host, route: Route, target: Target, d: BoundDescriptor, bag: Bag): (r: Result<Outcome, BindError>)
    ensures r.Success? ==> HandsOver(r.value, Keys(bag))
    ensures r.Failure? ==> r.error.EnumCaseNotFound? || r.error.NotStringable? || r.error.ModelNotFound?
    ensures d.dependencies == [] ==> r == Success(Finish(target, d, bag))
  {
    var run := Coerce(host, route, d, bag);
    if run.failure.Some? then Failure(run.failure.value) else Success(Finish(target, d, run.bag))
  }

  /**
   * `Binder::call` and `Binder::make`: build the binder, then bind. A
   * descriptor error arises exactly when the descriptor cannot be built, and
   * the bag handed over never loses a route key: the route keys come first,
   * in place, then the new override keys in override order.
   */
  function CallSpec(host: Host, route: Route, target: Target, name: Option<string>, overrides: Bag): (r: Result<Outcome, BindError>)
    ensures (r.Failure? && r.error.DescriptorError?) <==> DescribeBound(target.decl, name).Failure?
    ensures r.Success? ==>
      HandsOver(r.value, Keys(route.parameters) + NewKeys(Keys(overrides), Keys(route.parameters)))
  {
    ReplaceKeys(route.parameters, overrides);
    ReplaceUnique(route.parameters, overrides);
    match DescribeBound(target.decl, name)
    case Failure(e) => Failure(DescriptorError(e))
    case Success(d) => BindSpec(host, route, target, d, Replace(route.parameters, overrides))
  }

  /** How a step's result shows in the binder's state and the error it reports. */
  predicate Applied(step: Result<Bag, BindError>, before: Bag, after: Bag, failure: Option<BindError>) {
    match step
    case Success(b) => after == b && failure.None?
    case Failure(e) => after == before && failure == Some(e)
  }

  class Binder {
    const host: Host
    const route: Route
    const target: Target
    const descriptor: BoundDescriptor
    var parameters: Bag

    /** The constructor: the bag is the route's parameters with the overrides merged in. */
    constructor(host: Host, route: Route, target: Target, descriptor: BoundDescriptor, overrides: Bag)
      ensures this.host == host && this.route == route && this.target == target && this.descriptor == descriptor
      ensures parameters == Replace(route.parameters, overrides)
    {
      this.host := host;
      this.route := route;
      this.target := target;
      this.descriptor := descriptor;
      ReplaceUnique(route.parameters, overrides);
      parameters := Replace(route.parameters, overrides);
    }

    /** The constructor together with the descriptor it builds for `name` on the target's class. */
    static method Create(host: Host, route: Route, target: Target, name: Option<string>, overrides: Bag)
      returns (r: Result<Binder, DescribeError>)
      ensures r.Failure? <==> DescribeBound(target.decl, name).Failure?
      ensures r.Failure? ==> r.error == DescribeBound(target.decl, name).error
      ensures r.Success? ==> fresh(r.value) && r.value.descriptor == DescribeBound(target.decl, name).value
      ensures r.Success? ==> r.value.host == host && r.value.route == route && r.value.target == target
      ensures r.Success? ==> r.value.parameters == Replace(route.parameters, overrides)
    {
      var d := DescribeBound(target.decl, name);
      if d.Failure? {
        return Failure(d.error);
      }
      var b := new Binder(host, route, target, d.value, overrides);
      return Success(b);
    }

    /** `bindEnum`. */
    method BindEnum(dep: ParameterDescriptor) returns (failure: Option<BindError>)
      requires HasStringBackedEnums(host.reflection, dep)
      modifies this
      ensures Applied(EnumStep(host, old(parameters), dep), old(parameters), parameters, failure)
    {
      var name := ParameterName(host, parameters, dep.name);
      if name.None? || !Truthy(name.value) {
        return None;
      }
      var key := name.value;
      var value := Get(parameters, key).value;
      var enumClass := StringBackedEnums(host.reflection, dep)[0];
      var s := StringOf(host, value);
      if s.None? {
        return Some(NotStringable(value));
      }
      if !host.hasCase(enumClass, s.value) {
        return Some(EnumCaseNotFound(enumClass, s.value));
      }
      parameters := Put(parameters, key, EnumCase(enumClass, s.value));
      return None;
    }

    /** `bindEnums`. */
    method BindEnums() returns (failure: Option<BindError>)
      modifies this
      ensures Run(parameters, failure) == EnumsRun(host, old(parameters), EnumDependencies(host.reflection, descriptor))
    {
      var deps := EnumDependencies(host.reflection, descriptor);
      var i := 0;
      while i < |deps|
        invariant 0 <= i <= |deps|
        invariant EnumsRun(host, old(parameters), deps) == EnumsRun(host, parameters, deps[i..])
      {
        assert deps[i..][1..] == deps[i + 1..];
        failure := BindEnum(deps[i]);
        if failure.Some? {
          return;
        }
        i := i + 1;
      }
      return None;
    }

    /** `bindUrlRoutable`. */
    method BindUrlRoutable(dep: ParameterDescriptor) returns (failure: Option<BindError>)
      requires HasType(host.reflection, dep, URL_ROUTABLE)
      modifies this
      ensures Applied(RoutableStep(host, route, old(parameters), dep), old(parameters), parameters, failure)
    {
      var name := ParameterName(host, parameters, dep.name);
      if name.None? || !Truthy(name.value) {
        return None;
      }
      var key := name.value;
      var value := Get(parameters, key).value;
      if InstanceOf(host.reflection, value, URL_ROUTABLE) {
        return None;
      }
      var modelType := GetType(host.reflection, dep, URL_ROUTABLE)[0];
      var instance := host.make(modelType);
      var parent := ParentOf(parameters, key);
      var routeBindingMethod := BindingMethodFor(host, route, instance);
      var routeBindingField := route.bindingFieldFor(key);
      var model: Option<Obj>;
      if parent.Some? && InstanceOf(host.reflection, parent.value, URL_ROUTABLE)
         && (route.enforcesScopedBindings || (routeBindingField.Some? && Truthy(routeBindingField.value)))
      {
        var childRouteBindingMethod := ChildBindingMethodFor(host, route, instance);
        model := host.childLookup(parent.value, childRouteBindingMethod, key, value, routeBindingField);
      } else {
        model := host.lookup(instance, routeBindingMethod, value, routeBindingField);
      }
      if model.Some? {
        parameters := Put(parameters, key, Instance(model.value));
        return None;
      }
      return Some(ModelNotFound(modelType, [value]));
    }

    /** `bindUrlRoutables`. */
    method BindUrlRoutables() returns (failure: Option<BindError>)
      modifies this
      ensures Run(parameters, failure) == RoutablesRun(host, route, old(parameters), RoutableDependencies(host.reflection, descriptor))
    {
      var deps := RoutableDependencies(host.reflection, descriptor);
      var i := 0;
      while i < |deps|
        invariant 0 <= i <= |deps|
        invariant RoutablesRun(host, route, old(parameters), deps) == RoutablesRun(host, route, parameters, deps[i..])
      {
        assert deps[i..][1..] == deps[i + 1..];
        failure := BindUrlRoutable(deps[i]);
        if failure.Some? {
          return;
        }
        i := i + 1;
      }
      return None;
    }

    /** `bind`. */
    method Bind() returns (r: Result<Outcome, BindError>)
      modifies this
      ensures r == BindSpec(host, route, target, descriptor, old(parameters))
      ensures parameters == Coerce(host, route, descriptor, old(parameters)).bag
    {
      var failure := BindEnums();
      if failure.Some? {
        return Failure(failure.value);
      }
      failure := BindUrlRoutables();
      if failure.Some? {
        return Failure(failure.value);
      }
      var selected := descriptor.selected;
      if selected.None? && !HasConstructor(descriptor) {
        return Success(Returned(Bare(descriptor.cls.name)));
      }
      var instance := CreateClass(target, descriptor, parameters);
      if selected.None? || selected.value.name == CONSTRUCT {
        return Success(Returned(instance));
      }
      return Success(Invoked(instance, selected.value.name, parameters));
    }

    /** `Binder::call`. */
    static method Call(host: Host, route: Route, target: Target, name: string, overrides: Bag)
      returns (r: Result<Outcome, BindError>)
      ensures r == CallSpec(host, route, target, Some(name), overrides)
    {
      var b := Create(host, route, target, Some(name), overrides);
      if b.Failure? {
        return Failure(DescriptorError(b.error));
      }
      r := b.value.Bind();
    }

    /** `Binder::make`: the method defaults to the constructor. */
    static method Make(host: Host, route: Route, target: Target, overrides: Bag)
      returns (r: Result<Outcome, BindError>)
      requires target.ClassString?
      ensures r == CallSpec(host, route, target, Some(CONSTRUCT), overrides)
    {
      var b := Create(host, route, target, Some(CONSTRUCT), overrides);
      if b.Failure? {
        return Failure(DescriptorError(b.error));
      }
      r := b.value.Bind();
    }
  }
}
