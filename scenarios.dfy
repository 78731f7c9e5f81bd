/**
 * The binder on the fixtures of the package's tests: an enum parameter
 * bound from the route, a parent and a child model declared child first,
 * and a method taking the parent before the child. The framework is left
 * abstract; each lemma names only the facts about it that the scenario uses.
 */
module BindingScenarios {
  import opened Wrappers
  import opened Collections
  import opened PhpArrays
  import opened ParameterDescriptors
  import opened MethodDescriptors
  import opened BoundDescriptors
  import opened Binding
  import opened BindingProperties

  const BINDABLE_ENUM: TypeName := "AidanCasey\\Laravel\\RouteBinding\\Tests\\Fake\\Enums\\BindableEnum"
  const UNBINDABLE_ENUM: TypeName := "AidanCasey\\Laravel\\RouteBinding\\Tests\\Fake\\Enums\\UnbindableEnum"
  const DOG: TypeName := "AidanCasey\\Laravel\\RouteBinding\\Tests\\Fake\\Models\\Dog"
  const USER: TypeName := "Illuminate\\Foundation\\Auth\\User"

  /** `EnumBind`: a constructor taking `BindableEnum $enum`. */
  const ENUM_BIND: ClassDecl :=
    ClassDecl("AidanCasey\\Laravel\\RouteBinding\\Tests\\Fake\\Bindables\\EnumBind",
      [MethodDecl(CONSTRUCT, [ParamDecl("enum", Some(Named(BINDABLE_ENUM)))])])

  /** `UnbackedEnumBind`: a constructor taking `UnbindableEnum $enum`. */
  const UNBACKED_ENUM_BIND: ClassDecl :=
    ClassDecl("AidanCasey\\Laravel\\RouteBinding\\Tests\\Fake\\Bindables\\UnbackedEnumBind",
      [MethodDecl(CONSTRUCT, [ParamDecl("enum", Some(Named(UNBINDABLE_ENUM)))])])

  /** `ParentAndChildBind`: a constructor taking `Dog $dog, User $user`, child first. */
  const PARENT_AND_CHILD_BIND: ClassDecl :=
    ClassDecl("AidanCasey\\Laravel\\RouteBinding\\Tests\\Fake\\Bindables\\ParentAndChildBind",
      [MethodDecl(CONSTRUCT, [ParamDecl("dog", Some(Named(DOG))), ParamDecl("user", Some(Named(USER)))])])

  /** `MethodBind`: no constructor, and `execute(User $user, Dog $dog)`, parent first. */
  const METHOD_BIND: ClassDecl :=
    ClassDecl("AidanCasey\\Laravel\\RouteBinding\\Tests\\Fake\\Bindables\\MethodBind",
      [MethodDecl("execute", [ParamDecl("user", Some(Named(USER))), ParamDecl("dog", Some(Named(DOG)))])])

  /** A route `option/{enum}` matched with `value`. */
  predicate EnumRoute(route: Route, value: string) {
    route.parameters == [("enum", Raw(value))]
  }

  /** A route `users/{user}/dogs/{dog}` matched as `users/1/dogs/1`. */
  predicate UserDogRoute(route: Route) {
    route.parameters == [("user", Raw("1")), ("dog", Raw("1"))]
  }

  /** Dogs and users are models, and neither is an enum. */
  predicate ModelsAreRoutable(refl: Reflection) {
    refl.isSubclassOf(DOG, URL_ROUTABLE) && refl.isSubclassOf(USER, URL_ROUTABLE)
    && refl.enumKind(DOG) == NotAnEnum && refl.enumKind(USER) == NotAnEnum
  }

  /** `option/test1`: the raw value becomes the enum case backed by "test1", handed to the constructor. */
  lemma EnumBindBindsCase(host: Host, route: Route)
    requires EnumRoute(route, "test1")
    requires host.reflection.enumKind(BINDABLE_ENUM) == StringBacked
    requires host.hasCase(BINDABLE_ENUM, "test1")
    requires !host.reflection.isSubclassOf(BINDABLE_ENUM, URL_ROUTABLE)
    ensures CallSpec(host, route, ClassString(ENUM_BIND), Some(CONSTRUCT), [])
      == Success(Returned(Constructed(ENUM_BIND.name, [("enum", EnumCase(BINDABLE_ENUM, "test1"))])))
  {
    var d := EnumDescriptor(host.reflection);
    var bag := route.parameters;
    assert Keys(bag) == ["enum"];
    var bound := [("enum", EnumCase(BINDABLE_ENUM, "test1"))];
    EnumStepOnEnumBind(host, bag);
    assert IndexOfKey(Keys(bag), "enum") == Some(0);
    assert Get(bag, "enum") == Some(Raw("test1"));
    assert Put(bag, "enum", EnumCase(BINDABLE_ENUM, "test1")) == bound;
    assert EnumStep(host, bag, d.dependencies[0]) == Success(bound);
    assert EnumsRun(host, bag, d.dependencies) == Run(bound, None) by {
      assert d.dependencies[1..] == [];
    }
    assert RoutableDependencies(host.reflection, d) == [] by {
      assert !HasType(host.reflection, d.dependencies[0], URL_ROUTABLE);
    }
  }

  /** `option/test4`: no case is backed by "test4", and binding fails naming the enum and the value. */
  lemma EnumBindRejectsUnknownCase(host: Host, route: Route)
    requires EnumRoute(route, "test4")
    requires host.reflection.enumKind(BINDABLE_ENUM) == StringBacked
    requires !host.hasCase(BINDABLE_ENUM, "test4")
    ensures CallSpec(host, route, ClassString(ENUM_BIND), Some(CONSTRUCT), [])
      == Failure(EnumCaseNotFound(BINDABLE_ENUM, "test4"))
  {
    var d := EnumDescriptor(host.reflection);
    var bag := route.parameters;
    assert Keys(bag) == ["enum"];
    EnumStepOnEnumBind(host, bag);
    assert IndexOfKey(Keys(bag), "enum") == Some(0);
    assert Get(bag, "enum") == Some(Raw("test4"));
    assert EnumStep(host, bag, d.dependencies[0]) == Failure(EnumCaseNotFound(BINDABLE_ENUM, "test4"));
  }

  /** The one enum step of `EnumBind`: the key is `enum` itself and the enum tried is `BindableEnum`. */
  lemma EnumStepOnEnumBind(host: Host, bag: Bag)
    requires Keys(bag) == ["enum"]
    requires host.reflection.enumKind(BINDABLE_ENUM) == StringBacked
    ensures var dep := ParameterDescriptor("enum", [BINDABLE_ENUM]);
      HasStringBackedEnums(host.reflection, dep)
      && BagKey(host, bag, "enum") == Some("enum")
      && StringBackedEnums(host.reflection, dep) == [BINDABLE_ENUM]
  {
    var dep := ParameterDescriptor("enum", [BINDABLE_ENUM]);
    assert Filter(dep.types, t => IsStringBackedEnum(host.reflection, t)) == [BINDABLE_ENUM];
  }

  /** The descriptor `make` builds for `EnumBind`, with the dependency it walks. */
  function EnumDescriptor(refl: Reflection): (d: BoundDescriptor)
    requires refl.enumKind(BINDABLE_ENUM) == StringBacked
    ensures DescribeBound(ENUM_BIND, Some(CONSTRUCT)) == Success(d)
    ensures d.dependencies == [ParameterDescriptor("enum", [BINDABLE_ENUM])]
    ensures EnumDependencies(refl, d) == d.dependencies
  {
    var decl := ENUM_BIND.methods[0];
    assert FindIn(ENUM_BIND.methods, CONSTRUCT) == Some(decl);
    var dep := ParameterDescriptor("enum", [BINDABLE_ENUM]);
    assert ResolveTypes(Named(BINDABLE_ENUM)) == [BINDABLE_ENUM] by {
      assert UsableMembers(Named(BINDABLE_ENUM)) == [Named(BINDABLE_ENUM)];
    }
    assert DescribeParameter(decl.params[0]) == Success(dep);
    assert DescribeParameters(decl.params[1..]) == Success([]) by {
      assert decl.params[1..] == [];
    }
    assert [dep] + [] == [dep];
    assert DescribeParameters(decl.params) == Success([dep]);
    var d := BoundDescriptor(ENUM_BIND, Some(decl), [dep]);
    assert HasStringBackedEnums(refl, dep) by {
      assert dep.types[0] == BINDABLE_ENUM;
    }
    assert Filter([dep], p => HasStringBackedEnums(refl, p)) == [dep];
    d
  }

  /** The plain lookup of a model of type `t` for the value under `key`. */
  function PlainLookupOf(host: Host, route: Route, t: TypeName, key: string, value: Value): Option<Obj> {
    Perform(host, Plain(host.make(t), BindingMethodFor(host, route, host.make(t)), value, route.bindingFieldFor(key)))
  }

  /** The child lookup of a model of type `t` for the value under `key`, scoped to `parent`. */
  function ChildLookupOf(host: Host, route: Route, parent: Value, t: TypeName, key: string, value: Value): Option<Obj> {
    Perform(host, Scoped(parent, ChildBindingMethodFor(host, route, host.make(t)), key, value, route.bindingFieldFor(key)))
  }

  /** A parameter typed with a single model class. */
  lemma SingleModelType(refl: Reflection, dep: ParameterDescriptor, t: TypeName)
    requires dep.types == [t] && IsA(refl, t, URL_ROUTABLE) && refl.enumKind(t) != StringBacked
    ensures GetType(refl, dep, URL_ROUTABLE) == [t] && HasType(refl, dep, URL_ROUTABLE)
    ensures !HasStringBackedEnums(refl, dep)
  {
    assert Filter(dep.types, t => IsA(refl, t, URL_ROUTABLE)) == [t];
    assert Filter(dep.types, t => IsStringBackedEnum(refl, t)) == [];
  }

  lemma SingleTypeDescribed(p: ParamDecl, t: TypeName)
    requires p.declared == Some(Named(t)) && Truthy(t)
    ensures DescribeParameter(p) == Success(ParameterDescriptor(p.name, [t]))
  {
    assert UsableMembers(Named(t)) == [Named(t)];
    assert ResolveTypes(Named(t)) == [t];
  }

  /** The descriptor built for the only method of a class, when it has two typed parameters. */
  lemma TwoParametersDescribed(cls: ClassDecl, m: string, n1: string, t1: TypeName, n2: string, t2: TypeName)
    requires cls.methods == [MethodDecl(m, [ParamDecl(n1, Some(Named(t1))), ParamDecl(n2, Some(Named(t2)))])]
    requires Truthy(m) && Truthy(t1) && Truthy(t2)
    ensures DescribeBound(cls, Some(m))
      == Success(BoundDescriptor(cls, Some(cls.methods[0]), [ParameterDescriptor(n1, [t1]), ParameterDescriptor(n2, [t2])]))
  {
    var decl := cls.methods[0];
    assert FindIn(cls.methods, m) == Some(decl);
    var d1, d2 := ParameterDescriptor(n1, [t1]), ParameterDescriptor(n2, [t2]);
    var ps := decl.params;
    SingleTypeDescribed(ps[0], t1);
    SingleTypeDescribed(ps[1], t2);
    assert DescribeParameters(ps[1..]) == Success([d2]) by {
      assert ps[1..][0] == ps[1];
      assert ps[1..][1..] == [];
      assert [d2] + [] == [d2];
    }
    assert DescribeParameters(ps) == Success([d1, d2]) by {
      assert [d1] + [d2] == [d1, d2];
    }
  }

  /** Two model dependencies: no enum to bind, and both walked by the routable pass. */
  lemma TwoModelDependencies(refl: Reflection, d: BoundDescriptor, t1: TypeName, t2: TypeName)
    requires |d.dependencies| == 2 && d.dependencies[0].types == [t1] && d.dependencies[1].types == [t2]
    requires IsA(refl, t1, URL_ROUTABLE) && IsA(refl, t2, URL_ROUTABLE)
    requires refl.enumKind(t1) != StringBacked && refl.enumKind(t2) != StringBacked
    ensures EnumDependencies(refl, d) == []
    ensures RoutableDependencies(refl, d) == d.dependencies
    ensures GetType(refl, d.dependencies[0], URL_ROUTABLE) == [t1]
    ensures GetType(refl, d.dependencies[1], URL_ROUTABLE) == [t2]
  {
    var deps := d.dependencies;
    SingleModelType(refl, deps[0], t1);
    SingleModelType(refl, deps[1], t2);
    assert deps[1..] == [deps[1]] && deps[1..][1..] == [];
    assert Filter(deps, p => HasStringBackedEnums(refl, p)) == [];
    assert Filter(deps, p => HasType(refl, p, URL_ROUTABLE)) == deps by {
      assert [deps[0]] + [deps[1]] == deps;
    }
  }

  /** Coercion of a bag by two routable dependencies that both bind. */
  lemma CoerceTwoModels(host: Host, route: Route, d: BoundDescriptor, bag: Bag, bag1: Bag, bag2: Bag)
    requires EnumDependencies(host.reflection, d) == [] && RoutableDependencies(host.reflection, d) == d.dependencies
    requires |d.dependencies| == 2
    requires RoutableStep(host, route, bag, d.dependencies[0]) == Success(bag1)
    requires RoutableStep(host, route, bag1, d.dependencies[1]) == Success(bag2)
    ensures Coerce(host, route, d, bag) == Run(bag2, None)
  {
    var deps := d.dependencies;
    assert EnumsRun(host, bag, []) == Run(bag, None);
    assert deps[1..][0] == deps[1] && deps[1..][1..] == [];
    assert RoutablesRun(host, route, bag2, deps[1..][1..]) == Run(bag2, None);
    assert RoutablesRun(host, route, bag1, deps[1..]) == Run(bag2, None);
    assert RoutablesRun(host, route, bag, deps) == Run(bag2, None);
  }

  /** Looking up keys of a two-entry bag. */
  lemma TwoEntries(k1: string, x: Value, k2: string, y: Value)
    requires k1 != k2
    ensures Keys([(k1, x), (k2, y)]) == [k1, k2]
    ensures IndexOfKey([k1, k2], k1) == Some(0) && IndexOfKey([k1, k2], k2) == Some(1)
    ensures Get([(k1, x), (k2, y)], k1) == Some(x) && Get([(k1, x), (k2, y)], k2) == Some(y)
    ensures ParentOf([(k1, x), (k2, y)], k1) == None && ParentOf([(k1, x), (k2, y)], k2) == Some(x)
  {
    assert [k1, k2][1..] == [k2];
  }

  /** Assigning to a key of a two-entry bag. */
  lemma PutTwoEntries(k1: string, x: Value, k2: string, y: Value, v: Value)
    requires k1 != k2
    ensures Put([(k1, x), (k2, y)], k1, v) == [(k1, v), (k2, y)]
    ensures Put([(k1, x), (k2, y)], k2, v) == [(k1, x), (k2, v)]
  {
    TwoEntries(k1, x, k2, y);
  }

  /** The routable step for the first key of a two-entry bag: no parent, so a plain lookup. */
  lemma BindFirstOfTwo(host: Host, route: Route, k1: string, x: Value, k2: string, y: Value, dep: ParameterDescriptor, t: TypeName, model: Obj)
    requires k1 != k2 && dep.name == k1 && Truthy(k1)
    requires HasType(host.reflection, dep, URL_ROUTABLE) && GetType(host.reflection, dep, URL_ROUTABLE) == [t]
    requires !InstanceOf(host.reflection, x, URL_ROUTABLE)
    requires PlainLookupOf(host, route, t, k1, x) == Some(model)
    ensures RoutableStep(host, route, [(k1, x), (k2, y)], dep) == Success([(k1, Instance(model)), (k2, y)])
  {
    TwoEntries(k1, x, k2, y);
    PutTwoEntries(k1, x, k2, y, Instance(model));
  }

  /** The routable step for the second key of a two-entry bag, scoped to a routable first value. */
  lemma BindSecondScoped(host: Host, route: Route, k1: string, x: Value, k2: string, y: Value, dep: ParameterDescriptor, t: TypeName, model: Obj)
    requires k1 != k2 && dep.name == k2 && Truthy(k2)
    requires HasType(host.reflection, dep, URL_ROUTABLE) && GetType(host.reflection, dep, URL_ROUTABLE) == [t]
    requires !InstanceOf(host.reflection, y, URL_ROUTABLE) && InstanceOf(host.reflection, x, URL_ROUTABLE)
    requires route.enforcesScopedBindings || (route.bindingFieldFor(k2).Some? && Truthy(route.bindingFieldFor(k2).value))
    requires ChildLookupOf(host, route, x, t, k2, y) == Some(model)
    ensures RoutableStep(host, route, [(k1, x), (k2, y)], dep) == Success([(k1, x), (k2, Instance(model))])
  {
    TwoEntries(k1, x, k2, y);
    PutTwoEntries(k1, x, k2, y, Instance(model));
  }

  /** The routable step for the second key of a two-entry bag, when it is not scoped to the first value. */
  lemma BindSecondPlain(host: Host, route: Route, k1: string, x: Value, k2: string, y: Value, dep: ParameterDescriptor, t: TypeName, model: Obj)
    requires k1 != k2 && dep.name == k2 && Truthy(k2)
    requires HasType(host.reflection, dep, URL_ROUTABLE) && GetType(host.reflection, dep, URL_ROUTABLE) == [t]
    requires !InstanceOf(host.reflection, y, URL_ROUTABLE)
    requires !InstanceOf(host.reflection, x, URL_ROUTABLE)
      || (!route.enforcesScopedBindings && (route.bindingFieldFor(k2).None? || !Truthy(route.bindingFieldFor(k2).value)))
    requires PlainLookupOf(host, route, t, k2, y) == Some(model)
    ensures RoutableStep(host, route, [(k1, x), (k2, y)], dep) == Success([(k1, x), (k2, Instance(model))])
  {
    TwoEntries(k1, x, k2, y);
    PutTwoEntries(k1, x, k2, y, Instance(model));
  }

  /**
   * `users/1/dogs/1` made into `ParentAndChildBind(Dog $dog, User $user)`: the dog
   * is bound first, while the user before it in the bag is still raw, so both
   * lookups are plain, whether or not the route enforces scoped bindings.
   */
  lemma ParentAndChildBindsPlainly(host: Host, route: Route, user: Obj, dog: Obj)
    requires UserDogRoute(route) && ModelsAreRoutable(host.reflection)
    requires PlainLookupOf(host, route, DOG, "dog", Raw("1")) == Some(dog)
    requires PlainLookupOf(host, route, USER, "user", Raw("1")) == Some(user)
    ensures CallSpec(host, route, ClassString(PARENT_AND_CHILD_BIND), Some(CONSTRUCT), [])
      == Success(Returned(Constructed(PARENT_AND_CHILD_BIND.name, [("user", Instance(user)), ("dog", Instance(dog))])))
  {
    var refl := host.reflection;
    TwoParametersDescribed(PARENT_AND_CHILD_BIND, CONSTRUCT, "dog", DOG, "user", USER);
    var d := DescribeBound(PARENT_AND_CHILD_BIND, Some(CONSTRUCT)).value;
    TwoModelDependencies(refl, d, DOG, USER);
    var deps := d.dependencies;
    BindSecondPlain(host, route, "user", Raw("1"), "dog", Raw("1"), deps[0], DOG, dog);
    BindFirstOfTwo(host, route, "user", Raw("1"), "dog", Instance(dog), deps[1], USER, user);
    CoerceTwoModels(host, route, d, route.parameters, [("user", Raw("1")), ("dog", Instance(dog))],
      [("user", Instance(user)), ("dog", Instance(dog))]);
  }

  /**
   * `users/1/dogs/1` bound into `execute(User $user, Dog $dog)` on a route that
   * scopes the dog: the user is bound first, becomes the dog's parent, and the
   * dog is looked up through the user. `MethodBind` has no constructor, so a
   * class name gives a bare instance and an object is used as it is.
   */
  lemma MethodBindScopesChildToParent(host: Host, route: Route, target: Target, user: Obj, dog: Obj)
    requires UserDogRoute(route) && ModelsAreRoutable(host.reflection)
    requires target.decl == METHOD_BIND && user.cls == USER
    requires route.enforcesScopedBindings || (route.bindingFieldFor("dog").Some? && Truthy(route.bindingFieldFor("dog").value))
    requires PlainLookupOf(host, route, USER, "user", Raw("1")) == Some(user)
    requires ChildLookupOf(host, route, Instance(user), DOG, "dog", Raw("1")) == Some(dog)
    ensures CallSpec(host, route, target, Some("execute"), [])
      == Success(Invoked(MethodBindInstance(target), "execute", [("user", Instance(user)), ("dog", Instance(dog))]))
  {
    var refl := host.reflection;
    TwoParametersDescribed(METHOD_BIND, "execute", "user", USER, "dog", DOG);
    var d := DescribeBound(METHOD_BIND, Some("execute")).value;
    TwoModelDependencies(refl, d, USER, DOG);
    var deps := d.dependencies;
    BindFirstOfTwo(host, route, "user", Raw("1"), "dog", Raw("1"), deps[0], USER, user);
    assert InstanceOf(refl, Instance(user), URL_ROUTABLE);
    BindSecondScoped(host, route, "user", Instance(user), "dog", Raw("1"), deps[1], DOG, dog);
    CoerceTwoModels(host, route, d, route.parameters, [("user", Instance(user)), ("dog", Raw("1"))],
      [("user", Instance(user)), ("dog", Instance(dog))]);
    assert !HasConstructor(d);
  }

  /** The same binding on a route that does not scope the dog: both lookups are plain. */
  lemma MethodBindUnscoped(host: Host, route: Route, target: Target, user: Obj, dog: Obj)
    requires UserDogRoute(route) && ModelsAreRoutable(host.reflection)
    requires target.decl == METHOD_BIND
    requires !route.enforcesScopedBindings && (route.bindingFieldFor("dog").None? || !Truthy(route.bindingFieldFor("dog").value))
    requires PlainLookupOf(host, route, USER, "user", Raw("1")) == Some(user)
    requires PlainLookupOf(host, route, DOG, "dog", Raw("1")) == Some(dog)
    ensures CallSpec(host, route, target, Some("execute"), [])
      == Success(Invoked(MethodBindInstance(target), "execute", [("user", Instance(user)), ("dog", Instance(dog))]))
  {
    var refl := host.reflection;
    TwoParametersDescribed(METHOD_BIND, "execute", "user", USER, "dog", DOG);
    var d := DescribeBound(METHOD_BIND, Some("execute")).value;
    TwoModelDependencies(refl, d, USER, DOG);
    var deps := d.dependencies;
    BindFirstOfTwo(host, route, "user", Raw("1"), "dog", Raw("1"), deps[0], USER, user);
    BindSecondPlain(host, route, "user", Instance(user), "dog", Raw("1"), deps[1], DOG, dog);
    CoerceTwoModels(host, route, d, route.parameters, [("user", Instance(user)), ("dog", Raw("1"))],
      [("user", Instance(user)), ("dog", Instance(dog))]);
    assert !HasConstructor(d);
  }

  /** The instance `execute` is called on: a bare `MethodBind`, or the object passed in. */
  function MethodBindInstance(target: Target): Instantiation {
    match target
    case ClassString(decl) => Bare(decl.name)
    case ObjectOf(decl, handle) => Given(Obj(decl.name, handle))
  }

  /** `make(MethodBind::class)`: no constructor, so a bare instance comes back. */
  lemma MakeMethodBindIsBare(host: Host, route: Route)
    ensures CallSpec(host, route, ClassString(METHOD_BIND), Some(CONSTRUCT), []) == Success(Returned(Bare(METHOD_BIND.name)))
  {
    assert FindIn(METHOD_BIND.methods, CONSTRUCT).None?;
    MakeWithoutConstructor(host, route, ClassString(METHOD_BIND), []);
  }

  /**
   * `UnbackedEnumBind(UnbindableEnum $enum)`: an enum without a string backing
   * is not coerced, so the constructor gets the route's raw value.
   */
  lemma UnbackedEnumIsNotCoerced(host: Host, route: Route)
    requires host.reflection.enumKind(UNBINDABLE_ENUM) != StringBacked
    requires !IsA(host.reflection, UNBINDABLE_ENUM, URL_ROUTABLE)
    ensures CallSpec(host, route, ClassString(UNBACKED_ENUM_BIND), Some(CONSTRUCT), [])
      == Success(Returned(Constructed(UNBACKED_ENUM_BIND.name, route.parameters)))
  {
    var refl := host.reflection;
    var decl := UNBACKED_ENUM_BIND.methods[0];
    assert FindIn(UNBACKED_ENUM_BIND.methods, CONSTRUCT) == Some(decl);
    var dep := ParameterDescriptor("enum", [UNBINDABLE_ENUM]);
    SingleTypeDescribed(decl.params[0], UNBINDABLE_ENUM);
    assert DescribeParameters(decl.params) == Success([dep]) by {
      assert decl.params[1..] == [];
      assert [dep] + [] == [dep];
    }
    var d := DescribeBound(UNBACKED_ENUM_BIND, Some(CONSTRUCT)).value;
    assert d.dependencies == [dep];
    assert Filter(dep.types, t => IsStringBackedEnum(refl, t)) == [];
    assert Filter(dep.types, t => IsA(refl, t, URL_ROUTABLE)) == [];
    assert EnumDependencies(refl, d) == [];
    assert RoutableDependencies(refl, d) == [];
    assert Replace(route.parameters, []) == route.parameters;
  }
}
