/**
 * The descriptor the binder works from: the reflected class, the method
 * selected on it (if any), and one dependency descriptor per parameter of
 * that method, in declaration order.
 */
module BoundDescriptors {
  import opened Wrappers
  import opened Collections
  import opened PhpArrays
  import opened ParameterDescriptors
  import opened MethodDescriptors

  const CONSTRUCT: string := "__construct"

  /** A reflected class: its name and the methods it has. */
  datatype ClassDecl = ClassDecl(name: TypeName, methods: seq<MethodDecl>)

  datatype BoundDescriptor = BoundDescriptor(cls: ClassDecl, selected: Option<MethodDecl>, dependencies: seq<ParameterDescriptor>)

  /** The first method called `name` in `ms`. */
  function FindIn(ms: seq<MethodDecl>, name: string): (r: Option<MethodDecl>)
    ensures r.Some? ==> r.value in ms && r.value.name == name
    ensures r.None? <==> forall m :: m in ms ==> m.name != name
  {
    if ms == [] then None
    else if ms[0].name == name then Some(ms[0])
    else FindIn(ms[1..], name)
  }

  /** `ReflectionClass::getMethod`, defined when `hasMethod` holds. */
  function FindMethod(cls: ClassDecl, name: string): Option<MethodDecl> {
    FindIn(cls.methods, name)
  }

  /** `ReflectionClass::hasMethod`. */
  predicate HasMethod(cls: ClassDecl, name: string): (b: bool)
    ensures b <==> exists m :: m in cls.methods && m.name == name
  {
    FindMethod(cls, name).Some?
  }

  /** `($method && hasMethod($method)) ? getMethod($method) : null`. */
  function SelectMethod(cls: ClassDecl, name: Option<string>): (r: Option<MethodDecl>)
    ensures r.Some? <==> name.Some? && Truthy(name.value) && HasMethod(cls, name.value)
    ensures r.Some? ==> r.value in cls.methods && r.value.name == name.value
  {
    if name.Some? && Truthy(name.value) && HasMethod(cls, name.value) then FindMethod(cls, name.value) else None
  }

  /** The constructor together with `resolveDependencies`. */
  function DescribeBound(cls: ClassDecl, name: Option<string>): (r: Result<BoundDescriptor, DescribeError>)
    ensures r.Success? <==> SelectMethod(cls, name).None? || DescribeParameters(SelectMethod(cls, name).value.params).Success?
    ensures r.Success? ==> r.value.cls == cls && r.value.selected == SelectMethod(cls, name)
    ensures r.Success? && r.value.selected.None? ==> r.value.dependencies == []
    ensures r.Success? && r.value.selected.Some? ==>
      var ps := r.value.selected.value.params;
      |r.value.dependencies| == |ps| && forall i :: 0 <= i < |ps| ==> DescribeParameter(ps[i]) == Success(r.value.dependencies[i])
  {
    var chosen := SelectMethod(cls, name);
    if chosen.None? then Success(BoundDescriptor(cls, None, []))
    else match DescribeParameters(chosen.value.params)
      case Failure(e) => Failure(e)
      case Success(ds) => Success(BoundDescriptor(cls, chosen, ds))
  }

  /** `getDependencies(?type)`: all dependencies, or those that have the type, in order. */
  function GetDependencies(refl: Reflection, d: BoundDescriptor, t: Option<TypeName>): (r: seq<ParameterDescriptor>)
    ensures Subsequence(r, d.dependencies)
    ensures forall p :: p in r <==> p in d.dependencies && (t.None? || HasType(refl, p, t.value))
  {
    if t.None? then
      SubsequenceReflexive(d.dependencies);
      d.dependencies
    else
      FilterSubsequence(d.dependencies, p => HasType(refl, p, t.value));
      Filter(d.dependencies, p => HasType(refl, p, t.value))
  }

  /** `hasConstructor`. */
  predicate HasConstructor(d: BoundDescriptor): (b: bool)
    ensures b <==> exists m :: m in d.cls.methods && m.name == CONSTRUCT
  {
    HasMethod(d.cls, CONSTRUCT)
  }

  /** `getName`. */
  function GetName(d: BoundDescriptor): TypeName {
    d.cls.name
  }
}
