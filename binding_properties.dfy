/**
 * Properties of the binder that relate several steps: the coercion passes
 * touch only the keys of their dependencies, a bound value becomes the
 * parent of the key after it, and a class without a constructor that is
 * made without a method is instantiated bare.
 */
module BindingProperties {
  import opened Wrappers
  import opened PhpArrays
  import opened ParameterDescriptors
  import opened BoundDescriptors
  import opened Binding

  /** Name resolution sees only the keys of the bag, so steps that keep the keys keep it. */
  lemma BagKeySameKeys(host: Host, a: Bag, b: Bag, name: string)
    requires Keys(a) == Keys(b)
    ensures BagKey(host, a, name) == BagKey(host, b, name)
  {
  }

  /** The enum pass leaves alone every key that no enum dependency resolves to. */
  lemma {:induction false} EnumsRunLeavesOtherKeys(host: Host, bag: Bag, deps: seq<ParameterDescriptor>, j: string)
    requires AllStringBackedEnums(host.reflection, deps)
    requires forall i :: 0 <= i < |deps| ==> BagKey(host, bag, deps[i].name) != Some(j)
    ensures Get(EnumsRun(host, bag, deps).bag, j) == Get(bag, j)
    decreases |deps|
  {
    if deps != [] {
      match EnumStep(host, bag, deps[0])
      case Failure(_) =>
      case Success(next) =>
        var rest := deps[1..];
        forall i | 0 <= i < |rest| ensures BagKey(host, next, rest[i].name) != Some(j) {
          assert rest[i] == deps[i + 1];
          BagKeySameKeys(host, next, bag, rest[i].name);
        }
        EnumsRunLeavesOtherKeys(host, next, rest, j);
    }
  }

  /** The routable pass leaves alone every key that no routable dependency resolves to. */
  lemma {:induction false} RoutablesRunLeavesOtherKeys(host: Host, route: Route, bag: Bag, deps: seq<ParameterDescriptor>, j: string)
    requires AllRoutable(host.reflection, deps)
    requires forall i :: 0 <= i < |deps| ==> BagKey(host, bag, deps[i].name) != Some(j)
    ensures Get(RoutablesRun(host, route, bag, deps).bag, j) == Get(bag, j)
    decreases |deps|
  {
    if deps != [] {
      match RoutableStep(host, route, bag, deps[0])
      case Failure(_) =>
      case Success(next) =>
        var rest := deps[1..];
        forall i | 0 <= i < |rest| ensures BagKey(host, next, rest[i].name) != Some(j) {
          assert rest[i] == deps[i + 1];
          BagKeySameKeys(host, next, bag, rest[i].name);
        }
        RoutablesRunLeavesOtherKeys(host, route, next, rest, j);
    }
  }

  /**
   * Binding a key in place makes the bound value the parent of the next key:
   * this is how a model bound earlier scopes the lookup of the one after it.
   */
  lemma ParentAfterBinding(bag: Bag, i: nat, v: Value)
    requires 0 < i < |bag|
    ensures ParentOf(Put(bag, bag[i - 1].0, v), bag[i].0) == Some(v)
  {
    var k := bag[i - 1].0;
    assert Keys(bag)[i - 1] == k;
    var p := Put(bag, k, v);
    assert Keys(p) == Keys(bag);
    assert p[i].0 == Keys(p)[i] == bag[i].0;
    assert Get(p, k) == Some(v);
    GetAt(p, i - 1);
    assert p[i - 1].1 == v;
  }

  /** Without a selected method there are no dependencies, and coercion changes nothing. */
  lemma NoMethodNoCoercion(host: Host, route: Route, d: BoundDescriptor, bag: Bag)
    requires d.selected.None? && d.dependencies == []
    ensures Coerce(host, route, d, bag) == Run(bag, None)
  {
    assert EnumDependencies(host.reflection, d) == [];
    assert RoutableDependencies(host.reflection, d) == [];
  }

  /** `make` on a class that has no constructor gives a bare instance, whatever the route holds. */
  lemma MakeWithoutConstructor(host: Host, route: Route, target: Target, overrides: Bag)
    requires !HasMethod(target.decl, CONSTRUCT)
    ensures CallSpec(host, route, target, Some(CONSTRUCT), overrides) == Success(Returned(Bare(target.decl.name)))
  {
    var d := DescribeBound(target.decl, Some(CONSTRUCT));
    assert d.Success? && d.value.selected.None?;
    ReplaceUnique(route.parameters, overrides);
    NoMethodNoCoercion(host, route, d.value, Replace(route.parameters, overrides));
  }

  /** When an existing object is the target, any instance the binder uses is that object. */
  lemma ObjectTargetIsKept(host: Host, route: Route, decl: ClassDecl, handle: nat, name: Option<string>, overrides: Bag)
    requires SelectMethod(decl, name).Some? || HasMethod(decl, CONSTRUCT)
    requires CallSpec(host, route, ObjectOf(decl, handle), name, overrides).Success?
    ensures CallSpec(host, route, ObjectOf(decl, handle), name, overrides).value.instance == Given(Obj(decl.name, handle))
  {
    var d := DescribeBound(decl, name).value;
    assert HasConstructor(d) == HasMethod(decl, CONSTRUCT);
  }

  /**
   * The other side of `ObjectTargetIsKept`: with neither the named method nor a
   * constructor, `bind` creates a new bare instance and drops the object passed in.
   */
  lemma ObjectTargetReplacedWithoutMethodOrConstructor(host: Host, route: Route, decl: ClassDecl, handle: nat, name: string, overrides: Bag)
    requires !HasMethod(decl, name) && !HasMethod(decl, CONSTRUCT)
    ensures CallSpec(host, route, ObjectOf(decl, handle), Some(name), overrides) == Success(Returned(Bare(decl.name)))
  {
    var d := DescribeBound(decl, Some(name));
    assert d.Success? && d.value.selected.None?;
    ReplaceUnique(route.parameters, overrides);
    NoMethodNoCoercion(host, route, d.value, Replace(route.parameters, overrides));
  }
}
