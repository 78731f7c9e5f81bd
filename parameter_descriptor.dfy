/**
 * The descriptor of one method parameter: its name and the flat list of
 * type names its declared type resolves to, with the two queries the binder
 * asks of it (string-backed enums, and types matching a given type).
 */
module ParameterDescriptors {
  import opened Wrappers
  import opened Collections
  import opened PhpArrays

  /** A fully qualified class, interface or enum name. */
  type TypeName = string

  /** A reflected type node, the class of the object PHP's reflection returns. */
  datatype TypeNode =
    | Named(name: string)                  // ReflectionNamedType
    | Union(members: seq<TypeNode>)        // ReflectionUnionType
    | Intersection(members: seq<TypeNode>) // ReflectionIntersectionType
    | OtherKind                            // any other ReflectionType subclass

  /** A declared parameter; `declared` is None when the parameter has no type declaration. */
  datatype ParamDecl = ParamDecl(name: string, declared: Option<TypeNode>)

  datatype EnumKind = NotAnEnum | PureEnum | IntBacked | StringBacked

  /**
   * What the descriptors learn from PHP's reflection about type names:
   * `enum_exists` together with the enum's backing type, and `is_subclass_of`.
   */
  datatype Reflection = Reflection(enumKind: TypeName -> EnumKind, isSubclassOf: (TypeName, TypeName) -> bool)

  datatype ParameterDescriptor = ParameterDescriptor(name: string, types: seq<TypeName>)

  /**
   * Building a descriptor for an untyped parameter fails: the reflected type
   * is null, and taking the class of null raises a TypeError in PHP 8.
   */
  datatype DescribeError = UntypedParameter(parameter: string)

  /** The nodes the `match` in `resolveTypes` selects. */
  function Candidates(node: TypeNode): seq<TypeNode> {
    match node
    case Named(_) => [node]
    case Union(ms) => ms
    case Intersection(ms) => ms
    case OtherKind => []
  }

  /** The filter in `resolveTypes`: a named type whose name is truthy. */
  predicate IsUsable(m: TypeNode) {
    m.Named? && Truthy(m.name)
  }

  function NameOf(m: TypeNode): string {
    if m.Named? then m.name else ""
  }

  function UsableMembers(node: TypeNode): seq<TypeNode> {
    Filter(Candidates(node), IsUsable)
  }

  /** `resolveTypes`: the names of the usable candidate nodes, in declared order. */
  function ResolveTypes(node: TypeNode): (r: seq<TypeName>)
    ensures |r| == |UsableMembers(node)|
    ensures forall i :: 0 <= i < |r| ==> UsableMembers(node)[i] == Named(r[i]) && Truthy(r[i])
    ensures forall t :: t in r <==> Named(t) in Candidates(node) && Truthy(t)
  {
    var u := UsableMembers(node);
    var r := Map(u, NameOf);
    assert forall t :: Named(t) in Candidates(node) && Truthy(t) ==> t in r by {
      forall t | Named(t) in Candidates(node) && Truthy(t) ensures t in r {
        var i :| 0 <= i < |Candidates(node)| && Candidates(node)[i] == Named(t);
        assert IsUsable(Candidates(node)[i]);
        var j :| 0 <= j < |u| && u[j] == Named(t);
        assert r[j] == t;
      }
    }
    r
  }

  /** The usable members keep their declared order. */
  lemma UsableMembersInOrder(node: TypeNode)
    ensures Subsequence(UsableMembers(node), Candidates(node))
  {
    FilterSubsequence(Candidates(node), IsUsable);
  }

  /** The constructor: describe a parameter, failing on a missing type declaration. */
  function DescribeParameter(p: ParamDecl): (r: Result<ParameterDescriptor, DescribeError>)
    ensures r.Failure? <==> p.declared.None?
    ensures r.Failure? ==> r.error == UntypedParameter(p.name)
    ensures r.Success? ==> r.value.name == p.name && r.value.types == ResolveTypes(p.declared.value)
  {
    match p.declared
    case None => Failure(UntypedParameter(p.name))
    case Some(t) => Success(ParameterDescriptor(p.name, ResolveTypes(t)))
  }

  /** One descriptor per parameter, in order; fails as soon as one cannot be described. */
  function DescribeParameters(ps: seq<ParamDecl>): (r: Result<seq<ParameterDescriptor>, DescribeError>)
    ensures r.Success? <==> forall i :: 0 <= i < |ps| ==> ps[i].declared.Some?
    ensures r.Success? ==> |r.value| == |ps|
    ensures r.Success? ==> forall i :: 0 <= i < |ps| ==> DescribeParameter(ps[i]) == Success(r.value[i])
  {
    if ps == [] then Success([])
    else match DescribeParameter(ps[0])
      case Failure(e) => Failure(e)
      case Success(d) =>
        assert forall i :: 1 <= i < |ps| ==> ps[i] == ps[1..][i - 1];
        match DescribeParameters(ps[1..])
        case Failure(e) => Failure(e)
        case Success(ds) => Success([d] + ds)
  }

  /** The error names the first parameter that has no type declaration. */
  lemma {:induction false} DescribeParametersFailsAtFirstUntyped(ps: seq<ParamDecl>, i: nat)
    requires i < |ps| && ps[i].declared.None?
    requires forall j :: 0 <= j < i ==> ps[j].declared.Some?
    ensures DescribeParameters(ps) == Failure(UntypedParameter(ps[i].name))
  {
    if i > 0 {
      DescribeParametersFailsAtFirstUntyped(ps[1..], i - 1);
    }
  }

  predicate IsStringBackedEnum(refl: Reflection, t: TypeName) {
    refl.enumKind(t) == StringBacked
  }

  /** `getStringBackedEnums`: the resolved types that are enums backed by strings, in order. */
  function StringBackedEnums(refl: Reflection, d: ParameterDescriptor): (r: seq<TypeName>)
    ensures forall t :: t in r <==> t in d.types && IsStringBackedEnum(refl, t)
    ensures Subsequence(r, d.types)
  {
    FilterSubsequence(d.types, t => IsStringBackedEnum(refl, t));
    Filter(d.types, t => IsStringBackedEnum(refl, t))
  }

  /** `hasStringBackedEnums`. */
  function HasStringBackedEnums(refl: Reflection, d: ParameterDescriptor): (b: bool)
    ensures b <==> exists t :: t in d.types && IsStringBackedEnum(refl, t)
  {
    StringBackedEnums(refl, d) != []
  }

  /** The enum the binder tries: the first string-backed enum in declared order. */
  lemma FirstStringBackedEnum(refl: Reflection, d: ParameterDescriptor, i: nat)
    requires i < |d.types| && IsStringBackedEnum(refl, d.types[i])
    requires forall j :: 0 <= j < i ==> !IsStringBackedEnum(refl, d.types[j])
    ensures StringBackedEnums(refl, d) != [] && StringBackedEnums(refl, d)[0] == d.types[i]
  {
    FilterFirst(d.types, t => IsStringBackedEnum(refl, t), i);
  }

  /** `$type === $resolvedType || is_subclass_of($resolvedType, $type)`, also PHP's `instanceof`. */
  predicate IsA(refl: Reflection, t: TypeName, super: TypeName) {
    t == super || refl.isSubclassOf(t, super)
  }

  /** `getType`: the resolved types equal to or a subtype of `super`, in order. */
  function GetType(refl: Reflection, d: ParameterDescriptor, super: TypeName): (r: seq<TypeName>)
    ensures forall t :: t in r <==> t in d.types && IsA(refl, t, super)
    ensures Subsequence(r, d.types)
  {
    FilterSubsequence(d.types, t => IsA(refl, t, super));
    Filter(d.types, t => IsA(refl, t, super))
  }

  /** `hasType`. */
  function HasType(refl: Reflection, d: ParameterDescriptor, super: TypeName): (b: bool)
    ensures b <==> exists t :: t in d.types && IsA(refl, t, super)
  {
    GetType(refl, d, super) != []
  }

  /** The type the binder looks models up with: the first matching type in declared order. */
  lemma FirstMatchingType(refl: Reflection, d: ParameterDescriptor, super: TypeName, i: nat)
    requires i < |d.types| && IsA(refl, d.types[i], super)
    requires forall j :: 0 <= j < i ==> !IsA(refl, d.types[j], super)
    ensures GetType(refl, d, super) != [] && GetType(refl, d, super)[0] == d.types[i]
  {
    FilterFirst(d.types, t => IsA(refl, t, super), i);
  }
}
