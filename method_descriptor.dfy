/**
 * The descriptor of a method: its parameter descriptors keyed by parameter
 * name in declaration order, filterable by type.
 */
module MethodDescriptors {
  import opened Wrappers
  import opened Collections
  import opened PhpArrays
  import opened ParameterDescriptors

  datatype MethodDecl = MethodDecl(name: string, params: seq<ParamDecl>)

  datatype MethodDescriptor = MethodDescriptor(name: string, parameters: seq<(string, ParameterDescriptor)>)

  /** PHP rejects a signature that declares a parameter name twice. */
  predicate DistinctNames(ps: seq<ParamDecl>) {
    forall i, j :: 0 <= i < j < |ps| ==> ps[i].name != ps[j].name
  }

  function Entry(d: ParameterDescriptor): (string, ParameterDescriptor) {
    (d.name, d)
  }

  /** `mapWithKeys`: assign each descriptor under its own name, in order. */
  function KeyedByName(ds: seq<ParameterDescriptor>): (r: seq<(string, ParameterDescriptor)>)
    ensures UniqueKeys(r)
  {
    ReplaceUnique([], Map(ds, Entry));
    Replace([], Map(ds, Entry))
  }

  /** The constructor (`resolveParameters`). */
  function DescribeMethod(m: MethodDecl): (r: Result<MethodDescriptor, DescribeError>)
    ensures r.Success? <==> forall i :: 0 <= i < |m.params| ==> m.params[i].declared.Some?
    ensures r.Success? ==> r.value.name == m.name && UniqueKeys(r.value.parameters)
  {
    match DescribeParameters(m.params)
    case Failure(e) => Failure(e)
    case Success(ds) => Success(MethodDescriptor(m.name, KeyedByName(ds)))
  }

  /** With distinct names, keying by name neither merges nor reorders entries. */
  lemma KeyedByDistinctNames(ds: seq<ParameterDescriptor>)
    requires forall i, j :: 0 <= i < j < |ds| ==> ds[i].name != ds[j].name
    ensures KeyedByName(ds) == Map(ds, Entry)
  {
    var pairs := Map(ds, Entry);
    assert forall i :: 0 <= i < |pairs| ==> Keys(pairs)[i] == ds[i].name;
    ReplaceDisjoint([], pairs);
    assert [] + pairs == pairs;
  }

  /**
   * For a PHP signature (distinct parameter names) the descriptor holds one
   * entry per parameter, keyed by that parameter's name, in declaration order.
   */
  lemma ParametersInDeclarationOrder(m: MethodDecl)
    requires DistinctNames(m.params)
    requires DescribeMethod(m).Success?
    ensures var md := DescribeMethod(m).value;
      && |md.parameters| == |m.params|
      && (forall i :: 0 <= i < |m.params| ==> md.parameters[i] == (m.params[i].name, DescribeParameter(m.params[i]).value))
      && Values(md.parameters) == DescribeParameters(m.params).value
  {
    var ds := DescribeParameters(m.params).value;
    assert forall i :: 0 <= i < |ds| ==> ds[i].name == m.params[i].name;
    KeyedByDistinctNames(ds);
    assert Values(Map(ds, Entry)) == ds;
  }

  /** `getParameters(?type)`: all parameters, or those whose descriptor has the type, in order. */
  function GetParameters(refl: Reflection, md: MethodDescriptor, t: Option<TypeName>): (r: seq<ParameterDescriptor>)
    ensures Subsequence(r, Values(md.parameters))
    ensures forall d :: d in r <==> d in Values(md.parameters) && (t.None? || !Truthy(t.value) || HasType(refl, d, t.value))
  {
    var all := Values(md.parameters);
    if t.None? || !Truthy(t.value) then
      SubsequenceReflexive(all);
      all
    else
      FilterSubsequence(all, d => HasType(refl, d, t.value));
      Filter(all, d => HasType(refl, d, t.value))
  }

  /** `getParameter($name)`. */
  function GetParameter(md: MethodDescriptor, name: string): (r: Option<ParameterDescriptor>)
    ensures r.Some? <==> name in Keys(md.parameters)
  {
    Get(md.parameters, name)
  }

  /** Looking a parameter up by its name yields that parameter's descriptor. */
  lemma GetParameterByName(m: MethodDecl, i: nat)
    requires DistinctNames(m.params) && i < |m.params|
    requires DescribeMethod(m).Success?
    ensures GetParameter(DescribeMethod(m).value, m.params[i].name) == Some(DescribeParameter(m.params[i]).value)
  {
    ParametersInDeclarationOrder(m);
    GetAt(DescribeMethod(m).value.parameters, i);
  }
}
