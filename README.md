# Route-parameter binder, modelled in Dafny

This project models the core of `aidan-casey/laravel-route-binding`. That package resolves the arguments of a
constructor or method from the parameters of the current route, and then constructs the class and calls the
method.

What the model covers:

- **The merge.** The binder builds an ordered *parameter bag* from the route's parameters and the caller's
  overrides. Overrides win on a shared key, and new override keys come after the route keys.
- **Enum coercion.** The binder walks the selected method's parameters in signature order. For each parameter
  with a string-backed enum type, it finds the bag key (the exact name, or else its snake-cased form). It then
  replaces the raw value with the enum case of the first string-backed enum type.
- **Routable coercion.** For each parameter typed as `UrlRoutable`, the binder replaces the raw value with a model.
  The model comes from one of two lookups:
  - a *plain* lookup on a fresh instance of the first routable type;
  - a *scoped* (child) lookup on the value just before the key in bag order. This happens when that value is
    already routable and the route enforces scoped bindings or has a binding field for the key.
  Either lookup uses its soft-delete variant when the route allows trashed bindings and the model class uses
  `SoftDeletes`.
- **Instantiation.** `bind` creates the instance or takes the object passed in, then returns it or calls the
  selected method.
- **The descriptors.** Three descriptors supply this information:
  - `ParameterDescriptor` holds a parameter's types, flattened from its declared type;
  - `MethodDescriptor` keys a method's parameters by name;
  - `BoundDescriptor` holds the selected method and its dependencies.

Modules, one per source file, plus shared support:

| module | content |
|---|---|
| `Wrappers` | `Option`, `Result` |
| `Collections` | Laravel's `filter`/`map` on sequences; `Subsequence` (order preserved) |
| `PhpArrays` | PHP string-keyed ordered arrays: `Keys`, `Values`, `Get`, `Put` (`$a[$k] = $v`), `Replace` (`array_replace`), PHP string truthiness |
| `ParameterDescriptors` | `src/Descriptors/ParameterDescriptor.php` |
| `MethodDescriptors` | `src/Descriptors/MethodDescriptor.php` |
| `BoundDescriptors` | `src/Descriptors/BoundDescriptor.php` |
| `Binding` | `src/Binder.php`: one pure function per step, and class `Binder`, whose `parameters` field the methods rewrite in place |
| `BindingProperties` | properties that relate several steps |
| `BindingScenarios` | the fixtures of `tests/BinderTest.php`, as lemmas |

Code the binder calls but that is not modelled here is passed in as data:

- **`Reflection`** has two fields:
  - `enumKind` stands for `enum_exists` together with the enum's backing type;
  - `isSubclassOf` stands for `is_subclass_of`, and for `instanceof` on a class name.
- **`Host`** has these fields:
  - `reflection` is the `Reflection` above;
  - `snake` stands for `Str::snake`;
  - `hasCase` stands for `tryFrom`;
  - `stringOf` stands for the `(string)` cast of an object;
  - `make` stands for `app()->make`;
  - `traitsOf` stands for `class_uses_recursive`;
  - `lookup` and `childLookup` stand for the model's route-binding methods.
- **`Route`** holds the route's parameters, `enforcesScopedBindings`, `allowsTrashedBindings` and
  `bindingFieldFor`.
- A **reflected class** is a `ClassDecl`, with its methods and their parameters.

`Binder` depends on `BoundDependencyDescriptor`, which is not part of this model. Its interface matches
`ParameterDescriptor`, so the dependencies are `ParameterDescriptor` values.

The bag is a `Bag`, a subset type of ordered key/value lists in which no key occurs twice, as in every PHP
array. The route's parameters, the overrides and the binder's `parameters` field all have this type.

A failed step does not write to the bag. Each coercion pass therefore returns a `Run`: the bag at the point where
the pass stopped, plus the error if there is one.

The model follows the code in these places:

- An untyped parameter does not yield an empty type list. `resolveTypes` calls `get_class` on the null type,
  which raises a `TypeError` in PHP 8. `DescribeParameter` fails with `UntypedParameter`, and so do the method and
  bound descriptors built on it.
- Coercion only walks the **selected method's** parameters. When `call` targets a method other than the
  constructor, the constructor's own parameters are not coerced.
- If no method is selected and the class has no constructor, `bind` returns `new ($this->descriptor->getName())`.
  It does this even when an object was passed. `Finish` states this.
- The binding field and the method name are tested for PHP truthiness: `"0"` counts as absent.
- `MethodDescriptor::getParameter` declares a non-nullable return type. For an unknown name it therefore raises.
  `GetParameter` returns `None` in that case.

## Model

| member | source | states |
|---|---|---|
| `PhpArrays.Replace` | src/Binder.php:31 | the route's keys stay in the merged bag, as its first keys |
| `PhpArrays.ReplaceKeys` | src/Binder.php:31 | the merged bag's keys are the route keys in place, followed by the override keys not already present, in override order |
| `PhpArrays.ReplaceGet` | src/Binder.php:31 | in the merged bag a key holds the override's value when the overrides have it, and the route's value otherwise |
| `PhpArrays.ReplaceUnique` | src/Binder.php:31 | merging keeps keys unique |
| `PhpArrays.ReplaceDisjoint` | src/Binder.php:31 | overrides whose keys are all new are appended as they are |
| `PhpArrays.Put` | src/Binder.php:155 | assigning to an existing key keeps the key order; only that key's value changes, and it now holds the new value |
| `PhpArrays.Get` | src/Binder.php:129 | a value is found exactly for the keys of the bag |
| `PhpArrays.GetAt` | src/Binder.php:129 | with unique keys, the lookup of the key at position i returns the value at position i |
| `Binding.ParameterName` | src/Binder.php:182-193 | the exact name when it is a key; else the snake-cased name when that is a key; else none; any result is a key of the bag |
| `Binding.BagKey` | src/Binder.php:125-127 | the guard also treats a falsy name as absent; any result is a truthy key of the bag |
| `Binding.ParentOf` | src/Binder.php:195-204 | none for the first key; the value just before the key, in bag order, otherwise |
| `Binding.InstanceOf` | src/Binder.php:132 | a raw route value is never an instance; an object or an enum case is one exactly when its class is the type or a subclass of it |
| `Binding.StringOf` | src/Binder.php:169 | a raw value converts to its own text; an enum case never converts, because PHP raises an `Error` there; an object converts exactly when its class has `__toString` |
| `Binding.BindingMethodFor` | src/Binder.php:206-216 | the soft-delete variant exactly when the route allows trashed bindings and the class uses `SoftDeletes` |
| `Binding.ChildBindingMethodFor` | src/Binder.php:218-228 | the soft-delete child variant under the same condition |
| `Binding.LookupFor` | src/Binder.php:138-152 | scoped on the parent with (key, raw, field) exactly when the parent is routable and scoping is enforced or a truthy field is set; otherwise plain on a fresh instance with (raw, field); soft variant as above |
| `Binding.Perform` | src/Binder.php:146-152 | a plain lookup calls the binding method on the model instance with (value, field); a scoped one calls the child binding method on the parent with (key, value, field) |
| `Binding.EnumStep` | src/Binder.php:163-180 | no key: bag unchanged; a value with no string form fails with `NotStringable(value)`; else the first string-backed enum is tried on the string of the value: a case replaces that entry only, no case fails with `EnumCaseNotFound(enum, string)`; no other error; keys never change |
| `Binding.RoutableStep` | src/Binder.php:123-161 | no key, or a value already routable: bag unchanged; else the lookup's model replaces that entry only, and no model fails with `ModelNotFound(first routable type, [raw])`, the only error; keys never change |
| `Binding.EnumsRun` | src/Binder.php:109-111 | the enum steps in order, stopping at the first error, which is `EnumCaseNotFound` or `NotStringable`; keys never change |
| `Binding.RoutablesRun` | src/Binder.php:118-120 | the routable steps in order, stopping at the first error, which is `ModelNotFound`; keys never change |
| `Binding.EnumDependencies` | src/Binder.php:105-107 | exactly the dependencies with a string-backed enum type, in signature order |
| `Binding.RoutableDependencies` | src/Binder.php:116 | exactly the dependencies typed as `UrlRoutable`, in signature order |
| `Binding.Coerce` | src/Binder.php:64-65 | keys never change; the only errors are those of the two passes; without dependencies the bag is unchanged and nothing fails |
| `Binding.CreateClass` | src/Binder.php:84-101 | an object target is returned as it is; a class name is constructed with the bag when it has a constructor and created bare otherwise |
| `Binding.Finish` | src/Binder.php:67-81 | no method and no constructor: a fresh bare instance; without a method or for `__construct`: the instance; otherwise the method is called on the instance with the bag |
| `Binding.BindSpec` | src/Binder.php:62-82 | whatever is handed to the constructor or the method has the bag's keys; the only errors are `EnumCaseNotFound`, `NotStringable` and `ModelNotFound`; without dependencies the bag is handed over unchanged |
| `Binding.CallSpec` | src/Binder.php:25-60 | a descriptor error arises exactly when the descriptor cannot be built; what is handed over has the route keys in place, then the new override keys in override order |
| `Binding.Binder.constructor` | src/Binder.php:25-32 | the bag is the merge of the route parameters and the overrides |
| `Binding.Binder.Create` | src/Binder.php:29 | fails exactly when the descriptor cannot be built; otherwise a fresh binder holding that descriptor and the merged bag |
| `Binding.Binder.BindEnum` | src/Binder.php:163-180 | applies `EnumStep` to `parameters` in place, reporting its error |
| `Binding.Binder.BindEnums` | src/Binder.php:103-112 | its loop leaves `parameters` and the error as `EnumsRun` gives them |
| `Binding.Binder.BindUrlRoutable` | src/Binder.php:123-161 | applies `RoutableStep` to `parameters` in place, reporting its error |
| `Binding.Binder.BindUrlRoutables` | src/Binder.php:114-121 | its loop leaves `parameters` and the error as `RoutablesRun` gives them |
| `Binding.Binder.Bind` | src/Binder.php:62-82 | returns `BindSpec` of the starting bag and leaves the coerced bag in `parameters` |
| `Binding.Binder.Call` | src/Binder.php:34-43 | returns `CallSpec` for the named method |
| `Binding.Binder.Make` | src/Binder.php:52-60 | for a class name (the parameter is `string $class`), returns `CallSpec` for `__construct` |
| `BindingProperties.EnumsRunLeavesOtherKeys` | src/Binder.php:103-112 | the enum pass leaves every key no enum dependency resolves to unchanged |
| `BindingProperties.RoutablesRunLeavesOtherKeys` | src/Binder.php:114-121 | the routable pass leaves every key no routable dependency resolves to unchanged |
| `BindingProperties.ParentAfterBinding` | src/Binder.php:195-204 | a value bound in place becomes the parent of the next key |
| `BindingProperties.NoMethodNoCoercion` | src/Binder.php:62-65 | with no selected method the bag is not changed and nothing fails |
| `BindingProperties.MakeWithoutConstructor` | src/Binder.php:69-71 | `make` on a class without a constructor yields a bare instance whatever the route |
| `BindingProperties.ObjectTargetIsKept` | src/Binder.php:86-88 | when a method or a constructor exists, an object target is the instance used, never reconstructed |
| `BindingProperties.ObjectTargetReplacedWithoutMethodOrConstructor` | src/Binder.php:69-71 | with neither the named method nor a constructor, an object target is dropped and a new bare instance is returned |
| `BindingScenarios.EnumBindBindsCase` | tests/BinderTest.php:89-106 | `option/test1` gives `EnumBind` constructed with the case backed by `"test1"` |
| `BindingScenarios.EnumBindRejectsUnknownCase` | tests/BinderTest.php:108 | `option/test4` fails with `EnumCaseNotFound(BindableEnum, "test4")` |
| `BindingScenarios.UnbackedEnumIsNotCoerced` | tests/Fake/Bindables/UnbackedEnumBind.php:9 | an enum without string backing is not coerced; the constructor gets the raw bag |
| `BindingScenarios.ParentAndChildBindsPlainly` | tests/BinderTest.php:69-87 | with `(Dog $dog, User $user)` both lookups are plain, with or without enforced scoping, and the constructor gets both models |
| `BindingScenarios.MethodBindUnscoped` | tests/BinderTest.php:111-151 | `execute(User, Dog)` on a class name or an object: two plain lookups, then `execute` called on a bare instance or that object |
| `BindingScenarios.MethodBindScopesChildToParent` | src/Binder.php:146-149 | with scoping enforced or a field set, the dog is looked up as a child of the user bound just before it |
| `BindingScenarios.MakeMethodBindIsBare` | tests/BinderTest.php:37-51 | `make(MethodBind)` gives a bare `MethodBind` |
| `ParameterDescriptors.ResolveTypes` | src/Descriptors/ParameterDescriptor.php:76-93 | the names of the named, truthy members among the candidates (the type itself if named, the members of a union or intersection, none otherwise), in order |
| `ParameterDescriptors.UsableMembersInOrder` | src/Descriptors/ParameterDescriptor.php:86-92 | the kept members are a subsequence of the declared ones |
| `ParameterDescriptors.DescribeParameter` | src/Descriptors/ParameterDescriptor.php:17-22 | fails exactly for an untyped parameter; otherwise keeps the parameter's name and its resolved types |
| `ParameterDescriptors.DescribeParameters` | src/Descriptors/BoundDescriptor.php:62-66 | succeeds exactly when every parameter is typed, with one descriptor per parameter in order |
| `ParameterDescriptors.DescribeParametersFailsAtFirstUntyped` | src/Descriptors/BoundDescriptor.php:62-66 | the error names the first untyped parameter |
| `ParameterDescriptors.StringBackedEnums` | src/Descriptors/ParameterDescriptor.php:42-57 | exactly the types that are string-backed enums, as a subsequence of the types |
| `ParameterDescriptors.HasStringBackedEnums` | src/Descriptors/ParameterDescriptor.php:59-62 | holds iff some type is a string-backed enum |
| `ParameterDescriptors.FirstStringBackedEnum` | src/Binder.php:171 | the enum tried is the first string-backed enum in declared order |
| `ParameterDescriptors.GetType` | src/Descriptors/ParameterDescriptor.php:64-69 | exactly the types equal to or a subclass of the given type, as a subsequence of the types |
| `ParameterDescriptors.HasType` | src/Descriptors/ParameterDescriptor.php:71-74 | holds iff some type equals or is a subclass of the given type |
| `ParameterDescriptors.FirstMatchingType` | src/Binder.php:136 | the model type used is the first matching type in declared order |
| `MethodDescriptors.KeyedByName` | src/Descriptors/MethodDescriptor.php:53-56 | the keyed parameters have unique keys |
| `MethodDescriptors.KeyedByDistinctNames` | src/Descriptors/MethodDescriptor.php:53-56 | with distinct names, keying neither merges nor reorders |
| `MethodDescriptors.DescribeMethod` | src/Descriptors/MethodDescriptor.php:15-20 | succeeds exactly when every parameter is typed; keeps the method name; unique keys |
| `MethodDescriptors.ParametersInDeclarationOrder` | src/Descriptors/MethodDescriptor.php:51-57 | one entry per parameter, keyed by its name, in declaration order |
| `MethodDescriptors.GetParameters` | src/Descriptors/MethodDescriptor.php:40-49 | falsy or no type: every descriptor in order; otherwise exactly those having the type, as a subsequence |
| `MethodDescriptors.GetParameter` | src/Descriptors/MethodDescriptor.php:32-35 | a descriptor is found exactly for the parameter names |
| `MethodDescriptors.GetParameterByName` | src/Descriptors/MethodDescriptor.php:32-35 | the name of the i-th parameter yields that parameter's descriptor |
| `BoundDescriptors.FindIn` | src/Descriptors/BoundDescriptor.php:21 | a method of that name from the class, none exactly when the class has none |
| `BoundDescriptors.HasMethod` | src/Descriptors/BoundDescriptor.php:21 | holds iff the class has a method of that name |
| `BoundDescriptors.SelectMethod` | src/Descriptors/BoundDescriptor.php:21 | a method exactly when a truthy name is given and the class has it, and then that method |
| `BoundDescriptors.DescribeBound` | src/Descriptors/BoundDescriptor.php:18-24 | the selected method and one dependency per parameter in order, none without a method; fails exactly on an untyped parameter of the selected method |
| `BoundDescriptors.GetDependencies` | src/Descriptors/BoundDescriptor.php:44-53 | no type: every dependency; otherwise exactly those having the type, as a subsequence |
| `BoundDescriptors.HasConstructor` | src/Descriptors/BoundDescriptor.php:55-58 | holds iff the class has a `__construct` method |

## Left out

- Reflection, the container, `Str::snake`, enum `tryFrom`, `class_uses_recursive` and the Eloquent lookups are
  parameters of the model (`Reflection`, `Host`, `Route`). The database and `tests/migrations/create_dogs_table.php`
  are not part of this model.
- `resolveMethodDependencies` and dependency injection for the remaining parameters are left out. The model
  records only which bag is handed to the constructor or the method. An error raised by the container is not
  modelled, and neither is the return value of the invoked method.
- `array_replace_recursive` is modelled as a flat `array_replace`, because the bag holds no nested arrays here.
- PHP turns numeric-string keys into integer keys. All keys are strings in this model.
- `array_search` in `getParentOfParameter` compares loosely. Here key equality is exact.
- Binding.ParentOf: for a key that is absent it returns none. PHP would read index -1 there and raise a warning.
  The binder only asks about keys it has found.
- Method and class names are compared case-sensitively. PHP compares them case-insensitively.
- `ClassDescriptor` is not used by the binder and is not part of this model.
- `MethodDescriptor::getClass`, `getName` and `getReflection` are plain field reads.
- `ParameterDescriptor::getName` is the same kind of read; it is the `name` field.
- The HTTP 404 that the framework derives from `EnumCaseNotFound` and `ModelNotFound` is outside the binder.
- The arguments of `call_user_func_array`, and the behaviour of the constructor and the method once called, are
  outside the binder. An `Outcome` names the call instead.
- `tests/Fake/Bindables/ParentBind.php` and the enum fixtures are not part of this model. The scenarios assume only
  the facts the tests rely on: a case is backed by `"test1"` and none by `"test4"`.
