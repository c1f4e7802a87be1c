# fixed_point_field, modelled in Dafny

`FixedPointField` is a Ruby mixin for ActiveRecord classes. It lets a record
read and write an integer database column as if the column held a decimal
value. A field registered with `fixed_point_field :price` stores
`round(price * base**width)`. It reads back as `stored / base**width`. The
defaults are width 2 and base 10, so dollars are stored as cents.

Each registered field gets four generated methods:

- `price`: the decimal getter.
- `price_fixed`: the raw integer getter.
- `price=`: the decimal setter.
- `price_fixed=`: the raw integer setter.

The model has five modules:

- `Conversion` (`conversion.dfy`) holds the scale transform.
  - The factor `base**width` is `Pow` and `Factor`.
  - `Float#round` is `Round`, which rounds half away from zero.
  - The stored value of a decimal is `ToStored`.
  - The decimal value of a stored integer is `FromStoredValue` and `FromStored`.
- `Naming` (`naming.dfy`) builds the four accessor names of a field by string
  concatenation. It also characterises when two fields' names can collide.
- `Registration` (`registration.dfy`) models the class-level call `fixed_point_field`.
  - It splits off the trailing options hash and fills in the defaults.
  - In a loop, it adds each field's four accessors to the class's method table.
  - `define_method` is keyed by method name. The class `RecordClass` therefore
    holds a `map<string, Accessor>`, and registering a name again replaces its entry.
  - `DefineAll` is the function against which the loop is proved.
- `Records` (`records.dfy`) models a record.
  - The class `Record` holds the attribute store, a `map<string, Option<int>>`
    in which `None` is SQL NULL.
  - Its methods are `set_fixed_point`, `set_floating_point`, `read_fixed_point`
    and `read_floating_point`, plus `Call`, which calls a generated method by name.
  - `Invoke` and `Dispatch` are the pure functions that `Call` is proved against.
    The lemmas about the accessors are stated over them.
- `Scenarios` (`scenarios.dfy`) states the repository's own test cases over the
  model, for a class with integer columns `a` and `b`.

Ruby's `Float` is modelled by `real`, so products and quotients are exact.
Rounding is the only step that loses information, and it is written out explicitly.

## Model

| member | source | states |
|---|---|---|
| Conversion.Factor | lib/fixed_point_field.rb:55 | the factor `base**width` is at least 1 for every width >= 0 and base >= 1, so division by it is defined |
| Conversion.Pow | lib/fixed_point_field.rb:55 | `base**width` is positive when the base is at least 1 |
| Conversion.Round | lib/fixed_point_field.rb:55 | `Float#round`: the result lies within one half of `x`; the half-open interval puts a tie on the side away from zero |
| Conversion.ToStored | lib/fixed_point_field.rb:55 | `(value.to_f * (base**width)).round`; no contract of its own: its promises are stated by `RawRoundTrip`, `StoreErrorBound`, `StoreIdempotent` and `WidthOneExample` |
| Conversion.RoundUnique | lib/fixed_point_field.rb:55 | the rounding interval determines the result uniquely: any integer in it equals `Round(x)` |
| Conversion.RoundIsNearest | lib/fixed_point_field.rb:55 | no integer is closer to `x` than `Round(x)` |
| Conversion.RoundTiesAwayFromZero | lib/fixed_point_field.rb:55 | on an exact half, the result is farther from zero than `x` |
| Conversion.RoundMonotone | lib/fixed_point_field.rb:55 | rounding preserves order, so stored integers keep the order of the decimals assigned |
| Conversion.RoundWithinHalf | lib/fixed_point_field.rb:55 | rounding moves a value by at most one half |
| Conversion.RoundOfInteger | lib/fixed_point_field.rb:55 | an integral value rounds to itself |
| Conversion.FromStoredValue | lib/fixed_point_field.rb:70 | the decimal read from a stored integer, multiplied by the factor, gives back that integer |
| Conversion.FromStored | lib/fixed_point_field.rb:69-71 | nil reads as nil and only nil does; an integer reads as the value whose product with the factor is that integer |
| Conversion.RawRoundTrip | lib/fixed_point_field.rb:53-71 | any stored integer, read as a decimal and written back through the float conversion, is stored as the same integer |
| Conversion.StoreErrorBound | lib/fixed_point_field.rb:53-71 | a decimal written and read back differs from the original by at most half a unit in the last stored place (`0.5 / base**width`) |
| Conversion.ErrorBoundFor | lib/fixed_point_field.rb:53-71 | the same error bound for any positive factor |
| Conversion.StoreIdempotent | lib/fixed_point_field.rb:53-71 | writing back a value that was just read stores nothing new |
| Conversion.DefaultScaleExamples | test/fixed_point_field_test.rb:110-187 | with the defaults the factor is 100; 10.3 stores 1030, 1.1 stores 110; 103, 1030, 110, 1310 and 570 read as 1.03, 10.3, 1.1, 13.10 and 5.70 |
| Conversion.WidthOneExample | lib/fixed_point_field.rb:55 | with width 1 and base 10, 10.3 is stored as 103 |
| Conversion.CustomScaleExamples | test/fixed_point_field_test.rb:210-218 | base 20 gives factor 400, stores 10.3 as 4120 and reads 4120 as 10.3 |
| Naming.Suffix | lib/fixed_point_field.rb:98-101 | the text each accessor kind appends to the field name; no contract of its own: `NamesDistinct`, `LastChar` and `SharedNameMeansRelated` state what the suffixes guarantee |
| Naming.AccessorName | lib/fixed_point_field.rb:98-101 | the interpolated method name; no contract of its own: `FieldIsPrefix`, `NamesDistinct`, `SharedNameMeansRelated` and `RelatedMeansSharedName` state its promises |
| Naming.FieldIsPrefix | lib/fixed_point_field.rb:98-101 | every generated name starts with the field name |
| Naming.NamesDistinct | lib/fixed_point_field.rb:98-101 | the four names of one field are pairwise different |
| Naming.AccessorNames | lib/fixed_point_field.rb:98-101 | the name set of a field holds the name of each of the four kinds |
| Naming.KindOf | lib/fixed_point_field.rb:98-101 | each name in a field's name set is the generated name of some kind |
| Naming.SharedNameMeansRelated | lib/fixed_point_field.rb:98-101 | two fields produce a common method name only if one is the other plus a suffix (`a` and `a_fixed`) |
| Naming.RelatedMeansSharedName | lib/fixed_point_field.rb:98-101 | conversely, related fields do share a method name |
| Naming.UnrelatedNamesDisjoint | lib/fixed_point_field.rb:98-101 | unrelated fields have disjoint name sets |
| Naming.SameLengthRelated | lib/fixed_point_field.rb:98-101 | fields of equal length are related only when they are equal |
| Registration.FieldsOf | lib/fixed_point_field.rb:94 | the fields are the arguments in order, without a trailing hash |
| Registration.OptionsOf | lib/fixed_point_field.rb:94 | the options are the trailing hash when there is one, and an empty hash otherwise |
| Registration.Resolve | lib/fixed_point_field.rb:95-96 | the scale after `||=` defaulting; no contract of its own: `OptionDefaults`, `NoHashMeansDefaults` and `ZeroWidthKept` state its promises |
| Registration.OptionDefaults | lib/fixed_point_field.rb:95-96 | `||=` keeps a given width or base and replaces a missing one with 2 or 10 |
| Registration.NoHashMeansDefaults | lib/fixed_point_field.rb:94-96 | a call without a hash uses width 2 and base 10 |
| Registration.ZeroWidthKept | lib/fixed_point_field.rb:95 | an explicit width 0 is kept, because 0 is not nil, and gives factor 1 |
| Registration.Define | lib/fixed_point_field.rb:98-117 | defining a field adds exactly its four names, binds each name to the accessor of its kind for that field and scale, and leaves every other name unchanged |
| Registration.AllNames | lib/fixed_point_field.rb:97-101 | every generated name of every listed field is among the call's names |
| Registration.AllNamesMember | lib/fixed_point_field.rb:97-101 | conversely, every name of the call is the generated name of some kind for some listed field |
| Registration.DefineAll | lib/fixed_point_field.rb:97-119 | the table after the loop has exactly the old names plus the call's names; the other names keep their accessors |
| Registration.DefineAllEntry | lib/fixed_point_field.rb:97-117 | each method the call defines serves one of its fields, carries the call's scale and sits under its generated name |
| Registration.DefineAllBinds | lib/fixed_point_field.rb:97-117 | when no two fields clash, every listed field gets its four accessors, all with the same width and base |
| Registration.DefineAllLeavesOthers | lib/fixed_point_field.rb:103-117 | registering fields leaves the accessors of every unrelated field as they were |
| Registration.DefineAllIndependent | lib/fixed_point_field.rb:103-117 | what the call puts under its own names does not depend on the table it started from |
| Registration.DefineAllOverwrites | lib/fixed_point_field.rb:103-117 | two tables that agree outside the call's names are equal after the call |
| Registration.ReRegisterReplaces | lib/fixed_point_field.rb:103-117 | registering the same fields again replaces their scale; nothing of the first registration remains |
| Registration.RecordClass.constructor | lib/fixed_point_field.rb:33-35 | a class starts with no generated methods |
| Registration.RecordClass.FixedPointField | lib/fixed_point_field.rb:93-120 | the loop leaves the method table equal to `DefineAll` of the old table, the call's fields and its defaulted options |
| Records.ReadAttribute | lib/fixed_point_field.rb:61-63 | `read_attribute`; no contract of its own: `Record.ReadFixedPoint`, `NullReadsAsNil` and `FixedSetThenGet` state its promises |
| Records.ToF | lib/fixed_point_field.rb:55 | `value.to_f` for nil, integers and decimals; no contract of its own: `NilThroughFloatSetterStoresZero` and `FloatSetThenGet` state its promises |
| Records.Invoke | lib/fixed_point_field.rb:103-117 | the four `define_method` bodies; no contract of its own: `FixedSetThenGet`, `FloatSetThenGet`, `EmptyStringIsNoOp`, `NullReadsAsNil`, `ReadThenWriteBackKeepsRaw`, `OnlyOwnColumnChanges` and `FieldsDoNotInterfere` state its promises |
| Records.Dispatch | lib/fixed_point_field.rb:103-117 | calling a generated method by name, `NoMethodError` for a name never defined; no contract of its own: `Record.Call` is proved against it and `FieldsDoNotInterfere` and the `Scenarios` lemmas are stated over it |
| Records.Record.constructor | test/fixed_point_field_test.rb:24-41 | a new record has exactly the given columns, all NULL |
| Records.Record.WriteAttribute | lib/fixed_point_field.rb:43 | `write_attribute` updates one column and leaves the others unchanged |
| Records.Record.SetFixedPoint | lib/fixed_point_field.rb:42-44 | `set_fixed_point` stores the value unchanged in its column and leaves the other columns unchanged |
| Records.Record.SetFloatingPoint | lib/fixed_point_field.rb:53-56 | the empty string leaves the store unchanged; any other value stores the rounded product with the factor |
| Records.Record.ReadFixedPoint | lib/fixed_point_field.rb:61-63 | `read_fixed_point` returns exactly what `read_attribute` returns |
| Records.Record.ReadFloatingPoint | lib/fixed_point_field.rb:69-71 | nil if and only if the column is nil; otherwise the value times the factor is the stored integer |
| Records.Record.Call | lib/fixed_point_field.rb:103-117 | a call by name returns and stores what `Dispatch` specifies; a failed call leaves the store unchanged |
| Records.FixedSetThenGet | lib/fixed_point_field.rb:42-63 | an integer or nil written through `f_fixed=` is what `f_fixed` returns |
| Records.FloatSetThenGet | lib/fixed_point_field.rb:53-71 | `f=` stores the rounded scaled value, and `f` then returns a decimal within half a stored unit of the value assigned |
| Records.EmptyStringIsNoOp | lib/fixed_point_field.rb:54 | assigning `""` through `f=` leaves the attribute store unchanged |
| Records.NilThroughFloatSetterStoresZero | lib/fixed_point_field.rb:55 | assigning nil through `f=` stores 0, since `nil.to_f` is 0.0 |
| Records.NullReadsAsNil | lib/fixed_point_field.rb:61-71 | a NULL column reads as nil through both getters, and reading changes nothing |
| Records.ReadThenWriteBackKeepsRaw | lib/fixed_point_field.rb:53-71 | reading `f` and assigning the result to `f=` leaves the store exactly as it was |
| Records.OnlyOwnColumnChanges | lib/fixed_point_field.rb:103-117 | an accessor changes only its own column, and a getter changes nothing |
| Records.FieldsDoNotInterfere | lib/fixed_point_field.rb:97-117 | in a call without clashing names, any accessor of one field leaves every getter of another field returning what it returned before |
| Scenarios.CallWithTwoFields | test/fixed_point_field_test.rb:152 | `fixed_point_field :a, :b` has the fields `a`, `b` and the default scale |
| Scenarios.ColumnsDoNotClash | test/fixed_point_field_test.rb:171-188 | the generated names of `a` and `b` cannot collide |
| Scenarios.GeneratedNames | test/fixed_point_field_test.rb:160-168 | the eight generated names are spelled `a`, `a_fixed`, `a=`, `a_fixed=` and the same for `b` |
| Scenarios.TwoFieldsDefineEightAccessors | test/fixed_point_field_test.rb:151-169 | the table holds exactly the eight names, each bound to its own kind and column with the default scale |
| Scenarios.AssignDecimals | test/fixed_point_field_test.rb:175-176 | `a = 10.3` stores 1030 in `a`, then `b = 1.1` stores 110 in `b` |
| Scenarios.ReadDecimalsBack | test/fixed_point_field_test.rb:177-180 | `a`, `a_fixed`, `b` and `b_fixed` then read 10.3, 1030, 1.1 and 110 |
| Scenarios.AssignRaw | test/fixed_point_field_test.rb:182-183 | `a_fixed = 1310` and `b_fixed = 570` store those integers as given |
| Scenarios.ReadRawAssignmentsBack | test/fixed_point_field_test.rb:184-187 | `a` and `b` then read 13.10 and 5.70 |
| Scenarios.BaseTwenty | test/fixed_point_field_test.rb:210-219 | with `:base => 20`, 10.3 is stored as 4120 (10.3 * 20**2) and reads back as 10.3 |
| Scenarios.MultipleFieldsPairing | test/fixed_point_field_test.rb:171-188 | the multiple-fields test over the classes: after `FixedPointField` and each `Call`, the values read are 10.3, 1030, 1.1, 110, then 13.10 and 5.70 (asserted in its body; no ensures) |
| Scenarios.ReRegisteringOneField | test/fixed_point_field_test.rb:87-108 | registering `a` again with `:width => 1` gives `a` width 1 and leaves `b`'s accessors as they were |
| Scenarios.SuffixedFieldShadowsRawGetter | lib/fixed_point_field.rb:98-107 | registering a field `a_fixed` after `a` replaces the method `a_fixed` with the decimal getter of column `a_fixed` |

## Left out

- Floating point: `Float` is modelled as exact `real`. Error bounds and round trips are exact statements about the real-valued transform, not about IEEE-754 doubles.
- `String#to_f` and other conversions: the decimal setter accepts nil, the empty string, integers and decimals. Parsing a non-empty string is not modelled.
- The host framework's typecasting in `write_attribute`: the raw setter accepts nil or an integer. Any other value is reported as `NotAnInteger` instead of being cast.
- The metaprogramming: the `self.included`/`extend` hook (lib/fixed_point_field.rb:33-35), `send` and `respond_to?` are replaced by an explicit method table and the `Call` method. The instance methods themselves are always present in the model.
- ActiveRecord persistence, column definitions and schema: the attribute store is a map from column name to an optional integer.
- The framework's own attribute accessors: in ActiveRecord every column already has methods `a` and `a=` before any registration. The model's method table holds only the generated methods, so on a class with no registration `Dispatch` reports `NoMethodError` for `a`.
- Registration.RecordClass.FixedPointField: requires width >= 0 and base >= 1. The code does not validate its options. A negative width makes `base**width` a Rational, and a zero factor makes the division produce Infinity or NaN. These cases are outside the model.
- Registration.RecordClass.FixedPointField: requires that only the last argument may be a hash. A hash in any other position would be turned into a method name by string interpolation, and the model does not cover that case.
- Registration.OptionsOf: an options value of `false` is not modelled. `||=` replaces `false` like nil, but the model has only a missing key.
- The options hash is captured by reference in the generated methods. A caller that mutates its own hash after the call changes the conversion in the source, but not in the model, which copies the resolved scale.
- The `||=` defaulting writes `:width => 2` and `:base => 10` into the caller's own hash (lib/fixed_point_field.rb:94-96). The model resolves the defaults on a copy, so that side effect on the caller's hash is not modelled.
- Return values of Ruby assignments: `Call` returns the argument for setters, as `a = v` evaluates to `v`. The value that `set_floating_point` itself returns is not modelled.
- The Test::Unit harness and the mocha stubs (test/fixed_point_field_test.rb:66, 95, 104): the option values they check are stated as `NoHashMeansDefaults`, `OptionDefaults`, `WidthOneExample` and `CustomScaleExamples`.
