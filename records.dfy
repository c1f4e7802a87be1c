/**
 * A record of a class that mixes in the field accessors: the instance methods
 * `set_fixed_point`, `set_floating_point`, `read_fixed_point` and
 * `read_floating_point` over the framework's attribute store, and the
 * generated accessors, reached by method name.
 */
module Records {
  import opened Wrappers
  import opened Conversion
  import opened Naming
  import opened Registration

  /** The Ruby values an accessor is called with or returns. */
  datatype Value = Nil | EmptyString | Int(i: int) | Dec(x: real)

  /** Why a call through a method name fails. */
  datatype CallError =
    | NoMethodError(name: string)    // no method of that name was generated
    | ArgumentError(name: string)    // a getter given an argument, or a setter given none
    | NotAnInteger(name: string)     // a raw setter given a value an integer column cannot hold as is

  /** The framework's attribute store: column name to integer, `None` for NULL. */
  type Attributes = map<string, Option<int>>

  /** `read_attribute`: the stored value, nil for a column that holds nothing. */
  function ReadAttribute(attrs: Attributes, column: string): Option<int> {
    if column in attrs then attrs[column] else None
  }

  /** `value.to_f` for the values the float setter converts. */
  function ToF(v: Value): real
    requires v != EmptyString
  {
    match v
    case Nil => 0.0
    case Int(i) => i as real
    case Dec(x) => x
  }

  function OfRaw(raw: Option<int>): Value {
    match raw
    case None => Nil
    case Some(n) => Int(n)
  }

  function OfDecimal(d: Option<real>): Value {
    match d
    case None => Nil
    case Some(x) => Dec(x)
  }

  /**
   * The effect of calling the generated method `acc` with `arg` (`None` for
   * no argument): the value the call evaluates to and the attributes after it.
   */
  function Invoke(name: string, acc: Accessor, arg: Option<Value>, attrs: Attributes): Result<(Value, Attributes), CallError>
  {
    match (acc.kind, arg)
    case (ReadFixed, None) => Ok((OfRaw(ReadAttribute(attrs, acc.field)), attrs))
    case (ReadFloat, None) => Ok((OfDecimal(FromStored(ReadAttribute(attrs, acc.field), acc.scale)), attrs))
    case (SetFloat, Some(v)) =>
      if v == EmptyString then Ok((v, attrs))
      else Ok((v, attrs[acc.field := Some(ToStored(ToF(v), acc.scale))]))
    case (SetFixed, Some(v)) =>
      (match v
       case Nil => Ok((v, attrs[acc.field := None]))
       case Int(i) => Ok((v, attrs[acc.field := Some(i)]))
       case _ => Err(NotAnInteger(name)))
    case _ => Err(ArgumentError(name))
  }

  /** Calling a method by name on a record whose class has the table `methods`. */
  function Dispatch(methods: MethodTable, name: string, arg: Option<Value>, attrs: Attributes): Result<(Value, Attributes), CallError>
  {
    if name in methods then Invoke(name, methods[name], arg, attrs) else Err(NoMethodError(name))
  }

  /** A record: its class and its attribute store. */
  class Record {
    const kls: RecordClass
    var attributes: Attributes

    /** A new record whose columns all hold NULL. */
    constructor (kls: RecordClass, columns: set<string>)
      ensures this.kls == kls
      ensures forall c :: ReadAttribute(attributes, c) == None
      ensures attributes.Keys == columns
    {
      this.kls := kls;
      attributes := map c | c in columns :: None;
    }

    /** `write_attribute`: store `value` in `column`, nothing else changes. */
    method WriteAttribute(column: string, value: Option<int>)
      modifies this
      ensures attributes == old(attributes)[column := value]
    {
      attributes := attributes[column := value];
    }

    /** `set_fixed_point`: hands the value unchanged to `write_attribute`. */
    method SetFixedPoint(column: string, value: Option<int>)
      modifies this
      ensures attributes == old(attributes)[column := value]
    {
      WriteAttribute(column, value);
    }

    /**
     * `set_floating_point`: the empty string is ignored; any other value is
     * scaled by `base**width`, rounded and stored.
     */
    method SetFloatingPoint(column: string, value: Value, scale: Scale := DefaultScale)
      modifies this
      ensures value == EmptyString ==> attributes == old(attributes)
      ensures value != EmptyString ==>
        attributes == old(attributes)[column := Some(ToStored(ToF(value), scale))]
    {
      if value == EmptyString {
        return;
      }
      SetFixedPoint(column, Some(ToStored(ToF(value), scale)));
    }

    /** `read_fixed_point`: exactly what `read_attribute` returns. */
    function ReadFixedPoint(column: string): (r: Option<int>)
      reads this
      ensures r == ReadAttribute(attributes, column)
    {
      ReadAttribute(attributes, column)
    }

    /** `read_floating_point`: nil for nil, otherwise the stored integer over `base**width`. */
    function ReadFloatingPoint(column: string, scale: Scale := DefaultScale): (r: Option<real>)
      reads this
      ensures r.None? <==> ReadAttribute(attributes, column).None?
      ensures r.Some? ==> r.value * Factor(scale) as real == ReadAttribute(attributes, column).value as real
    {
      var raw := ReadFixedPoint(column);
      if raw.Some? then Some(FromStoredValue(raw.value, scale)) else None
    }

    /**
     * `record.send(name, *arg)` for a generated accessor: look the name up in
     * the class's table and run the accessor found there.
     */
    method Call(name: string, arg: Option<Value>) returns (r: Result<Value, CallError>)
      modifies this
      ensures var out := Dispatch(kls.methods, name, arg, old(attributes));
        && (out.Ok? ==> r == Ok(out.value.0) && attributes == out.value.1)
        && (out.Err? ==> r == Err(out.error) && attributes == old(attributes))
    {
      if name !in kls.methods {
        return Err(NoMethodError(name));
      }
      var acc := kls.methods[name];
      match (acc.kind, arg)
      case (ReadFixed, None) =>
        r := Ok(OfRaw(ReadFixedPoint(acc.field)));
      case (ReadFloat, None) =>
        r := Ok(OfDecimal(ReadFloatingPoint(acc.field, acc.scale)));
      case (SetFloat, Some(v)) =>
        SetFloatingPoint(acc.field, v, acc.scale);
        r := Ok(v);
      case (SetFixed, Some(v)) =>
        match v {
          case Nil =>
            SetFixedPoint(acc.field, None);
            r := Ok(v);
          case Int(i) =>
            SetFixedPoint(acc.field, Some(i));
            r := Ok(v);
          case _ =>
            r := Err(NotAnInteger(name));
        }
      case _ =>
        r := Err(ArgumentError(name));
    }
  }

  predicate IsGetter(k: Kind) {
    k == ReadFloat || k == ReadFixed
  }

  /** The raw setter stores what it is given, and the raw getter returns it unchanged. */
  lemma FixedSetThenGet(name: string, field: string, s: Scale, v: Value, attrs: Attributes)
    requires (v.Nil? || v.Int?)
    ensures var put := Invoke(name, Accessor(SetFixed, field, s), Some(v), attrs);
      && put.Ok? && put.value.0 == v
      && Invoke(name, Accessor(ReadFixed, field, s), None, put.value.1) == Ok((v, put.value.1))
  {
  }

  /**
   * The float setter stores the integer nearest to `x * base**width`, and the
   * float getter then returns a value within half a stored unit of `x`.
   */
  lemma FloatSetThenGet(name: string, field: string, s: Scale, x: real, attrs: Attributes)
    ensures var put := Invoke(name, Accessor(SetFloat, field, s), Some(Dec(x)), attrs);
      && put.Ok?
      && ReadAttribute(put.value.1, field) == Some(ToStored(x, s))
      && var get := Invoke(name, Accessor(ReadFloat, field, s), None, put.value.1);
      && get.Ok? && get.value.0.Dec?
      && Abs(get.value.0.x - x) * Factor(s) as real <= 0.5
  {
    StoreErrorBound(x, s);
  }

  /** Assigning the empty string through the float setter changes nothing. */
  lemma EmptyStringIsNoOp(name: string, field: string, s: Scale, attrs: Attributes)
    ensures Invoke(name, Accessor(SetFloat, field, s), Some(EmptyString), attrs) == Ok((EmptyString, attrs))
  {
  }

  /** Assigning nil through the float setter stores 0, since `nil.to_f` is 0.0. */
  lemma NilThroughFloatSetterStoresZero(name: string, field: string, s: Scale, attrs: Attributes)
    ensures var put := Invoke(name, Accessor(SetFloat, field, s), Some(Nil), attrs);
      put.Ok? && ReadAttribute(put.value.1, field) == Some(0)
  {
    RoundOfInteger(0);
  }

  /** A column holding NULL reads as nil through both getters, neither 0 nor an error. */
  lemma NullReadsAsNil(name: string, field: string, s: Scale, k: Kind, attrs: Attributes)
    requires IsGetter(k) && ReadAttribute(attrs, field) == None
    ensures Invoke(name, Accessor(k, field, s), None, attrs) == Ok((Nil, attrs))
  {
  }

  /**
   * Raw round trip through the accessors: the decimal read from a stored
   * integer, assigned back through the float setter, stores that integer again.
   */
  lemma ReadThenWriteBackKeepsRaw(name: string, field: string, s: Scale, raw: int, attrs: Attributes)
    requires ReadAttribute(attrs, field) == Some(raw)
    ensures var get := Invoke(name, Accessor(ReadFloat, field, s), None, attrs);
      && get.Ok? && get.value.0.Dec?
      && var put := Invoke(name, Accessor(SetFloat, field, s), Some(get.value.0), attrs);
      && put.Ok? && put.value.1 == attrs
  {
    RawRoundTrip(raw, s);
  }

  /** An accessor touches only its own column, and a getter touches nothing. */
  lemma OnlyOwnColumnChanges(name: string, acc: Accessor, arg: Option<Value>, attrs: Attributes, column: string)
    requires Invoke(name, acc, arg, attrs).Ok?
    ensures var after := Invoke(name, acc, arg, attrs).value.1;
      && (column != acc.field ==> ReadAttribute(after, column) == ReadAttribute(attrs, column))
      && (IsGetter(acc.kind) ==> after == attrs)
  {
  }

  /**
   * Fields registered together do not interfere: whatever accessor of one
   * field is called, every getter of another field returns what it returned before.
   */
  lemma FieldsDoNotInterfere(m: MethodTable, fields: seq<string>, s: Scale, methods: MethodTable,
                             i: int, k: Kind, arg: Option<Value>,
                             j: int, kg: Kind, attrs: Attributes)
    requires methods == DefineAll(m, fields, s)
    requires NoClashes(fields) && 0 <= i < |fields| && 0 <= j < |fields| && fields[i] != fields[j]
    requires IsGetter(kg)
    requires Dispatch(methods, AccessorName(fields[i], k), arg, attrs).Ok?
    ensures var after := Dispatch(methods, AccessorName(fields[i], k), arg, attrs).value.1;
      && Dispatch(methods, AccessorName(fields[j], kg), None, after).Ok?
      && Dispatch(methods, AccessorName(fields[j], kg), None, after).value.0
         == Dispatch(methods, AccessorName(fields[j], kg), None, attrs).value.0
  {
    DefineAllBinds(m, fields, s, i, k);
    DefineAllBinds(m, fields, s, j, kg);
    var name := AccessorName(fields[i], k);
    OnlyOwnColumnChanges(name, methods[name], arg, attrs, fields[j]);
  }
}
