/**
 * `fixed_point_field`: the class-level call that takes field names and an
 * optional trailing options hash, fills in the defaults, and defines four
 * accessors per field on the record class.
 *
 * Ruby's `define_method` is modelled by an explicit method table from method
 * name to `Accessor`; defining a name that is already present replaces it.
 */
module Registration {
  import opened Wrappers
  import opened Conversion
  import opened Naming

  /** The options hash; `None` is a missing key (or an explicit `nil`). */
  datatype Options = Options(width: Option<int>, base: Option<int>)

  const NoOptions: Options := Options(None, None)

  /** One argument of the call: a field name, or the options hash. */
  datatype Arg = FieldName(name: string) | OptionsHash(opts: Options)

  /** A generated method: its kind, the field (column) it serves, and the scale captured at registration. */
  datatype Accessor = Accessor(kind: Kind, field: string, scale: Scale)

  /** The record class's generated methods, by method name. */
  type MethodTable = map<string, Accessor>

  /** Every argument but the last is a field name; only the last may be the options hash. */
  predicate WellFormedArgs(args: seq<Arg>) {
    forall i :: 0 <= i < |args| - 1 ==> args[i].FieldName?
  }

  predicate HasOptions(args: seq<Arg>) {
    |args| > 0 && args[|args| - 1].OptionsHash?
  }

  /** The field names of the call, in order: all arguments except a trailing hash. */
  function FieldsOf(args: seq<Arg>): (fields: seq<string>)
    requires WellFormedArgs(args)
    ensures |fields| == if HasOptions(args) then |args| - 1 else |args|
    ensures forall i :: 0 <= i < |fields| ==> args[i] == FieldName(fields[i])
  {
    var n := if HasOptions(args) then |args| - 1 else |args|;
    seq(n, i requires 0 <= i < n => args[i].name)
  }

  /** The options of the call: the trailing hash, or an empty one. */
  function OptionsOf(args: seq<Arg>): (opts: Options)
    ensures HasOptions(args) ==> opts == args[|args| - 1].opts
    ensures !HasOptions(args) ==> opts == NoOptions
  {
    if HasOptions(args) then args[|args| - 1].opts else NoOptions
  }

  /** Options that give a positive factor: a width of at least 0 and a base of at least 1. */
  predicate ValidOptions(opts: Options) {
    && (opts.width.Some? ==> opts.width.value >= 0)
    && (opts.base.Some? ==> opts.base.value >= 1)
  }

  /** The scale after `opts[:width] ||= 2` and `opts[:base] ||= 10`. */
  function Resolve(opts: Options): Scale
    requires ValidOptions(opts)
  {
    Scale(
      match opts.width case Some(w) => w case None => DefaultWidth,
      match opts.base case Some(b) => b case None => DefaultBase)
  }

  /** The four methods generated for `field`, added to (or replacing entries of) `m`. */
  function Define(m: MethodTable, field: string, s: Scale): (r: MethodTable)
    ensures r.Keys == m.Keys + AccessorNames(field)
    ensures forall k :: r[AccessorName(field, k)] == Accessor(k, field, s)
    ensures forall n :: n in m && n !in AccessorNames(field) ==> r[n] == m[n]
  {
    m[AccessorName(field, ReadFixed) := Accessor(ReadFixed, field, s)]
     [AccessorName(field, ReadFloat) := Accessor(ReadFloat, field, s)]
     [AccessorName(field, SetFloat) := Accessor(SetFloat, field, s)]
     [AccessorName(field, SetFixed) := Accessor(SetFixed, field, s)]
  }

  /** All method names generated for the fields of one call. */
  function AllNames(fields: seq<string>): (names: set<string>)
    ensures forall i, k :: 0 <= i < |fields| ==> AccessorName(fields[i], k) in names
    decreases |fields|
  {
    if fields == [] then {}
    else
      var init := fields[..|fields| - 1];
      assert forall i :: 0 <= i < |init| ==> init[i] == fields[i];
      AllNames(init) + AccessorNames(fields[|fields| - 1])
  }

  /** The method table after defining the accessors of each field in turn. */
  function DefineAll(m: MethodTable, fields: seq<string>, s: Scale): (r: MethodTable)
    ensures r.Keys == m.Keys + AllNames(fields)
    ensures forall n :: n in m && n !in AllNames(fields) ==> r[n] == m[n]
    decreases |fields|
  {
    if fields == [] then m
    else Define(DefineAll(m, fields[..|fields| - 1], s), fields[|fields| - 1], s)
  }

  /**
   * Each method that the call defines is an accessor of one of its fields,
   * carries the call's scale, and sits under the name generated for it.
   */
  lemma {:induction false} DefineAllEntry(m: MethodTable, fields: seq<string>, s: Scale, n: string)
    requires n in AllNames(fields)
    ensures var acc := DefineAll(m, fields, s)[n];
      acc.field in fields && acc.scale == s && n == AccessorName(acc.field, acc.kind)
    decreases |fields|
  {
    var init, last := fields[..|fields| - 1], fields[|fields| - 1];
    assert fields == init + [last];
    var prev := DefineAll(m, init, s);
    var acc := Define(prev, last, s)[n];
    if n in AccessorNames(last) {
      var k := KindOf(last, n);
      assert acc == Accessor(k, last, s);
    } else {
      assert n in AllNames(init);
      DefineAllEntry(m, init, s, n);
      assert acc == prev[n];
      assert acc.field in init;
    }
  }

  /** Every name the call defines is generated from one of its fields. */
  lemma {:induction false} AllNamesMember(fields: seq<string>, n: string)
    requires n in AllNames(fields)
    ensures exists i, k :: 0 <= i < |fields| && n == AccessorName(fields[i], k)
    decreases |fields|
  {
    var init, last := fields[..|fields| - 1], fields[|fields| - 1];
    if n in AccessorNames(last) {
      var k: Kind :| n == AccessorName(last, k);
      assert n == AccessorName(fields[|fields| - 1], k);
    } else {
      AllNamesMember(init, n);
      var i, k :| 0 <= i < |init| && n == AccessorName(init[i], k);
      assert n == AccessorName(fields[i], k);
    }
  }

  /**
   * Registering fields leaves the accessors of every field unrelated to them
   * as they were: re-registering `a` with new options does not touch `b`.
   */
  lemma DefineAllLeavesOthers(m: MethodTable, fields: seq<string>, s: Scale, g: string, k: Kind)
    requires forall i :: 0 <= i < |fields| ==> !Related(fields[i], g)
    requires AccessorName(g, k) in m
    ensures DefineAll(m, fields, s)[AccessorName(g, k)] == m[AccessorName(g, k)]
  {
    var n := AccessorName(g, k);
    if n in AllNames(fields) {
      AllNamesMember(fields, n);
      var i, k' :| 0 <= i < |fields| && n == AccessorName(fields[i], k');
      SharedNameMeansRelated(fields[i], g, k', k);
      assert false;
    }
  }

  /** What `DefineAll` puts under one of its own names does not depend on the table it started from. */
  lemma {:induction false} DefineAllIndependent(m1: MethodTable, m2: MethodTable, fields: seq<string>, s: Scale, n: string)
    requires n in AllNames(fields)
    ensures DefineAll(m1, fields, s)[n] == DefineAll(m2, fields, s)[n]
    decreases |fields|
  {
    var init, last := fields[..|fields| - 1], fields[|fields| - 1];
    if n !in AccessorNames(last) {
      DefineAllIndependent(m1, m2, init, s, n);
    }
  }

  /** Defining one more field extends `DefineAll` by one step. */
  lemma DefineAllSnoc(m: MethodTable, fields: seq<string>, field: string, s: Scale)
    ensures DefineAll(m, fields + [field], s) == Define(DefineAll(m, fields, s), field, s)
  {
    assert (fields + [field])[..|fields|] == fields;
  }

  /** The loop step of `fixed_point_field`: one more field of the call defined. */
  lemma DefineAllStep(m: MethodTable, names: seq<string>, i: nat, s: Scale)
    requires i < |names|
    ensures DefineAll(m, names[..i + 1], s) == Define(DefineAll(m, names[..i], s), names[i], s)
  {
    assert names[..i + 1] == names[..i] + [names[i]];
    DefineAllSnoc(m, names[..i], names[i], s);
  }

  /** No two different fields of the call share a generated method name. */
  predicate NoClashes(fields: seq<string>) {
    forall i, j :: 0 <= i < |fields| && 0 <= j < |fields| && fields[i] != fields[j] ==>
      !Related(fields[i], fields[j])
  }

  /**
   * Every listed field gets its four accessors, all with the call's scale,
   * provided no two fields clash (as `price` and `price_fixed` would).
   */
  lemma DefineAllBinds(m: MethodTable, fields: seq<string>, s: Scale, i: int, k: Kind)
    requires NoClashes(fields) && 0 <= i < |fields|
    ensures DefineAll(m, fields, s)[AccessorName(fields[i], k)] == Accessor(k, fields[i], s)
  {
    var n := AccessorName(fields[i], k);
    DefineAllEntry(m, fields, s, n);
    var acc := DefineAll(m, fields, s)[n];
    SharedNameMeansRelated(acc.field, fields[i], acc.kind, k);
    if acc.kind != k {
      NamesDistinct(fields[i], acc.kind, k);
    }
  }

  /** The result of `DefineAll` depends on `m` only outside the names it defines. */
  lemma DefineAllOverwrites(m1: MethodTable, m2: MethodTable, fields: seq<string>, s: Scale)
    requires m1.Keys - AllNames(fields) == m2.Keys - AllNames(fields)
    requires forall n :: n in m1 && n in m2 && n !in AllNames(fields) ==> m1[n] == m2[n]
    ensures DefineAll(m1, fields, s) == DefineAll(m2, fields, s)
  {
    var r1, r2 := DefineAll(m1, fields, s), DefineAll(m2, fields, s);
    var names := AllNames(fields);
    forall n
      ensures n in r1 <==> n in r2
      ensures n in r1 ==> r1[n] == r2[n]
    {
      if n in names {
        DefineAllIndependent(m1, m2, fields, s, n);
      } else {
        assert n in m1 <==> n in m1.Keys - names;
        assert n in m2 <==> n in m2.Keys - names;
      }
    }
    assert r1.Keys == r2.Keys;
  }

  /** Registering the same fields again replaces their scale; nothing of the first call remains. */
  lemma ReRegisterReplaces(m: MethodTable, fields: seq<string>, s1: Scale, s2: Scale)
    ensures DefineAll(DefineAll(m, fields, s1), fields, s2) == DefineAll(m, fields, s2)
  {
    DefineAllOverwrites(DefineAll(m, fields, s1), m, fields, s2);
  }

  /** A record class: the table of methods `fixed_point_field` has defined on it. */
  class RecordClass {
    var methods: MethodTable

    constructor ()
      ensures methods == map[]
    {
      methods := map[];
    }

    /** `fixed_point_field *fields`: split off the options, default them, define each field's accessors. */
    method FixedPointField(args: seq<Arg>)
      requires WellFormedArgs(args) && ValidOptions(OptionsOf(args))
      modifies this
      ensures methods == DefineAll(old(methods), FieldsOf(args), Resolve(OptionsOf(args)))
    {
      var fields := args;
      var opts := NoOptions;
      if |fields| > 0 && fields[|fields| - 1].OptionsHash? {
        opts := fields[|fields| - 1].opts;
        fields := fields[..|fields| - 1];
      }
      if opts.width.None? {
        opts := opts.(width := Some(DefaultWidth));
      }
      if opts.base.None? {
        opts := opts.(base := Some(DefaultBase));
      }
      var scale := Scale(opts.width.value, opts.base.value);
      assert scale == Resolve(OptionsOf(args));
      ghost var names := FieldsOf(args);
      assert |names| == |fields| && forall i :: 0 <= i < |fields| ==> fields[i] == FieldName(names[i]);
      var i := 0;
      while i < |fields|
        invariant 0 <= i <= |fields|
        invariant methods == DefineAll(old(methods), names[..i], scale)
      {
        var field := fields[i].name;
        assert fields[i] == FieldName(names[i]);
        DefineAllStep(old(methods), names, i, scale);
        methods := Define(methods, field, scale);
        i := i + 1;
      }
      assert names[..i] == names;
    }
  }

  /**
   * `||=` fills in only what is missing: a given width or base is kept, a
   * missing one becomes 2 or 10.
   */
  lemma OptionDefaults(opts: Options)
    requires ValidOptions(opts)
    ensures opts.width.Some? ==> Resolve(opts).width == opts.width.value
    ensures opts.width.None? ==> Resolve(opts).width == DefaultWidth
    ensures opts.base.Some? ==> Resolve(opts).base == opts.base.value
    ensures opts.base.None? ==> Resolve(opts).base == DefaultBase
  {
  }

  /** A call without a trailing hash gets width 2 and base 10. */
  lemma NoHashMeansDefaults(args: seq<Arg>)
    requires !HasOptions(args)
    ensures Resolve(OptionsOf(args)) == DefaultScale
  {
  }

  /** An explicit width 0 is kept, since 0 is not nil, and gives factor 1. */
  lemma ZeroWidthKept()
    ensures Resolve(Options(Some(0), None)) == Scale(0, DefaultBase)
    ensures Factor(Resolve(Options(Some(0), None))) == 1
  {
  }
}
