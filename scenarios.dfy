/**
 * The behaviour the repository's own test cases exercise, stated over the
 * model: a record class with integer columns `a` and `b`.
 */
module Scenarios {
  import opened Wrappers
  import opened Conversion
  import opened Naming
  import opened Registration
  import opened Records

  /** The method table after `fixed_point_field :a, :b` on a class with no accessors yet. */
  function TableAB(): MethodTable {
    DefineAll(map[], ["a", "b"], DefaultScale)
  }

  /** `fixed_point_field :a, :b` splits into the fields `a`, `b` and the default scale. */
  lemma CallWithTwoFields()
    ensures var args := [FieldName("a"), FieldName("b")];
      WellFormedArgs(args) && FieldsOf(args) == ["a", "b"] && OptionsOf(args) == NoOptions
      && Resolve(OptionsOf(args)) == DefaultScale
  {
  }

  /** The two columns are unrelated names, so their accessors cannot clash. */
  lemma ColumnsDoNotClash()
    ensures NoClashes(["a", "b"])
  {
    if Related("a", "b") {
      SameLengthRelated("a", "b");
    }
    if Related("b", "a") {
      SameLengthRelated("b", "a");
    }
  }

  /** The generated names of `a` and `b`, spelled out. */
  lemma GeneratedNames()
    ensures AccessorName("a", ReadFloat) == "a" && AccessorName("b", ReadFloat) == "b"
    ensures AccessorName("a", ReadFixed) == "a_fixed" && AccessorName("b", ReadFixed) == "b_fixed"
    ensures AccessorName("a", SetFloat) == "a=" && AccessorName("b", SetFloat) == "b="
    ensures AccessorName("a", SetFixed) == "a_fixed=" && AccessorName("b", SetFixed) == "b_fixed="
    ensures AccessorNames("a") == {"a", "a_fixed", "a=", "a_fixed="}
    ensures AccessorNames("b") == {"b", "b_fixed", "b=", "b_fixed="}
  {
  }

  /**
   * `fixed_point_field :a, :b` defines `a`, `a_fixed`, `a=`, `a_fixed=` and the
   * same four for `b`, each serving its own column with the default scale.
   */
  lemma TwoFieldsDefineEightAccessors()
    ensures TableAB().Keys == {"a", "a_fixed", "a=", "a_fixed=", "b", "b_fixed", "b=", "b_fixed="}
    ensures TableAB()["a"] == Accessor(ReadFloat, "a", DefaultScale)
    ensures TableAB()["a_fixed"] == Accessor(ReadFixed, "a", DefaultScale)
    ensures TableAB()["a="] == Accessor(SetFloat, "a", DefaultScale)
    ensures TableAB()["a_fixed="] == Accessor(SetFixed, "a", DefaultScale)
    ensures TableAB()["b"] == Accessor(ReadFloat, "b", DefaultScale)
    ensures TableAB()["b_fixed"] == Accessor(ReadFixed, "b", DefaultScale)
    ensures TableAB()["b="] == Accessor(SetFloat, "b", DefaultScale)
    ensures TableAB()["b_fixed="] == Accessor(SetFixed, "b", DefaultScale)
  {
    var fields := ["a", "b"];
    var t := TableAB();
    GeneratedNames();
    assert fields[..1] == ["a"] && ["a"][..0] == [];
    assert AllNames(fields) == AccessorNames("a") + AccessorNames("b");
    ColumnsDoNotClash();
    forall k
      ensures t[AccessorName("a", k)] == Accessor(k, "a", DefaultScale)
      ensures t[AccessorName("b", k)] == Accessor(k, "b", DefaultScale)
    {
      DefineAllBinds(map[], fields, DefaultScale, 0, k);
      DefineAllBinds(map[], fields, DefaultScale, 1, k);
    }
  }

  const Empty: Attributes := map["a" := None, "b" := None]

  /** Writing one of the two columns of a two-column store. */
  lemma WriteColumn(x: Option<int>, y: Option<int>, z: Option<int>)
    ensures map["a" := x, "b" := y]["a" := z] == map["a" := z, "b" := y]
    ensures map["a" := x, "b" := y]["b" := z] == map["a" := x, "b" := z]
  {
    assert "a" != "b" by {
      assert "a"[0] != "b"[0];
    }
  }

  /** `a = 10.3` stores 1030 in column `a`; `b = 1.1` then stores 110 in column `b`. */
  lemma AssignDecimals()
    ensures Dispatch(TableAB(), "a=", Some(Dec(10.3)), Empty)
      == Ok((Dec(10.3), map["a" := Some(1030), "b" := None]))
    ensures Dispatch(TableAB(), "b=", Some(Dec(1.1)), map["a" := Some(1030), "b" := None])
      == Ok((Dec(1.1), map["a" := Some(1030), "b" := Some(110)]))
  {
    TwoFieldsDefineEightAccessors();
    DefaultScaleExamples();
    WriteColumn(None, None, Some(1030));
    WriteColumn(Some(1030), None, Some(110));
  }

  /** After those two assignments, `a` reads 10.3, `a_fixed` 1030, `b` 1.1 and `b_fixed` 110. */
  lemma ReadDecimalsBack()
    ensures var attrs: Attributes := map["a" := Some(1030), "b" := Some(110)];
      && Dispatch(TableAB(), "a", None, attrs) == Ok((Dec(10.3), attrs))
      && Dispatch(TableAB(), "a_fixed", None, attrs) == Ok((Int(1030), attrs))
      && Dispatch(TableAB(), "b", None, attrs) == Ok((Dec(1.1), attrs))
      && Dispatch(TableAB(), "b_fixed", None, attrs) == Ok((Int(110), attrs))
  {
    TwoFieldsDefineEightAccessors();
    DefaultScaleExamples();
  }

  /** `a_fixed = 1310; b_fixed = 570` stores both integers as given. */
  lemma AssignRaw()
    ensures Dispatch(TableAB(), "a_fixed=", Some(Int(1310)), map["a" := Some(1030), "b" := Some(110)])
      == Ok((Int(1310), map["a" := Some(1310), "b" := Some(110)]))
    ensures Dispatch(TableAB(), "b_fixed=", Some(Int(570)), map["a" := Some(1310), "b" := Some(110)])
      == Ok((Int(570), map["a" := Some(1310), "b" := Some(570)]))
  {
    TwoFieldsDefineEightAccessors();
    WriteColumn(Some(1030), Some(110), Some(1310));
    WriteColumn(Some(1310), Some(110), Some(570));
  }

  /** After the raw assignments, `a` reads 13.10 and `b` reads 5.70. */
  lemma ReadRawAssignmentsBack()
    ensures var attrs: Attributes := map["a" := Some(1310), "b" := Some(570)];
      && Dispatch(TableAB(), "a", None, attrs) == Ok((Dec(13.10), attrs))
      && Dispatch(TableAB(), "b", None, attrs) == Ok((Dec(5.70), attrs))
  {
    TwoFieldsDefineEightAccessors();
    DefaultScaleExamples();
  }

  /** `fixed_point_field :a, :b, {:base => 20}`: 10.3 is stored as 4120 and reads back as 10.3. */
  lemma BaseTwenty()
    ensures var args := [FieldName("a"), FieldName("b"), OptionsHash(Options(None, Some(20)))];
      && FieldsOf(args) == ["a", "b"]
      && Resolve(OptionsOf(args)) == Scale(2, 20)
      && ToStored(10.3, Resolve(OptionsOf(args))) == 4120
      && FromStored(Some(4120), Resolve(OptionsOf(args))) == Some(10.3)
  {
    CustomScaleExamples();
  }

  /**
   * `fixed_point_field :a, :b` followed by `fixed_point_field :a, {:width => 1}`:
   * `a` now converts with width 1 while `b` keeps its accessors.
   */
  lemma ReRegisteringOneField(k: Kind)
    ensures var first := TableAB();
      var second := DefineAll(first, ["a"], Resolve(Options(Some(1), None)));
      && AccessorName("a", k) in second && AccessorName("b", k) in first && AccessorName("b", k) in second
      && second[AccessorName("a", k)] == Accessor(k, "a", Scale(1, 10))
      && second[AccessorName("b", k)] == first[AccessorName("b", k)]
  {
    var first := TableAB();
    TwoFieldsDefineEightAccessors();
    GeneratedNames();
    assert AccessorName("b", k) in first;
    assert !Related("a", "b") by {
      if Related("a", "b") { SameLengthRelated("a", "b"); }
    }
    DefineAllLeavesOthers(first, ["a"], Scale(1, 10), "b", k);
    assert NoClashes(["a"]);
    DefineAllBinds(first, ["a"], Scale(1, 10), 0, k);
  }

  /**
   * Accessors are keyed by name, so a field called `a_fixed` registered after
   * `a` takes over the name `a_fixed`: it becomes the float getter of column
   * `a_fixed` instead of the raw getter of column `a`.
   */
  lemma SuffixedFieldShadowsRawGetter(s: Scale)
    ensures var methods := DefineAll(map[], ["a", "a_fixed"], s);
      && "a_fixed" in methods && "a" in methods
      && methods["a_fixed"] == Accessor(ReadFloat, "a_fixed", s)
      && methods["a"] == Accessor(ReadFloat, "a", s)
  {
    var first := DefineAll(map[], ["a"], s);
    assert ["a", "a_fixed"][..1] == ["a"] && ["a"][..0] == [];
    assert AccessorName("a", ReadFloat) == "a";
    assert AccessorName("a_fixed", ReadFloat) == "a_fixed";
    assert first["a"] == Accessor(ReadFloat, "a", s);
  }

  /**
   * The multiple-fields test stated over the classes: register `a` and `b`,
   * assign through the float setters, then through the raw setters, reading
   * back after each round.
   */
  method MultipleFieldsPairing()
  {
    var kls := new RecordClass();
    CallWithTwoFields();
    kls.FixedPointField([FieldName("a"), FieldName("b")]);
    assert kls.methods == TableAB();
    var rec := new Record(kls, {"a", "b"});
    assert rec.attributes.Keys == Empty.Keys;
    assert rec.attributes == Empty by {
      forall c | c in Empty ensures rec.attributes[c] == Empty[c] {
        assert ReadAttribute(rec.attributes, c) == None;
      }
    }
    AssignDecimals();
    ReadDecimalsBack();
    AssignRaw();
    ReadRawAssignmentsBack();

    var r := rec.Call("a=", Some(Dec(10.3)));
    r := rec.Call("b=", Some(Dec(1.1)));
    r := rec.Call("a", None);
    assert r == Ok(Dec(10.3));
    r := rec.Call("a_fixed", None);
    assert r == Ok(Int(1030));
    r := rec.Call("b", None);
    assert r == Ok(Dec(1.1));
    r := rec.Call("b_fixed", None);
    assert r == Ok(Int(110));

    r := rec.Call("a_fixed=", Some(Int(1310)));
    r := rec.Call("b_fixed=", Some(Int(570)));
    r := rec.Call("a", None);
    assert r == Ok(Dec(13.10));
    r := rec.Call("b", None);
    assert r == Ok(Dec(5.70));
  }
}
