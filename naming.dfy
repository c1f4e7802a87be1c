/**
 * The names of the four accessors that registering a field generates. A field
 * `price` yields the float getter `price`, the raw getter `price_fixed`, the
 * float setter `price=` and the raw setter `price_fixed=`.
 */
module Naming {

  /** The four kinds of generated accessor. */
  datatype Kind = ReadFloat | ReadFixed | SetFloat | SetFixed

  /** What each kind appends to the field name. */
  function Suffix(k: Kind): string {
    match k
    case ReadFloat => ""
    case ReadFixed => "_fixed"
    case SetFloat => "="
    case SetFixed => "_fixed="
  }

  /** The generated method name: the field name followed by the kind's suffix. */
  function AccessorName(field: string, k: Kind): string {
    field + Suffix(k)
  }

  /** A generated name starts with the field name. */
  lemma FieldIsPrefix(field: string, k: Kind)
    ensures AccessorName(field, k)[..|field|] == field
  {
  }

  /** The four names of one field are pairwise different. */
  lemma NamesDistinct(field: string, k1: Kind, k2: Kind)
    requires k1 != k2
    ensures AccessorName(field, k1) != AccessorName(field, k2)
  {
    assert |Suffix(k1)| != |Suffix(k2)|;
  }

  /** The name set of one field. */
  function AccessorNames(field: string): (names: set<string>)
    ensures forall k :: AccessorName(field, k) in names
  {
    {AccessorName(field, ReadFloat), AccessorName(field, ReadFixed),
     AccessorName(field, SetFloat), AccessorName(field, SetFixed)}
  }

  /** Which of the four accessors of `field` a generated name belongs to. */
  function KindOf(field: string, n: string): (k: Kind)
    requires n in AccessorNames(field)
    ensures AccessorName(field, k) == n
  {
    if n == AccessorName(field, ReadFloat) then ReadFloat
    else if n == AccessorName(field, ReadFixed) then ReadFixed
    else if n == AccessorName(field, SetFloat) then SetFloat
    else SetFixed
  }

  /**
   * Two fields are related when one is the other followed by a suffix:
   * `price` and `price_fixed`, say. Only related fields share accessor names.
   */
  predicate Related(f: string, g: string) {
    exists k :: f == g + Suffix(k) || g == f + Suffix(k)
  }

  /** Names of two fields coincide only if the fields are related. */
  lemma {:induction false} SharedNameMeansRelated(f: string, g: string, kf: Kind, kg: Kind)
    requires AccessorName(f, kf) == AccessorName(g, kg)
    ensures Related(f, g)
  {
    var n := AccessorName(f, kf);
    if kf == kg {
      FieldIsPrefix(f, kf);
      FieldIsPrefix(g, kg);
      assert f == n[..|f|] && g == n[..|g|];
      assert f == g + Suffix(ReadFloat);
    } else if kf == ReadFloat {
      assert f == g + Suffix(kg);
    } else if kg == ReadFloat {
      assert g == f + Suffix(kf);
    } else if {kf, kg} == {SetFloat, SetFixed} {
      if kf == SetFloat {
        assert f == n[..|n| - 1];
        assert n[..|n| - 1] == g + "_fixed";
        assert f == g + Suffix(ReadFixed);
      } else {
        assert g == n[..|n| - 1];
        assert n[..|n| - 1] == f + "_fixed";
        assert g == f + Suffix(ReadFixed);
      }
    } else {
      // One name ends in 'd' and the other in '='.
      LastChar(f, kf);
      LastChar(g, kg);
      assert false;
    }
  }

  /** A generated name other than the float getter's ends in the suffix's last character. */
  lemma LastChar(field: string, k: Kind)
    requires k != ReadFloat
    ensures var n := AccessorName(field, k);
      n[|n| - 1] == (if k == ReadFixed then 'd' else '=')
  {
  }

  /** Conversely, each related pair does share a name. */
  lemma RelatedMeansSharedName(f: string, g: string)
    requires Related(f, g)
    ensures AccessorNames(f) * AccessorNames(g) != {}
  {
    var k :| f == g + Suffix(k) || g == f + Suffix(k);
    var n := if f == g + Suffix(k) then f else g;
    assert n == AccessorName(f, ReadFloat) || n == AccessorName(f, k);
    assert n == AccessorName(g, ReadFloat) || n == AccessorName(g, k);
    assert n in AccessorNames(f) * AccessorNames(g);
  }

  /** Unrelated fields have disjoint name sets. */
  lemma UnrelatedNamesDisjoint(f: string, g: string)
    requires !Related(f, g)
    ensures AccessorNames(f) !! AccessorNames(g)
  {
    forall n | n in AccessorNames(f) && n in AccessorNames(g)
      ensures false
    {
      var kf: Kind :| n == AccessorName(f, kf);
      var kg: Kind :| n == AccessorName(g, kg);
      SharedNameMeansRelated(f, g, kf, kg);
    }
  }

  /** Fields of equal length are related only when they are equal. */
  lemma SameLengthRelated(f: string, g: string)
    requires |f| == |g| && Related(f, g)
    ensures f == g
  {
    var k :| f == g + Suffix(k) || g == f + Suffix(k);
    assert |Suffix(k)| == 0;
  }
}
