/** The product attribute adapter: converts between a WooCommerce product attribute and the
    native Attribute model. Reading a taxonomy attribute takes its name and label from the
    taxonomy and keeps only lower-cased value IDs; reading a custom attribute keeps each option as
    a value's label. Writing back updates the adapter's WooCommerce attribute in place: options
    become the value labels of a custom attribute, and the non-zero integer term IDs of a taxonomy
    attribute. */
module ProductAttributes {
  import opened Php

  /** An option of a WooCommerce attribute: text for a custom attribute, a term ID for a taxonomy
      attribute, or null (what an unset native label turns into). */
  datatype SourceValue = Text(text: string) | TermId(termId: int) | Null

  /** The `(string)` cast of an option. */
  function OptionString(v: SourceValue): string {
    match v
    case Text(s) => s
    case TermId(n) => IntToString(n)
    case Null => ""
  }

  /** A WooCommerce product attribute: its ID (0 for a custom attribute), name, options,
      visibility, variation flag and position (which the adapter never touches). */
  datatype SourceAttribute = SourceAttribute(
    id: int,
    name: string,
    options: seq<SourceValue>,
    visible: bool,
    variation: bool,
    position: int)

  /** WooCommerce's `get_taxonomy()`: the name of an attribute with a positive ID, and '' for a
      custom attribute. */
  function SourceTaxonomyName(s: SourceAttribute): string {
    if s.id > 0 then s.name else ""
  }

  /** A product taxonomy, as `Taxonomy::get` finds it. */
  datatype Taxonomy = Taxonomy(name: string, labelText: string)

  /** A native attribute value; label and name are None when they were never set. */
  datatype AttributeValue = AttributeValue(id: string, labelText: Option<string>, name: Option<string>)

  /** A native attribute; the ID is None when it was never set. */
  datatype Attribute = Attribute(
    id: Option<int>,
    name: string,
    labelText: string,
    isForVariant: bool,
    isVisible: bool,
    taxonomy: Option<Taxonomy>,
    values: seq<AttributeValue>)

  /** The native value for one option (`convertAttributeValuesFromSource`, one iteration). */
  function ValueFromSource(v: SourceValue, hasTaxonomy: bool): AttributeValue {
    var s := OptionString(v);
    if hasTaxonomy then AttributeValue(Lower(s), None, None)
    else AttributeValue(Lower(s), Some(s), Some(Lower(s)))
  }

  /** `convertAttributeValuesFromSource`: one native value per option, in order. */
  function ValuesFromSource(options: seq<SourceValue>, hasTaxonomy: bool): (r: seq<AttributeValue>)
    ensures |r| == |options|
  {
    seq(|options|, i requires 0 <= i < |options| => ValueFromSource(options[i], hasTaxonomy))
  }

  /** The taxonomy a source attribute belongs to, if any. */
  function TaxonomyOf(s: SourceAttribute, taxonomyOf: string -> Option<Taxonomy>): Option<Taxonomy> {
    var taxonomyName := SourceTaxonomyName(s);
    if Truthy(taxonomyName) then taxonomyOf(taxonomyName) else None
  }

  /** `convertFromSource`, with `Taxonomy::get` as `taxonomyOf`. */
  function FromSource(s: SourceAttribute, taxonomyOf: string -> Option<Taxonomy>): Attribute {
    var taxonomy := TaxonomyOf(s, taxonomyOf);
    var name := if taxonomy.Some? then taxonomy.value.name else s.name;
    var labelText := if taxonomy.Some? then taxonomy.value.labelText else s.name;
    Attribute(Some(s.id), Lower(name), labelText, s.variation, s.visible, taxonomy,
              ValuesFromSource(s.options, taxonomy.Some?))
  }

  /** The options one native value gives (`convertAttributeValuesToSource`, one iteration): its
      label without a taxonomy, else its ID as an integer when that is not 0. */
  function ValueToSource(v: AttributeValue, hasTaxonomy: bool): seq<SourceValue> {
    if !hasTaxonomy then [if v.labelText.Some? then Text(v.labelText.value) else Null]
    else
      var termId := StringToInt(v.id);
      if termId != 0 then [TermId(termId)] else []
  }

  /** `convertAttributeValuesToSource`. */
  function ValuesToSource(values: seq<AttributeValue>, hasTaxonomy: bool): seq<SourceValue>
    decreases |values|
  {
    if values == [] then []
    else ValuesToSource(values[..|values| - 1], hasTaxonomy) + ValueToSource(values[|values| - 1], hasTaxonomy)
  }

  /** `convertToSource` applied to the adapter's attribute `s`. */
  function ToSource(s: SourceAttribute, a: Attribute): SourceAttribute {
    SourceAttribute(
      id := if a.id.Some? then a.id.value else 0,
      name := a.name,
      options := ValuesToSource(a.values, a.taxonomy.Some?),
      visible := a.isVisible,
      variation := a.isForVariant,
      position := s.position)
  }

  /** The adapter, holding the WooCommerce attribute it reads and writes. */
  class AttributeAdapter {
    var source: SourceAttribute

    constructor (attribute: SourceAttribute)
      ensures source == attribute
    {
      source := attribute;
    }

    /** `convertFromSource`. */
    method ConvertFromSource(taxonomyOf: string -> Option<Taxonomy>) returns (a: Attribute)
      ensures a == FromSource(source, taxonomyOf)
    {
      var taxonomyName := SourceTaxonomyName(source);
      var taxonomy := if Truthy(taxonomyName) then taxonomyOf(taxonomyName) else None;
      var name := if taxonomy.Some? then taxonomy.value.name else source.name;
      var labelText := if taxonomy.Some? then taxonomy.value.labelText else source.name;
      a := Attribute(Some(source.id), Lower(name), labelText, source.variation, source.visible, taxonomy, []);
      var values := ConvertAttributeValuesFromSource(a);
      a := a.(values := values);
    }

    /** `convertAttributeValuesFromSource`: the values for the attribute `a` being built. */
    method ConvertAttributeValuesFromSource(a: Attribute) returns (values: seq<AttributeValue>)
      ensures values == ValuesFromSource(source.options, a.taxonomy.Some?)
    {
      var options := source.options;
      values := [];
      var i := 0;
      while i < |options|
        invariant 0 <= i <= |options|
        invariant values == ValuesFromSource(options[..i], a.taxonomy.Some?)
      {
        var s := OptionString(options[i]);
        var value := AttributeValue(Lower(s), None, None);
        if a.taxonomy.None? {
          value := value.(labelText := Some(s), name := Some(Lower(s)));
        }
        values := values + [value];
        i := i + 1;
      }
      assert options[..i] == options;
    }

    /** `convertToSource`; None stands for a null native attribute, which leaves the WooCommerce
        attribute alone. */
    method ConvertToSource(native: Option<Attribute>) returns (r: Option<SourceAttribute>)
      modifies this
      ensures native.None? ==> r.None? && source == old(source)
      ensures native.Some? ==> source == ToSource(old(source), native.value) && r == Some(source)
    {
      if native.None? {
        return None;
      }
      var a := native.value;
      var options := ConvertAttributeValuesToSource(a);
      source := source.(id := if a.id.Some? then a.id.value else 0, name := a.name,
                        visible := a.isVisible, variation := a.isForVariant, options := options);
      return Some(source);
    }

    /** `convertAttributeValuesToSource`. */
    method ConvertAttributeValuesToSource(a: Attribute) returns (options: seq<SourceValue>)
      ensures options == ValuesToSource(a.values, a.taxonomy.Some?)
    {
      options := [];
      var i := 0;
      while i < |a.values|
        invariant 0 <= i <= |a.values|
        invariant options == ValuesToSource(a.values[..i], a.taxonomy.Some?)
      {
        var value := a.values[i];
        if a.taxonomy.None? {
          options := options + [if value.labelText.Some? then Text(value.labelText.value) else Null];
        } else {
          var termId := StringToInt(value.id);
          if termId != 0 {
            options := options + [TermId(termId)];
          }
        }
        assert a.values[..i + 1][..i] == a.values[..i];
        i := i + 1;
      }
      assert a.values[..i] == a.values;
    }
  }

  // ---------------------------------------------------------------------------
  // Properties of the conversions

  /** Lower-casing leaves a decimal integer unchanged. */
  lemma LowerOfIntToString(n: int)
    ensures Lower(IntToString(n)) == IntToString(n)
  {
    var s := IntToString(n);
    if n < 0 {
      LowerOfDigits(NatToString(-n));
      assert forall i :: 0 <= i < |s| ==> LowerChar(s[i]) == s[i];
    } else {
      LowerOfDigits(s);
    }
  }

  /** The name of a read attribute is lower-case, its label is the taxonomy's label or the
      attribute's own name, and every value ID is lower-case; labels and names are set on the
      values exactly when there is no taxonomy. */
  lemma FromSourceNaming(s: SourceAttribute, taxonomyOf: string -> Option<Taxonomy>)
    ensures var a := FromSource(s, taxonomyOf);
      && Lower(a.name) == a.name
      && a.labelText == (if a.taxonomy.Some? then a.taxonomy.value.labelText else s.name)
      && (a.taxonomy.Some? ==> s.id > 0 && Truthy(s.name) && a.taxonomy == taxonomyOf(s.name))
      && |a.values| == |s.options|
      && (forall i :: 0 <= i < |a.values| ==>
            && Lower(a.values[i].id) == a.values[i].id
            && (a.values[i].labelText.Some? <==> a.taxonomy.None?)
            && (a.values[i].labelText.Some? ==> a.values[i].labelText.value == OptionString(s.options[i])))
  {
    var a := FromSource(s, taxonomyOf);
    LowerIdempotent(if a.taxonomy.Some? then a.taxonomy.value.name else s.name);
    forall i | 0 <= i < |a.values|
      ensures Lower(a.values[i].id) == a.values[i].id
    {
      LowerIdempotent(OptionString(s.options[i]));
    }
  }

  /** Writing back a taxonomy attribute only ever produces non-zero term IDs, at most one per
      value. */
  lemma {:induction false} TaxonomyOptionsAreTermIds(values: seq<AttributeValue>)
    ensures |ValuesToSource(values, true)| <= |values|
    ensures forall o :: o in ValuesToSource(values, true) ==> o.TermId? && o.termId != 0
    decreases |values|
  {
    if values != [] {
      TaxonomyOptionsAreTermIds(values[..|values| - 1]);
    }
  }

  /** Writing back a custom attribute gives one option per value: its label. */
  lemma {:induction false} CustomOptionsAreLabels(values: seq<AttributeValue>)
    ensures |ValuesToSource(values, false)| == |values|
    ensures forall i :: 0 <= i < |values| ==>
      ValuesToSource(values, false)[i] == if values[i].labelText.Some? then Text(values[i].labelText.value) else Null
    decreases |values|
  {
    if values != [] {
      CustomOptionsAreLabels(values[..|values| - 1]);
    }
  }

  /** The options of a custom attribute survive reading and writing back unchanged. */
  lemma {:induction false} CustomValuesRoundTrip(options: seq<SourceValue>)
    requires forall i :: 0 <= i < |options| ==> options[i].Text?
    ensures ValuesToSource(ValuesFromSource(options, false), false) == options
    decreases |options|
  {
    if options != [] {
      var n := |options| - 1;
      assert ValuesFromSource(options, false)[..n] == ValuesFromSource(options[..n], false);
      CustomValuesRoundTrip(options[..n]);
      assert options == options[..n] + [options[n]];
    }
  }

  /** One non-zero term ID survives reading and writing back. */
  lemma TermIdRoundTrip(option: SourceValue)
    requires option.TermId? && option.termId != 0
    ensures ValueToSource(ValueFromSource(option, true), true) == [option]
  {
    LowerOfIntToString(option.termId);
    StringToIntOfIntToString(option.termId);
  }

  /** The non-zero term IDs of a taxonomy attribute survive reading and writing back
      unchanged. */
  lemma {:induction false} TermIdsRoundTrip(options: seq<SourceValue>)
    requires forall i :: 0 <= i < |options| ==> options[i].TermId? && options[i].termId != 0
    ensures ValuesToSource(ValuesFromSource(options, true), true) == options
  {
    var values := ValuesFromSource(options, true);
    forall i | 0 <= i < |options|
      ensures ValueToSource(values[i], true) == [options[i]]
    {
      TermIdRoundTrip(options[i]);
    }
    OneOptionPerValue(values, options);
  }

  /** Values that each give back exactly one given option give back all those options, in
      order. */
  lemma {:induction false} OneOptionPerValue(values: seq<AttributeValue>, options: seq<SourceValue>)
    requires |values| == |options|
    requires forall i :: 0 <= i < |values| ==> ValueToSource(values[i], true) == [options[i]]
    ensures ValuesToSource(values, true) == options
    decreases |values|
  {
    if values != [] {
      var n := |values| - 1;
      OneOptionPerValue(values[..n], options[..n]);
      assert options == options[..n] + [options[n]];
    }
  }

  /** A custom attribute with a lower-case name and text options is written back exactly as it
      was read. */
  lemma CustomAttributeRoundTrip(s: SourceAttribute, taxonomyOf: string -> Option<Taxonomy>)
    requires TaxonomyOf(s, taxonomyOf).None?
    requires Lower(s.name) == s.name
    requires forall i :: 0 <= i < |s.options| ==> s.options[i].Text?
    ensures ToSource(s, FromSource(s, taxonomyOf)) == s
  {
    CustomValuesRoundTrip(s.options);
  }

  /** A taxonomy attribute whose taxonomy carries its own lower-case name, with non-zero term ID
      options, is written back exactly as it was read. */
  lemma TaxonomyAttributeRoundTrip(s: SourceAttribute, taxonomyOf: string -> Option<Taxonomy>)
    requires TaxonomyOf(s, taxonomyOf).Some? && TaxonomyOf(s, taxonomyOf).value.name == s.name
    requires Lower(s.name) == s.name
    requires forall i :: 0 <= i < |s.options| ==> s.options[i].TermId? && s.options[i].termId != 0
    ensures ToSource(s, FromSource(s, taxonomyOf)) == s
  {
    TermIdsRoundTrip(s.options);
  }

  /** Writing back a list of values is writing back each part and joining the results. */
  lemma {:induction false} ValuesToSourceAppend(a: seq<AttributeValue>, b: seq<AttributeValue>, hasTaxonomy: bool)
    ensures ValuesToSource(a + b, hasTaxonomy) == ValuesToSource(a, hasTaxonomy) + ValuesToSource(b, hasTaxonomy)
    decreases |b|
  {
    if b == [] {
      assert a + b == a;
    } else {
      var n := |b| - 1;
      assert (a + b)[..|a + b| - 1] == a + b[..n];
      ValuesToSourceAppend(a, b[..n], hasTaxonomy);
    }
  }

  /** What one option of a taxonomy attribute becomes when read and written back: its
      lower-cased text as an integer term ID, or nothing when that is 0. */
  function TermIdOf(o: SourceValue): (r: seq<SourceValue>)
    ensures |r| <= 1
  {
    var termId := StringToInt(Lower(OptionString(o)));
    if termId != 0 then [TermId(termId)] else []
  }

  /** What the options of a taxonomy attribute become when read and written back, option by
      option. */
  function TermIdsKept(options: seq<SourceValue>): (r: seq<SourceValue>)
    ensures |r| <= |options|
    decreases |options|
  {
    if options == [] then [] else TermIdsKept(options[..|options| - 1]) + TermIdOf(options[|options| - 1])
  }

  /** Reading the options of a taxonomy attribute and writing them back gives `TermIdsKept`. */
  lemma {:induction false} TermIdsKeptIsWriteBack(options: seq<SourceValue>)
    ensures ValuesToSource(ValuesFromSource(options, true), true) == TermIdsKept(options)
    decreases |options|
  {
    if options != [] {
      var n := |options| - 1;
      var vs := ValuesFromSource(options, true);
      assert vs[..n] == ValuesFromSource(options[..n], true);
      assert vs[n] == ValueFromSource(options[n], true);
      assert ValueToSource(vs[n], true) == TermIdOf(options[n]);
      assert ValuesToSource(vs, true) == ValuesToSource(vs[..n], true) + ValueToSource(vs[n], true);
      TermIdsKeptIsWriteBack(options[..n]);
    }
  }

  /** `TermIdsKept` works option by option. */
  lemma {:induction false} TermIdsKeptAppend(a: seq<SourceValue>, b: seq<SourceValue>)
    ensures TermIdsKept(a + b) == TermIdsKept(a) + TermIdsKept(b)
    decreases |b|
  {
    if b == [] {
      assert a + b == a;
    } else {
      var n := |b| - 1;
      assert (a + b)[..|a + b| - 1] == a + b[..n];
      TermIdsKeptAppend(a, b[..n]);
    }
  }

  /** An option whose lower-cased text reads as 0 contributes nothing to `TermIdsKept`. */
  lemma ZeroOptionDropped(options: seq<SourceValue>, k: int)
    requires 0 <= k < |options| && StringToInt(Lower(OptionString(options[k]))) == 0
    ensures TermIdsKept(options) == TermIdsKept(options[..k] + options[k + 1..])
    ensures |TermIdsKept(options)| < |options|
  {
    var pre, o, post := options[..k], options[k], options[k + 1..];
    assert options == (pre + [o]) + post;
    assert TermIdsKept([o]) == [] by {
      assert [o][..0] == [];
      assert TermIdOf(o) == [];
    }
    TermIdsKeptAppend(pre, [o]);
    assert TermIdsKept(pre + [o]) == TermIdsKept(pre);
    TermIdsKeptAppend(pre + [o], post);
    TermIdsKeptAppend(pre, post);
    assert TermIdsKept(options) == TermIdsKept(pre) + TermIdsKept(post);
    assert |TermIdsKept(pre)| <= |pre| && |TermIdsKept(post)| <= |post|;
  }

  /** On a taxonomy attribute, an option whose lower-cased text reads as the integer 0 (any
      option at any position that is not a non-zero integer, such as the text "red") contributes
      nothing when written back: the result is that of the options without it, and shorter than
      the options read. */
  lemma TextTermDropped(s: SourceAttribute, taxonomyOf: string -> Option<Taxonomy>, k: int)
    requires TaxonomyOf(s, taxonomyOf).Some?
    requires 0 <= k < |s.options| && s.options[k].Text? && StringToInt(Lower(s.options[k].text)) == 0
    ensures var rest := s.(options := s.options[..k] + s.options[k + 1..]);
      ToSource(s, FromSource(s, taxonomyOf)).options == ToSource(rest, FromSource(rest, taxonomyOf)).options
    ensures |ToSource(s, FromSource(s, taxonomyOf)).options| < |s.options|
  {
    ZeroOptionDropped(s.options, k);
    var rest := s.(options := s.options[..k] + s.options[k + 1..]);
    assert TaxonomyOf(rest, taxonomyOf) == TaxonomyOf(s, taxonomyOf);
    TermIdsKeptIsWriteBack(s.options);
    TermIdsKeptIsWriteBack(rest.options);
  }
}
