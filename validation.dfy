/**
 * The feature validator: turns the texts typed into the form, one per
 * regression feature, into the regression vector, failing at the first field
 * that is blank or not a number.
 */
module Validation {
  import opened Wrappers
  import opened Text
  import opened Config
  import opened Errors

  /** Python's `float()` applied to a stripped text: a number, or `None` where
      it raises. */
  type Parser = string -> Option<real>

  /** A field passes when its stripped text is non-empty and parses; in
      particular a whitespace-only field never passes. */
  predicate FieldValid(text: string, parse: Parser): (ok: bool)
    ensures AllSpace(text) ==> !ok
  {
    StripEmptyIffAllSpace(text);
    Strip(text) != [] && parse(Strip(text)).Some?
  }

  /** The check of one field named `name`. */
  function CheckField(name: string, text: string, parse: Parser): (r: Result<real, Error>)
    ensures r.Ok? <==> FieldValid(text, parse)
    ensures r.Ok? ==> parse(Strip(text)) == Some(r.value)
    ensures r.Err? ==> r.error == (if Strip(text) == [] then MissingValue(name) else NotNumeric(name))
  {
    var t := Strip(text);
    if t == [] then Err(MissingValue(name))
    else match parse(t)
      case None => Err(NotNumeric(name))
      case Some(x) => Ok(x)
  }

  /** Reference definition of validation: the fields in order, the first
      failure ends it, otherwise the parsed values in field order. */
  function Validate(names: seq<string>, texts: seq<string>, parse: Parser): (r: Result<seq<real>, Error>)
    requires |names| == |texts|
    ensures r.Ok? ==> |r.value| == |texts|
    ensures r.Err? ==> (r.error.MissingValue? && r.error.field in names) ||
                       (r.error.NotNumeric? && r.error.field in names)
  {
    if texts == [] then Ok([])
    else match CheckField(names[0], texts[0], parse)
      case Err(e) => Err(e)
      case Ok(x) =>
        match Validate(names[1..], texts[1..], parse)
        case Err(e) => Err(e)
        case Ok(rest) => Ok([x] + rest)
  }

  /** Validation succeeds exactly when every field is valid, and then yields
      one value per field, each the parse of that field's stripped text. */
  lemma {:induction false} ValidateOk(names: seq<string>, texts: seq<string>, parse: Parser)
    requires |names| == |texts|
    ensures Validate(names, texts, parse).Ok? <==> forall i :: 0 <= i < |texts| ==> FieldValid(texts[i], parse)
    ensures Validate(names, texts, parse).Ok? ==>
      var v := Validate(names, texts, parse).value;
      |v| == |texts| && forall i :: 0 <= i < |texts| ==> parse(Strip(texts[i])) == Some(v[i])
  {
    if texts != [] {
      ValidateOk(names[1..], texts[1..], parse);
      assert forall i :: 1 <= i < |texts| ==> texts[i] == texts[1..][i - 1];
    }
  }

  /** When fields `0..k-1` are valid and field `k` is not, validation fails
      with the error of field `k`, naming it; the fields after `k` are not
      looked at. */
  lemma {:induction false} ValidateFirstError(names: seq<string>, texts: seq<string>, parse: Parser, k: nat)
    requires |names| == |texts| && k < |texts|
    requires forall i :: 0 <= i < k ==> FieldValid(texts[i], parse)
    requires !FieldValid(texts[k], parse)
    ensures Validate(names, texts, parse) == Err(CheckField(names[k], texts[k], parse).error)
  {
    if k > 0 {
      assert forall i :: 0 <= i < k - 1 ==> texts[1..][i] == texts[i + 1];
      ValidateFirstError(names[1..], texts[1..], parse, k - 1);
    }
  }

  /** Every validation failure is the failure of a first invalid field. */
  lemma {:induction false} ValidateErrorAtFirstInvalid(names: seq<string>, texts: seq<string>, parse: Parser)
    returns (k: nat)
    requires |names| == |texts| && Validate(names, texts, parse).Err?
    ensures k < |texts| && !FieldValid(texts[k], parse)
    ensures forall i :: 0 <= i < k ==> FieldValid(texts[i], parse)
    ensures Validate(names, texts, parse).error == CheckField(names[k], texts[k], parse).error
  {
    if !FieldValid(texts[0], parse) {
      k := 0;
    } else {
      var k' := ValidateErrorAtFirstInvalid(names[1..], texts[1..], parse);
      k := k' + 1;
      assert forall i :: 1 <= i < k ==> texts[i] == texts[1..][i - 1];
    }
  }

  /** `get_reg_features`: walks the entry texts in order, stripping each one,
      and stops at the first blank or non-numeric field. The texts come one per
      regression feature, as the form creates one entry per feature. */
  method GetRegFeatures(entries: seq<string>, parse: Parser) returns (r: Result<seq<real>, Error>)
    requires |entries| == |RegFeatures()|
    ensures r == Validate(RegFeatures(), entries, parse)
  {
    var names := RegFeatures();
    var values: seq<real> := [];
    for i := 0 to |entries|
      invariant |values| == i
      invariant forall j :: 0 <= j < i ==> FieldValid(entries[j], parse)
      invariant forall j :: 0 <= j < i ==> parse(Strip(entries[j])) == Some(values[j])
    {
      var text := Strip(entries[i]);
      var fname := names[i];
      if text == [] {
        ValidateFirstError(names, entries, parse, i);
        assert Validate(names, entries, parse) == Err(MissingValue(fname));
        return Err(MissingValue(fname));
      }
      var x := parse(text);
      if x.None? {
        ValidateFirstError(names, entries, parse, i);
        assert Validate(names, entries, parse) == Err(NotNumeric(fname));
        return Err(NotNumeric(fname));
      }
      values := values + [x.value];
    }
    ValidateOk(names, entries, parse);
    var v := Validate(names, entries, parse).value;
    assert forall j :: 0 <= j < |entries| ==> v[j] == values[j];
    assert v == values;
    r := Ok(values);
  }
}
