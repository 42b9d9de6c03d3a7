/** Card form validation: a schema is built from a template's fields, and a
    form passes when every text or textarea field holds a non-empty string.
    Number and image fields are optional, whatever their `required` flag. */
module Validation {
  import opened Shared
  import opened Catalog

  /** A form value as the editor stores it: text, or a number. */
  datatype FormValue = Str(text: string) | Num(number: int)

  /** Field id to value (`Record<string, string | number>`). */
  type FormData = map<string, FormValue>

  /** The only rule the schema uses: `z.string().min(n)`. */
  datatype StringRule = MinLength(min: nat)

  /** The shape of the object schema: field id to rule. */
  type Schema = map<string, StringRule>

  /** Text and textarea fields are the ones the schema requires. */
  predicate RequiresText(f: CategoryField) {
    f.fieldType == Text || f.fieldType == TextArea
  }

  /** The shape `createCardFormSchema` builds, field by field in order. */
  function SchemaOf(fields: seq<CategoryField>): Schema
  {
    if fields == [] then map[]
    else
      var prefix := SchemaOf(fields[..|fields| - 1]);
      var f := fields[|fields| - 1];
      if RequiresText(f) then prefix[f.id := MinLength(1)] else prefix
  }

  /** `createCardFormSchema`: the `forEach` that fills the shape. */
  method CreateCardFormSchema(fields: seq<CategoryField>) returns (shape: Schema)
    ensures shape == SchemaOf(fields)
    ensures forall k :: k in shape ==> shape[k] == MinLength(1)
    ensures forall k :: k in shape <==> exists f :: f in fields && RequiresText(f) && f.id == k
  {
    shape := map[];
    for i := 0 to |fields|
      invariant shape == SchemaOf(fields[..i])
    {
      assert fields[..i + 1][..i] == fields[..i];
      var field := fields[i];
      if field.fieldType == Text || field.fieldType == TextArea {
        shape := shape[field.id := MinLength(1)];
      }
    }
    assert fields[..|fields|] == fields;
    SchemaOfKeys(fields);
  }

  /** The shape has a key exactly for each text or textarea field id, and
      every rule is "a string of length at least 1". */
  lemma {:induction false} SchemaOfKeys(fields: seq<CategoryField>)
    ensures forall k :: k in SchemaOf(fields) ==> SchemaOf(fields)[k] == MinLength(1)
    ensures forall k :: k in SchemaOf(fields) <==> exists f :: f in fields && RequiresText(f) && f.id == k
  {
    if fields != [] {
      var init := fields[..|fields| - 1];
      SchemaOfKeys(init);
      assert forall f :: f in fields <==> f in init || f == fields[|fields| - 1];
    }
  }

  /** `schema.safeParse(formData).success`: every key of the shape is present
      and holds a string long enough. Keys the shape does not name are
      ignored. */
  predicate SafeParse(schema: Schema, data: FormData) {
    forall k :: k in schema ==> k in data && data[k].Str? && |data[k].text| >= schema[k].min
  }

  /** `validateCardForm`: every text or textarea field maps to a non-empty
      string. */
  function ValidateCardForm(fields: seq<CategoryField>, data: FormData): (ok: bool)
    ensures ok <==> SafeParse(SchemaOf(fields), data)
  {
    SchemaOfKeys(fields);
    forall f :: f in fields && RequiresText(f) ==> f.id in data && data[f.id].Str? && |data[f.id].text| >= 1
  }

  /** A number or image field, inserted anywhere, never changes the verdict. */
  lemma OptionalFieldsIgnored(fields: seq<CategoryField>, i: nat, f: CategoryField, data: FormData)
    requires i <= |fields| && !RequiresText(f)
    ensures ValidateCardForm(fields[..i] + [f] + fields[i..], data) == ValidateCardForm(fields, data)
  {
    var g := fields[..i] + [f] + fields[i..];
    assert forall x :: x in g <==> x in fields || x == f by {
      assert fields == fields[..i] + fields[i..];
    }
  }

  /** The per-field `required` flag is never consulted. */
  lemma RequiredFlagIgnored(fields: seq<CategoryField>, i: nat, flag: Option<bool>, data: FormData)
    requires i < |fields|
    ensures ValidateCardForm(fields[i := fields[i].(required := flag)], data) == ValidateCardForm(fields, data)
  {
    var g := fields[i := fields[i].(required := flag)];
    assert forall j :: 0 <= j < |g| ==> g[j].id == fields[j].id && g[j].fieldType == fields[j].fieldType;
    if ValidateCardForm(g, data) {
      forall f | f in fields && RequiresText(f) ensures f.id in data && data[f.id].Str? && |data[f.id].text| >= 1 {
        var j :| 0 <= j < |fields| && fields[j] == f;
        assert g[j] in g;
      }
    }
    if ValidateCardForm(fields, data) {
      forall f | f in g && RequiresText(f) ensures f.id in data && data[f.id].Str? && |data[f.id].text| >= 1 {
        var j :| 0 <= j < |g| && g[j] == f;
        assert fields[j] in fields;
      }
    }
  }

  /** A text field holding a number fails; a text field holding only
      whitespace passes, since nothing is trimmed. */
  lemma ValueKinds(fields: seq<CategoryField>, f: CategoryField, data: FormData, n: int)
    requires f in fields && RequiresText(f)
    ensures !ValidateCardForm(fields, data[f.id := Num(n)])
    ensures ValidateCardForm(fields, data) ==> ValidateCardForm(fields, data[f.id := Str(" ")])
    ensures !ValidateCardForm(fields, data[f.id := Str("")])
  {
    if ValidateCardForm(fields, data) {
      var d := data[f.id := Str(" ")];
      forall g | g in fields && RequiresText(g) ensures g.id in d && d[g.id].Str? && |d[g.id].text| >= 1 {
        if g.id != f.id { assert data[g.id] == d[g.id]; }
      }
    }
  }

  /** An empty field list validates, and keys that no text or textarea field
      names do not matter. */
  lemma UnnamedKeysIgnored(fields: seq<CategoryField>, data: FormData, k: string, v: FormValue)
    requires forall f :: f in fields && RequiresText(f) ==> f.id != k
    ensures ValidateCardForm([], data)
    ensures ValidateCardForm(fields, data[k := v]) == ValidateCardForm(fields, data)
    ensures ValidateCardForm(fields, data - {k}) == ValidateCardForm(fields, data)
  {
  }
}
