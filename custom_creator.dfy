/** The custom category editor: a list of one to six draft fields that the
    user adds, removes and edits, and the save step that turns the form into
    a catalog-shaped subcategory or refuses it. The clock reading used for
    generated ids is the parameter `now`. */
module CustomCreator {
  import opened Shared
  import opened Catalog

  const MaxFields: nat := 6
  const DefaultIcon: string := "\U{1F3C6}"
  const DefaultDescription: string := "Custom category"

  /** A field as the editor holds it: every attribute is plain text except
      the type. */
  datatype DraftField = DraftField(id: string, labelText: string, fieldType: FieldType, placeholder: string)

  /** The edits `updateField` is called with: one attribute of one field. */
  datatype FieldUpdate = SetLabel(text: string) | SetType(fieldType: FieldType) | SetPlaceholder(text: string)

  datatype SaveError = MissingTitle | NoLabeledField

  /** The characters `String.prototype.trim` removes: white space and line
      terminators. */
  predicate IsTrimmable(c: char) {
    || c == ' ' || c == '\t' || c == '\n' || c == '\r' || c == '\U{000B}' || c == '\U{000C}'
    || c == '\U{00A0}' || c == '\U{1680}' || ('\U{2000}' <= c <= '\U{200A}')
    || c == '\U{2028}' || c == '\U{2029}' || c == '\U{202F}' || c == '\U{205F}'
    || c == '\U{3000}' || c == '\U{FEFF}'
  }

  predicate Blank(s: string) {
    forall i :: 0 <= i < |s| ==> IsTrimmable(s[i])
  }

  function TrimStart(s: string): (r: string)
    ensures |r| <= |s| && r == s[|s| - |r|..]
    ensures r == [] || !IsTrimmable(r[0])
    ensures Blank(s[..|s| - |r|])
  {
    if s != [] && IsTrimmable(s[0]) then
      var r := TrimStart(s[1..]);
      assert s[1..][..|s[1..]| - |r|] == s[1..|s| - |r|];
      r
    else s
  }

  function TrimEnd(s: string): (r: string)
    ensures |r| <= |s| && r == s[..|r|]
    ensures r == [] || !IsTrimmable(r[|r| - 1])
    ensures Blank(s[|r|..])
  {
    if s != [] && IsTrimmable(s[|s| - 1]) then
      var init := s[..|s| - 1];
      var r := TrimEnd(init);
      assert init[..|r|] == s[..|r|];
      assert s[|r|..] == init[|r|..] + [s[|s| - 1]];
      r
    else s
  }

  /** `String.prototype.trim`: the string without its leading and trailing
      white space. */
  function Trim(s: string): (r: string)
    ensures r == [] || (!IsTrimmable(r[0]) && !IsTrimmable(r[|r| - 1]))
    ensures exists i, j :: 0 <= i <= j <= |s| && r == s[i..j] && Blank(s[..i]) && Blank(s[j..])
  {
    var t := TrimStart(s);
    var r := TrimEnd(t);
    var i := |s| - |t|;
    assert r == s[i..i + |r|];
    assert Blank(s[i + |r|..]) by {
      assert s[i + |r|..] == t[|r|..];
    }
    r
  }

  /** A string trims to nothing exactly when it is all white space. */
  lemma TrimEmptyIffBlank(s: string)
    ensures Trim(s) == [] <==> Blank(s)
  {
    var r := Trim(s);
    var i, j :| 0 <= i <= j <= |s| && r == s[i..j] && Blank(s[..i]) && Blank(s[j..]);
    if r == [] {
      forall k | 0 <= k < |s| ensures IsTrimmable(s[k]) {
        if k < i {
          assert s[..i][k] == s[k];
        } else {
          assert s[j..][k - j] == s[k];
        }
      }
    } else {
      assert s[i] == r[0];
    }
  }

  /** The editor starts with one empty text field. */
  const InitialFields: seq<DraftField> := [DraftField("field1", "", Text, "")]

  /** `removeField`'s filter: drops the entry at `index`, if there is one. */
  function RemoveAt(fields: seq<DraftField>, index: int): (r: seq<DraftField>)
    ensures 0 <= index < |fields| ==>
      && |r| == |fields| - 1
      && (forall k :: 0 <= k < index ==> r[k] == fields[k])
      && (forall k :: index <= k < |r| ==> r[k] == fields[k + 1])
    ensures !(0 <= index < |fields|) ==> r == fields
  {
    if 0 <= index < |fields| then fields[..index] + fields[index + 1..] else fields
  }

  /** One attribute of a field changed. */
  function ApplyUpdate(f: DraftField, u: FieldUpdate): DraftField {
    match u
    case SetLabel(text) => f.(labelText := text)
    case SetType(t) => f.(fieldType := t)
    case SetPlaceholder(text) => f.(placeholder := text)
  }

  /** An update touches only its own attribute. */
  lemma ApplyUpdateOnlyItsKey(f: DraftField, u: FieldUpdate)
    ensures ApplyUpdate(f, u).id == f.id
    ensures u.SetLabel? ==> ApplyUpdate(f, u) == DraftField(f.id, u.text, f.fieldType, f.placeholder)
    ensures u.SetType? ==> ApplyUpdate(f, u) == DraftField(f.id, f.labelText, u.fieldType, f.placeholder)
    ensures u.SetPlaceholder? ==> ApplyUpdate(f, u) == DraftField(f.id, f.labelText, f.fieldType, u.text)
  {
  }

  predicate Labeled(f: DraftField) {
    Trim(f.labelText) != []
  }

  /** A saved field: label kept as typed, an empty placeholder dropped, and
      only the first field required. */
  function ToCategoryField(f: DraftField, first: bool): CategoryField {
    CategoryField(f.id, f.labelText, f.fieldType, if f.placeholder == "" then None else Some(f.placeholder), Some(first))
  }

  function ToCategoryFields(valid: seq<DraftField>): (r: seq<CategoryField>)
    ensures |r| == |valid|
    ensures forall i :: 0 <= i < |valid| ==> r[i] == ToCategoryField(valid[i], i == 0)
  {
    seq(|valid|, i requires 0 <= i < |valid| => ToCategoryField(valid[i], i == 0))
  }

  /** `handleSave`: refuses a blank title, then a form without a labelled
      field; otherwise builds the subcategory from the labelled fields. */
  function BuildCustomCategory(title: string, description: string, icon: string, gradient: Gradient,
                               fields: seq<DraftField>, now: nat): Result<Subcategory, SaveError>
  {
    if Trim(title) == [] then Err(MissingTitle)
    else
      var validFields := Filter(fields, Labeled);
      if |validFields| == 0 then Err(NoLabeledField)
      else
        var trimmedDescription := Trim(description);
        Ok(Subcategory(
          "custom-" + NatToString(now),
          Trim(title),
          if trimmedDescription == [] then DefaultDescription else trimmedDescription,
          icon,
          gradient,
          ToCategoryFields(validFields)))
  }

  /** The save is refused for a blank title first, then for a form whose
      labels are all blank, and accepted otherwise. */
  lemma SaveRefusals(title: string, description: string, icon: string, gradient: Gradient, fields: seq<DraftField>, now: nat)
    ensures BuildCustomCategory(title, description, icon, gradient, fields, now) == Err(MissingTitle) <==> Blank(title)
    ensures BuildCustomCategory(title, description, icon, gradient, fields, now) == Err(NoLabeledField) <==>
      !Blank(title) && forall f :: f in fields ==> Blank(f.labelText)
    ensures BuildCustomCategory(title, description, icon, gradient, fields, now).Ok? <==>
      !Blank(title) && exists f :: f in fields && !Blank(f.labelText)
  {
    TrimEmptyIffBlank(title);
    LabeledIffNotBlank(fields);
    FilterEmpty(fields, Labeled);
  }

  /** A field counts as labelled exactly when its label is not blank. */
  lemma LabeledIffNotBlank(fields: seq<DraftField>)
    ensures forall f :: f in fields ==> (Labeled(f) <==> !Blank(f.labelText))
  {
    forall f | f in fields ensures Labeled(f) <==> !Blank(f.labelText) {
      TrimEmptyIffBlank(f.labelText);
    }
  }

  /** The generated id starts with 'custom-' and has the clock reading
      after it. */
  lemma CustomIdPrefix(now: nat)
    ensures ("custom-" + NatToString(now))[..7] == "custom-"
    ensures |"custom-" + NatToString(now)| > 7
  {
  }

  /** The saved fields: one per labelled field, in order, labels and types
      as typed, a placeholder kept exactly when it is not empty, only the
      first field required. */
  lemma SavedFields(valid: seq<DraftField>)
    ensures |ToCategoryFields(valid)| == |valid|
    ensures forall i :: 0 <= i < |valid| ==>
      var f := ToCategoryFields(valid)[i];
      && f.id == valid[i].id && f.labelText == valid[i].labelText && f.fieldType == valid[i].fieldType
      && (valid[i].placeholder != "" ==> f.placeholder == Some(valid[i].placeholder))
      && (valid[i].placeholder == "" ==> f.placeholder == None)
      && f.required == Some(i == 0)
    ensures forall f :: f in ToCategoryFields(valid) ==> f.placeholder != Some("")
  {
  }

  /** An accepted save: id 'custom-<now>', trimmed title, the description or
      its default, and exactly the labelled fields in order, labels and
      types as typed, placeholders kept when not empty, the first field
      required and no other. */
  lemma SavedCategoryShape(title: string, description: string, icon: string, gradient: Gradient, fields: seq<DraftField>, now: nat)
    requires BuildCustomCategory(title, description, icon, gradient, fields, now).Ok?
    ensures var c := BuildCustomCategory(title, description, icon, gradient, fields, now).value;
      && c.id[..7] == "custom-" && |c.id| > 7
      && c.title == Trim(title) && c.title != []
      && (Blank(description) ==> c.description == DefaultDescription)
      && (!Blank(description) ==> c.description == Trim(description))
      && c.icon == icon && c.gradient == gradient
      && |c.fields| == |Filter(fields, Labeled)|
      && (forall i :: 0 <= i < |c.fields| ==>
            && c.fields[i].id == Filter(fields, Labeled)[i].id
            && c.fields[i].labelText == Filter(fields, Labeled)[i].labelText
            && c.fields[i].fieldType == Filter(fields, Labeled)[i].fieldType
            && (Filter(fields, Labeled)[i].placeholder != "" ==>
                  c.fields[i].placeholder == Some(Filter(fields, Labeled)[i].placeholder))
            && (Filter(fields, Labeled)[i].placeholder == "" ==> c.fields[i].placeholder == None)
            && c.fields[i].required == Some(i == 0))
      && (forall f :: f in c.fields ==> f.placeholder != Some(""))
  {
    var valid := Filter(fields, Labeled);
    var c := BuildCustomCategory(title, description, icon, gradient, fields, now).value;
    TrimEmptyIffBlank(description);
    assert c.id == "custom-" + NatToString(now) && c.fields == ToCategoryFields(valid);
    CustomIdPrefix(now);
    SavedFields(valid);
  }

  class Creator {
    var title: string
    var description: string
    var icon: string
    var gradient: Gradient
    var fields: seq<DraftField>

    /** The field count stays between one and six. */
    predicate Valid()
      reads this
    {
      1 <= |fields| <= MaxFields
    }

    constructor ()
      ensures title == "" && description == "" && icon == DefaultIcon && gradient == Magenta
      ensures fields == InitialFields
      ensures Valid()
    {
      title := "";
      description := "";
      icon := DefaultIcon;
      gradient := Magenta;
      fields := InitialFields;
    }

    /** `addField`: refused at six fields; otherwise appends an empty text
        field whose id is 'field<now>'. */
    method AddField(now: nat) returns (added: bool)
      modifies this
      ensures added <==> |old(fields)| < MaxFields
      ensures added ==> fields == old(fields) + [DraftField("field" + NatToString(now), "", Text, "")]
      ensures !added ==> fields == old(fields)
      ensures old(Valid()) ==> Valid()
      ensures title == old(title) && description == old(description) && icon == old(icon) && gradient == old(gradient)
    {
      if |fields| >= MaxFields {
        return false;
      }
      fields := fields + [DraftField("field" + NatToString(now), "", Text, "")];
      return true;
    }

    /** `removeField`: refused with one field left; otherwise drops the
        field at `index` (an index out of range drops nothing). */
    method RemoveField(index: int) returns (removed: bool)
      modifies this
      ensures removed <==> |old(fields)| > 1
      ensures removed ==> fields == RemoveAt(old(fields), index)
      ensures !removed ==> fields == old(fields)
      ensures old(Valid()) ==> Valid()
      ensures title == old(title) && description == old(description) && icon == old(icon) && gradient == old(gradient)
    {
      if |fields| <= 1 {
        return false;
      }
      fields := RemoveAt(fields, index);
      return true;
    }

    /** `updateField`: copies the list and rewrites one attribute of the
        field at `index`. */
    method UpdateField(index: nat, update: FieldUpdate)
      requires index < |fields|
      modifies this
      ensures |fields| == |old(fields)|
      ensures fields[index] == ApplyUpdate(old(fields)[index], update)
      ensures forall k :: 0 <= k < |fields| && k != index ==> fields[k] == old(fields)[k]
      ensures old(Valid()) ==> Valid()
      ensures title == old(title) && description == old(description) && icon == old(icon) && gradient == old(gradient)
    {
      var updated := fields;
      updated := updated[index := ApplyUpdate(updated[index], update)];
      fields := updated;
    }

    /** `handleSave`, on the form's current values. */
    method HandleSave(now: nat) returns (result: Result<Subcategory, SaveError>)
      ensures result == BuildCustomCategory(title, description, icon, gradient, fields, now)
      ensures result == Err(MissingTitle) <==> Blank(title)
    {
      SaveRefusals(title, description, icon, gradient, fields, now);
      result := BuildCustomCategory(title, description, icon, gradient, fields, now);
    }
  }
}
