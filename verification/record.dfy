/**
 * The raw vault record (the Keeper library's `ksm.Record`) and the library
 * accessors the extractors call. The library itself is not part of this model:
 * its accessors are modelled under one stated assumption, that a lookup picks
 * the FIRST field whose type (or label) matches and reads the first element
 * of that field's value list, yielding "" when there is no such field, no
 * first element, or a first element that is neither a string nor an integer;
 * an integer reads as its decimal digits, the way the library coerces the
 * millisecond timestamps of date fields to text.
 */
module KeeperRecord {
  import opened Wrappers
  import Base64
  import Decimal

  /** A field value as decoded from the vault's JSON: a closed tagged union. */
  datatype Value =
    | Str(text: string)
    | List(items: seq<Value>)
    | Obj(members: map<string, Value>)
    | Num(number: int)  // a JSON integer, such as a date's milliseconds since the epoch
    | Other  // a boolean, null, a non-integral number, or a missing "value" key

  /** One entry of the record's standard field list. */
  datatype Field = Field(fieldType: string, fieldLabel: string, value: Value)

  /** An attached file (the library's `KeeperFile`); `data` is what `GetFileData()` yields. */
  datatype Attachment = Attachment(
    uid: string,
    title: string,
    name: string,
    fileType: string,
    size: int,
    lastModified: int,
    data: seq<Base64.byte>)

  /** A fetched record: `Uid`, `Type()`, `Title()`, `Notes()`, its fields and `Files`. */
  datatype Record = Record(
    uid: string,
    recordType: string,
    title: string,
    notes: string,
    fields: seq<Field>,
    files: seq<Attachment>)

  /** How a lookup picks fields: by declared field type or by label. */
  datatype Selector = ByType(fieldType: string) | ByLabel(fieldLabel: string)

  predicate Selects(sel: Selector, f: Field) {
    match sel
    case ByType(t) => f.fieldType == t
    case ByLabel(l) => f.fieldLabel == l
  }

  /** Position of the first field `sel` picks, or `|fields|` when none does. */
  function FirstIndex(fields: seq<Field>, sel: Selector): (i: nat)
    ensures i <= |fields|
    ensures i < |fields| ==> Selects(sel, fields[i])
    ensures forall j :: 0 <= j < i ==> !Selects(sel, fields[j])
    decreases |fields|
  {
    if |fields| == 0 then 0
    else if Selects(sel, fields[0]) then 0
    else 1 + FirstIndex(fields[1..], sel)
  }

  /** The first field `sel` picks: element 0 of the library's `GetFieldsByType`. */
  function FirstField(r: Record, sel: Selector): Option<Field> {
    var i := FirstIndex(r.fields, sel);
    if i < |r.fields| then Some(r.fields[i]) else None
  }

  /** The first element of a value list; None when the value is not a list or is empty. */
  function FirstItem(v: Value): Option<Value> {
    if v.List? && |v.items| > 0 then Some(v.items[0]) else None
  }

  /** A field value read as one string. */
  function TextOf(v: Value): string {
    match FirstItem(v)
    case Some(Str(s)) => s
    case Some(Num(n)) => Decimal.FormatInt(n)
    case _ => ""
  }

  /**
   * Reference meaning of a text lookup: `s` is the text of the first field
   * `sel` picks, or "" when no field is picked.
   */
  ghost predicate IsFirstValue(fields: seq<Field>, sel: Selector, s: string) {
    || ((forall j :: 0 <= j < |fields| ==> !Selects(sel, fields[j])) && s == "")
    || (exists i :: 0 <= i < |fields| && Selects(sel, fields[i])
                    && (forall j :: 0 <= j < i ==> !Selects(sel, fields[j]))
                    && s == TextOf(fields[i].value))
  }

  /** At most one string meets the reference meaning of a lookup. */
  lemma IsFirstValueUnique(fields: seq<Field>, sel: Selector, s1: string, s2: string)
    requires IsFirstValue(fields, sel, s1) && IsFirstValue(fields, sel, s2)
    ensures s1 == s2
  {
    if exists i :: 0 <= i < |fields| && Selects(sel, fields[i])
                   && (forall j :: 0 <= j < i ==> !Selects(sel, fields[j]))
                   && s1 == TextOf(fields[i].value) {
      var i :| 0 <= i < |fields| && Selects(sel, fields[i])
               && (forall j :: 0 <= j < i ==> !Selects(sel, fields[j]))
               && s1 == TextOf(fields[i].value);
      if exists k :: 0 <= k < |fields| && Selects(sel, fields[k])
                     && (forall j :: 0 <= j < k ==> !Selects(sel, fields[j]))
                     && s2 == TextOf(fields[k].value) {
        var k :| 0 <= k < |fields| && Selects(sel, fields[k])
                 && (forall j :: 0 <= j < k ==> !Selects(sel, fields[j]))
                 && s2 == TextOf(fields[k].value);
        assert !(i < k) && !(k < i);
      }
    }
  }

  /**
   * The library's `GetFieldValueByType` / `GetFieldValueByLabel`: never fails,
   * and yields "" for a missing or malformed field.
   */
  function GetFieldValue(r: Record, sel: Selector): (s: string)
    ensures IsFirstValue(r.fields, sel, s)
  {
    match FirstField(r, sel)
    case Some(f) => TextOf(f.value)
    case None => ""
  }

  function GetFieldValueByType(r: Record, fieldType: string): string {
    GetFieldValue(r, ByType(fieldType))
  }

  function GetFieldValueByLabel(r: Record, fieldLabel: string): string {
    GetFieldValue(r, ByLabel(fieldLabel))
  }

  /**
   * The object held by the first field of the given type, read the way the
   * extractors read host and key-pair fields: the field's value must be a
   * non-empty list whose first element is an object; otherwise None.
   */
  function FirstObject(r: Record, fieldType: string): (o: Option<map<string, Value>>)
    ensures o.Some? <==> FirstIndex(r.fields, ByType(fieldType)) < |r.fields|
                         && FirstItem(r.fields[FirstIndex(r.fields, ByType(fieldType))].value).Some?
                         && FirstItem(r.fields[FirstIndex(r.fields, ByType(fieldType))].value).value.Obj?
    ensures o.Some? ==> Some(Obj(o.value)) == FirstItem(r.fields[FirstIndex(r.fields, ByType(fieldType))].value)
  {
    match FirstField(r, ByType(fieldType))
    case None => None
    case Some(f) =>
      match FirstItem(f.value)
      case Some(Obj(m)) => Some(m)
      case _ => None
  }

  /** `m[key].(string)`: the member's text when it is present and is a string. */
  function StringMember(m: map<string, Value>, key: string): (o: Option<string>)
    ensures o.Some? <==> key in m && m[key].Str?
    ensures o.Some? ==> m[key] == Str(o.value)
  {
    if key in m && m[key].Str? then Some(m[key].text) else None
  }

  /** A field as the vault stores a single text value. */
  function TextField(fieldType: string, fieldLabel: string, s: string): Field {
    Field(fieldType, fieldLabel, List([Str(s)]))
  }

  /** A field as the vault stores a single structured value. */
  function ObjectField(fieldType: string, fieldLabel: string, m: map<string, Value>): Field {
    Field(fieldType, fieldLabel, List([Obj(m)]))
  }

  /** The first field a selector picks is the one before which no field is picked. */
  lemma FirstFieldAt(r: Record, sel: Selector, i: nat)
    requires i < |r.fields| && Selects(sel, r.fields[i])
    requires forall j :: 0 <= j < i ==> !Selects(sel, r.fields[j])
    ensures FirstField(r, sel) == Some(r.fields[i])
  {
    var k := FirstIndex(r.fields, sel);
    assert !(k < i) && !(i < k);
  }

  /** A text lookup returns the text of the first field it picks, whatever follows. */
  lemma FirstMatchWins(r: Record, sel: Selector, i: nat)
    requires i < |r.fields| && Selects(sel, r.fields[i])
    requires forall j :: 0 <= j < i ==> !Selects(sel, r.fields[j])
    ensures GetFieldValue(r, sel) == TextOf(r.fields[i].value)
  {
    FirstFieldAt(r, sel, i);
  }

  /** A lookup that picks no field yields "", never a failure. */
  lemma AbsentFieldIsEmpty(r: Record, sel: Selector)
    requires forall j :: 0 <= j < |r.fields| ==> !Selects(sel, r.fields[j])
    ensures GetFieldValue(r, sel) == ""
  {
    var s := GetFieldValue(r, sel);
    assert IsFirstValue(r.fields, sel, "");
    IsFirstValueUnique(r.fields, sel, s, "");
  }
}
