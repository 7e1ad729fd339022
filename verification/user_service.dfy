/**
 * `userService.updateProfile`'s multipart form (src/services/userService.ts):
 * which fields of the update object are sent, as what, and in which order.
 */
module UserService {
  import opened Options
  import Text
  import opened Domain
  import Seqs

  /** A property value of the update object. `Nothing` is `undefined` or `null`. */
  datatype JsValue = JsString(s: string) | JsNumber(n: int) | JsBool(b: bool) | JsFile(f: File) | Nothing

  /** JavaScript truthiness: an object is always truthy. */
  predicate Truthy(v: JsValue) {
    match v
    case JsString(s) => s != ""
    case JsNumber(n) => n != 0
    case JsBool(b) => b
    case JsFile(_) => true
    case Nothing => false
  }

  /** `String(value)`. */
  function StringOf(v: JsValue): string {
    match v
    case JsString(s) => s
    case JsNumber(n) => Text.IntToString(n)
    case JsBool(b) => if b then "true" else "false"
    case JsFile(_) => "[object File]"
    case Nothing => "undefined"
  }

  /** A property in the order `Object.keys` lists it. */
  datatype Property = Property(key: string, value: JsValue)

  predicate DistinctKeys(data: seq<Property>) {
    forall i, j :: 0 <= i < j < |data| ==> data[i].key != data[j].key
  }

  /** An update object: its own properties in insertion order, each key once. */
  type UpdateData = data: seq<Property> | DistinctKeys(data) witness []

  /** The value of `key`, `undefined` when the object has no such property. */
  function Get(data: seq<Property>, key: string): (r: JsValue)
    ensures r != Nothing ==> Property(key, r) in data
  {
    if data == [] then Nothing else if data[0].key == key then data[0].value else Get(data[1..], key)
  }

  predicate IsFileKey(key: string) {
    key == "avatar" || key == "cover_image"
  }

  /** A property that goes into the text part of the form. */
  predicate SentAsText(p: Property) {
    Truthy(p.value) && !IsFileKey(p.key)
  }

  /** `formData.append(key, String(value))`. */
  function TextEntryOf(p: Property): FormEntry {
    FormEntry(p.key, TextField(StringOf(p.value)))
  }

  /** The text part: every truthy property other than the two file keys, as `String(value)`, in key order. */
  function TextEntries(data: seq<Property>): (r: seq<FormEntry>)
    ensures forall e :: e in r ==>
      && !IsFileKey(e.key) && e.value.TextField?
      && exists p :: p in data && p.key == e.key && Truthy(p.value) && e.value.text == StringOf(p.value)
    ensures forall p :: p in data && Truthy(p.value) && !IsFileKey(p.key) ==> FormEntry(p.key, TextField(StringOf(p.value))) in r
  {
    if data == [] then []
    else
      var p := data[0];
      assert forall q :: q in data ==> q == p || q in data[1..];
      (if SentAsText(p) then [TextEntryOf(p)] else []) + TextEntries(data[1..])
  }

  /** The text part is the properties sent as text, in the object's key order, one entry each. */
  lemma {:induction false} TextEntriesInOrder(data: seq<Property>)
    ensures TextEntries(data) == Seqs.Map(Seqs.Filter(data, SentAsText), TextEntryOf)
    ensures |TextEntries(data)| == Seqs.Count(data, SentAsText)
  {
    Seqs.FilterCount(data, SentAsText);
    if data != [] {
      TextEntriesInOrder(data[1..]);
      Seqs.FilterCons(data, SentAsText);
      if SentAsText(data[0]) {
        Seqs.MapCons(data[0], Seqs.Filter(data[1..], SentAsText), TextEntryOf);
      }
    }
  }

  /** A file key's entry: appended iff its value is truthy, a file as itself and anything else as text. */
  function FileEntry(data: seq<Property>, key: string): (r: seq<FormEntry>)
    ensures r != [] <==> Truthy(Get(data, key))
    ensures r != [] ==> r == [FormEntry(key, AsFormValue(Get(data, key)))]
  {
    var v := Get(data, key);
    if Truthy(v) then [FormEntry(key, AsFormValue(v))] else []
  }

  function AsFormValue(v: JsValue): FormValue {
    if v.JsFile? then FileField(v.f) else TextField(StringOf(v))
  }

  /** `updateProfile`'s form: the text fields, then `avatar` iff truthy, then `cover_image` iff truthy, last. */
  function ProfileForm(data: UpdateData): (r: seq<FormEntry>)
    ensures |r| >= |TextEntries(data)| && r[..|TextEntries(data)|] == TextEntries(data)
    ensures (exists e :: e in r && e.key == "avatar") <==> Truthy(Get(data, "avatar"))
    ensures (exists e :: e in r && e.key == "cover_image") <==> Truthy(Get(data, "cover_image"))
    ensures Truthy(Get(data, "cover_image")) ==> r[|r| - 1] == FormEntry("cover_image", AsFormValue(Get(data, "cover_image")))
  {
    TextEntries(data) + FileEntry(data, "avatar") + FileEntry(data, "cover_image")
  }

  /**
   * Every entry of the form comes from a truthy property, sent under its
   * own key; so an emptied text field (a cleared bio, say) is not sent at
   * all, and the file keys appear at most once each, after every text field.
   */
  lemma FormEntriesFromTruthyFields(data: UpdateData)
    ensures forall e :: e in ProfileForm(data) ==> Truthy(Get(data, e.key))
    ensures forall p :: p in data && p.value == JsString("") ==> forall e :: e in ProfileForm(data) ==> e.key != p.key
    ensures forall i :: 0 <= i < |TextEntries(data)| ==> !IsFileKey(ProfileForm(data)[i].key)
    ensures forall i :: |TextEntries(data)| <= i < |ProfileForm(data)| ==> IsFileKey(ProfileForm(data)[i].key)
  {
    var text, avatar, cover := TextEntries(data), FileEntry(data, "avatar"), FileEntry(data, "cover_image");
    var form := ProfileForm(data);
    assert form == text + avatar + cover;
    forall e | e in form ensures Truthy(Get(data, e.key)) {
      if e in text {
        var p :| p in data && p.key == e.key && Truthy(p.value);
        GetFinds(data, p);
      }
    }
    forall p | p in data && p.value == JsString("")
      ensures forall e :: e in form ==> e.key != p.key
    {
      GetFinds(data, p);
    }
    forall i | 0 <= i < |text| ensures !IsFileKey(form[i].key) {
      assert form[i] == text[i];
      assert text[i] in text;
    }
    forall i | |text| <= i < |form| ensures IsFileKey(form[i].key) {
      assert form[i] in avatar + cover;
    }
  }

  /** With keys distinct, `Get` finds the property's own value. */
  lemma {:induction false} GetFinds(data: seq<Property>, p: Property)
    requires DistinctKeys(data) && p in data
    ensures Get(data, p.key) == p.value
  {
    if data[0] != p {
      assert p in data[1..];
      var j :| 0 <= j < |data| && data[j] == p;
      assert data[0].key != p.key;
      GetFinds(data[1..], p);
    }
  }
}
