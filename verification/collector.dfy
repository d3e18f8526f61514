/**
 * The filter collector of postajaxify's `updateFilters`: every tagged
 * control of the form, in document order, contributes its value to up to
 * four dictionaries (taxonomy, meta, text and date filters).
 *
 * This module gives the single-control step and the whole pass as
 * functions; the pass that the plugin runs in place on its four
 * dictionaries is `PostAjaxify.FilterForm.CollectFilters`, proved equal to
 * `Collected` below. The properties of `Collected` are in
 * `CollectorProperties`.
 */
module FilterCollector {
  import opened Wrappers
  import opened JsStrings

  /**
   * How the tests at lines 83 and 89 classify a control. `TextLike` is an
   * `input` whose `type` attribute is `text`, `date` or `datetime-local`;
   * `Select` and `OtherControl` are read alike by the collector and differ
   * only in whether a change on them refreshes the filters.
   */
  datatype Category = CheckboxOrRadio | TextLike | Select | OtherControl

  /**
   * One tagged control as the DOM layer shows it. `raw` is what `.val()`
   * returns (a missing value reads as ""). A marker is the value of the
   * `data-taxfilter`, `data-metafilter`, `data-textfilter` or
   * `data-datefilter` attribute, "" when the attribute is missing or empty:
   * both are falsy at lines 101, 115, 129 and 135. `multiple` is whether the
   * control carries a `multiple` attribute.
   */
  datatype Control = Control(
    category: Category,
    checked: bool,
    raw: string,
    taxKey: string,
    metaKey: string,
    textKey: string,
    dateKey: string,
    multiple: bool)

  /** An entry of the taxonomy or meta dictionary: a string or an array of strings. */
  datatype FilterValue = Scalar(s: string) | List(items: seq<string>)

  type ListMap = map<string, FilterValue>
  type ScalarMap = map<string, string>

  /** The four dictionaries after one pass. */
  datatype Snapshot = Snapshot(taxonomy: ListMap, meta: ListMap, text: ScalarMap, date: ScalarMap)

  /** The state after the resets at lines 72-75. */
  const EmptySnapshot := Snapshot(map[], map[], map[], map[])

  /** The two dictionaries whose entries may be arrays, and the two whose entries never are. */
  datatype ListKind = Taxonomy | Meta
  datatype ScalarKind = Text | Date

  /**
   * The TypeError thrown by `.push` at line 108 or 122 when the entry under
   * `key` is a string: it leaves `updateFilters` and ends the pass.
   */
  datatype CollectError = PushOnString(kind: ListKind, key: string)

  function ListMarker(c: Control, kind: ListKind): string
  {
    match kind
    case Taxonomy => c.taxKey
    case Meta => c.metaKey
  }

  function ScalarMarker(c: Control, kind: ScalarKind): string
  {
    match kind
    case Text => c.textKey
    case Date => c.dateKey
  }

  function ListMapOf(s: Snapshot, kind: ListKind): ListMap
  {
    match kind
    case Taxonomy => s.taxonomy
    case Meta => s.meta
  }

  function ScalarMapOf(s: Snapshot, kind: ScalarKind): ScalarMap
  {
    match kind
    case Text => s.text
    case Date => s.date
  }

  /** `s` with dictionary `kind` replaced by `m`. */
  function WithListMap(s: Snapshot, kind: ListKind, m: ListMap): Snapshot
  {
    match kind
    case Taxonomy => s.(taxonomy := m)
    case Meta => s.(meta := m)
  }

  /**
   * The value a control contributes (lines 82-98), or None when it is
   * skipped: an unchecked checkbox or radio, or a value that is empty once
   * extracted. Only text-like inputs are trimmed.
   */
  function ExtractValue(c: Control): (r: Option<string>)
    ensures r.Some? ==> r.value != ""
  {
    var value :=
      if c.category == CheckboxOrRadio then
        (if c.checked then Some(c.raw) else None)
      else if c.category == TextLike then Some(Trim(c.raw))
      else Some(c.raw);
    match value
    case None => None
    case Some(v) => if v == "" then None else Some(v)
  }

  /**
   * The extraction rules case by case: a checkbox or radio gives its raw
   * value when checked and nothing otherwise; a text-like input gives its
   * trimmed value, and nothing exactly when that value is blank; any other
   * control gives its raw value untrimmed, and nothing only when it is empty.
   */
  lemma ExtractValueRules(c: Control)
    ensures c.category == CheckboxOrRadio ==>
      ExtractValue(c) == (if c.checked && c.raw != "" then Some(c.raw) else None)
    ensures c.category == TextLike ==>
      (ExtractValue(c).None? <==> IsBlank(c.raw)) &&
      (ExtractValue(c).Some? ==> ExtractValue(c).value == Trim(c.raw))
    ensures c.category == Select || c.category == OtherControl ==>
      ExtractValue(c) == (if c.raw != "" then Some(c.raw) else None)
  {
    if c.category == TextLike {
      TrimEmptyIffBlank(c.raw);
    }
  }

  /** JavaScript truthiness of an entry: an array is an object, a string is truthy unless empty. */
  predicate Truthy(e: FilterValue)
  {
    e.List? || e.s != ""
  }

  /**
   * Lines 101-112 (taxonomy) and 115-126 (meta): under a non-empty key a
   * falsy or missing entry first becomes `[]`; then a `multiple` control
   * pushes onto the entry and any other control overwrites it with the
   * string. Pushing onto a string throws.
   */
  function AddToList(m: ListMap, key: string, v: string, multiple: bool, kind: ListKind): (r: Result<ListMap, CollectError>)
    ensures r.Err? <==> key != "" && multiple && key in m && m[key].Scalar? && m[key].s != ""
    ensures r.Err? ==> r.error == PushOnString(kind, key)
    ensures r.Ok? ==> r.value.Keys == m.Keys + (if key == "" then {} else {key})
    ensures r.Ok? ==> forall k :: k in m && k != key ==> r.value[k] == m[k]
    ensures r.Ok? && key != "" && !multiple ==> r.value[key] == Scalar(v)
    ensures r.Ok? && key != "" && multiple ==>
      r.value[key] == List((if key in m && m[key].List? then m[key].items else []) + [v])
  {
    if key == "" then Ok(m)
    else
      var m1 := if key in m && Truthy(m[key]) then m else m[key := List([])];
      if !multiple then Ok(m1[key := Scalar(v)])
      else
        match m1[key]
        case List(items) => Ok(m1[key := List(items + [v])])
        case Scalar(_) => Err(PushOnString(kind, key))
  }

  /** Line 131: a non-empty key is overwritten with the value. */
  function PutText(m: ScalarMap, key: string, v: string): (r: ScalarMap)
    ensures r.Keys == m.Keys + (if key == "" then {} else {key})
    ensures forall k :: k in m && k != key ==> r[k] == m[k]
    ensures key != "" ==> r[key] == v
  {
    if key == "" then m else m[key := v]
  }

  /**
   * Lines 136-141: a missing or falsy entry is first set to the placeholder
   * "", then the entry is overwritten with the value, so the placeholder
   * never survives the step.
   */
  function PutDate(m: ScalarMap, key: string, v: string): (r: ScalarMap)
    ensures r.Keys == m.Keys + (if key == "" then {} else {key})
    ensures forall k :: k in m && k != key ==> r[k] == m[k]
    ensures key != "" ==> r[key] == v
  {
    if key == "" then m
    else
      var m1 := if key !in m || m[key] == "" then m[key := ""] else m;
      m1[key := v]
  }

  /**
   * One iteration of the `.each` callback (lines 79-142): extract the value,
   * then feed it, in this order, to the taxonomy, meta, text and date
   * dictionaries.
   */
  function Step(s: Snapshot, c: Control): (r: Result<Snapshot, CollectError>)
    ensures ExtractValue(c).None? ==> r == Ok(s)
    ensures r.Err? ==> c.multiple && r.error.key != "" && r.error.key == ListMarker(c, r.error.kind)
  {
    match ExtractValue(c)
    case None => Ok(s)
    case Some(v) =>
      match AddToList(s.taxonomy, c.taxKey, v, c.multiple, Taxonomy)
      case Err(e) => Err(e)
      case Ok(tax) =>
        match AddToList(s.meta, c.metaKey, v, c.multiple, Meta)
        case Err(e) => Err(e)
        case Ok(meta) =>
          Ok(Snapshot(tax, meta, PutText(s.text, c.textKey, v), PutDate(s.date, c.dateKey, v)))
  }

  /**
   * The dictionaries as they stand when `Step(s, c)` throws: a failing meta
   * push comes after the taxonomy dictionary has already been updated.
   */
  function StateAtThrow(s: Snapshot, c: Control): (r: Snapshot)
    requires Step(s, c).Err?
    ensures r.meta == s.meta && r.text == s.text && r.date == s.date
    ensures Step(s, c).error.kind == Taxonomy ==> r == s
  {
    var v := ExtractValue(c).value;
    match AddToList(s.taxonomy, c.taxKey, v, c.multiple, Taxonomy)
    case Err(_) => s
    case Ok(tax) => s.(taxonomy := tax)
  }

  /**
   * One whole pass (lines 72-143): start from four empty dictionaries and
   * apply `Step` to the controls in document order; the first thrown error
   * ends the pass.
   */
  function Collected(cs: seq<Control>): (r: Result<Snapshot, CollectError>)
    ensures cs == [] ==> r == Ok(EmptySnapshot)
    ensures r.Err? ==> r.error.key != "" && |cs| > 0
  {
    if cs == [] then Ok(EmptySnapshot)
    else
      match Collected(cs[..|cs| - 1])
      case Err(e) => Err(e)
      case Ok(s) => Step(s, cs[|cs| - 1])
  }
}
