/**
 * One postajaxify instance on one form (`$.fn.postajaxify`, lines 54-229):
 * its configuration, the four dictionaries its `updateFilters` closure
 * resets and fills in place, and the event that runs it.
 */
module PostAjaxify {
  import opened Wrappers
  import opened FilterCollector
  import opened RequestCoordinator
  import CollectorProperties

  /** The DOM event that runs `updateFilters`. */
  datatype DomEvent = ChangeEvent | SubmitEvent

  /**
   * Lines 201 and 215: 'onChange' binds the change event, 'onSubmit' the
   * submit event, and any other string binds nothing (the comparisons are
   * exact, so case matters).
   */
  function TriggerFor(eventType: string): (r: Option<DomEvent>)
    ensures r == Some(ChangeEvent) <==> eventType == "onChange"
    ensures r == Some(SubmitEvent) <==> eventType == "onSubmit"
    ensures r == None <==> eventType != "onChange" && eventType != "onSubmit"
  {
    if eventType == "onChange" then Some(ChangeEvent)
    else if eventType == "onSubmit" then Some(SubmitEvent)
    else None
  }

  /** Something that happens on the form: a change on a control of some category, or a submit. */
  datatype Occurrence = ChangeOn(target: Category) | FormSubmitted

  /**
   * Whether an occurrence runs `updateFilters`. In change mode the delegated
   * handler of line 203 listens on selects, checkboxes, radios and text,
   * date and datetime-local inputs only, so a change on any other control
   * (a textarea, say) refreshes nothing even when that control is
   * collected. In submit mode only the form's submit does.
   */
  predicate Refreshes(trigger: Option<DomEvent>, o: Occurrence): (r: bool)
    ensures r ==> trigger == Some(if o.FormSubmitted? then SubmitEvent else ChangeEvent)
    ensures r && o.ChangeOn? ==> o.target != OtherControl
  {
    match o
    case ChangeOn(target) => trigger == Some(ChangeEvent) && target != OtherControl
    case FormSubmitted => trigger == Some(SubmitEvent)
  }

  /** A change on a collected control outside the delegated selector does not refresh the filters. */
  lemma UnlistedControlChangeIgnored(eventType: string, c: Control)
    requires c.category == OtherControl
    ensures !Refreshes(TriggerFor(eventType), ChangeOn(c.category))
    ensures Refreshes(TriggerFor(eventType), ChangeOn(TextLike)) <==> eventType == "onChange"
  {
  }

  /** What one run of `updateFilters` ends in: a thrown TypeError, or a submission. */
  datatype UpdateOutcome = Threw(error: CollectError) | Completed(submission: Submission)

  class FilterForm {
    const ajaxUrl: string
    const action: string
    const postType: string
    const callbacks: Callbacks
    const trigger: Option<DomEvent>

    // The four objects of lines 65-68, shared by every run of updateFilters.
    var taxonomyFilters: ListMap
    var metaFilters: ListMap
    var textFilters: ScalarMap
    var dateFilters: ScalarMap

    function Filters(): Snapshot
      reads this
    {
      Snapshot(taxonomyFilters, metaFilters, textFilters, dateFilters)
    }

    /** Plugin initialisation on a form (lines 54-68, 200-228). */
    constructor (ajaxurl: string, action: string, psottype: string, eventType: string, callbacks: Callbacks)
      ensures this.ajaxUrl == ajaxurl && this.action == action && this.postType == psottype
      ensures this.callbacks == callbacks && trigger == TriggerFor(eventType)
      ensures Filters() == EmptySnapshot
    {
      this.ajaxUrl := ajaxurl;
      this.action := action;
      this.postType := psottype;
      this.callbacks := callbacks;
      this.trigger := TriggerFor(eventType);
      taxonomyFilters, metaFilters, textFilters, dateFilters := map[], map[], map[], map[];
    }

    /**
     * Lines 72-143: reset the four dictionaries, then let every control in
     * document order update them in place. The result depends only on the
     * controls, never on what an earlier run left behind. When a push throws,
     * the dictionaries keep what the controls before the failing one wrote,
     * plus the failing control's taxonomy write when it was the meta push
     * that threw.
     */
    method CollectFilters(controls: seq<Control>) returns (outcome: Result<Snapshot, CollectError>)
      modifies this
      ensures outcome == Collected(controls)
      ensures outcome.Ok? ==> Filters() == outcome.value
      ensures outcome.Err? ==>
        exists j :: (&& 0 <= j < |controls| && Collected(controls[..j]).Ok?
                     && Step(Collected(controls[..j]).value, controls[j]).Err?
                     && Filters() == StateAtThrow(Collected(controls[..j]).value, controls[j]))
    {
      taxonomyFilters := map[];
      metaFilters := map[];
      textFilters := map[];
      dateFilters := map[];
      var i := 0;
      while i < |controls|
        invariant 0 <= i <= |controls|
        invariant Collected(controls[..i]) == Ok(Filters())
      {
        assert controls[..i + 1][..i] == controls[..i];
        var thrown := ApplyControl(controls[i]);
        if thrown.Some? {
          ThrowEndsPass(controls, i);
          outcome := Err(thrown.value);
          return;
        }
        i := i + 1;
      }
      assert controls[..i] == controls;
      outcome := Ok(Filters());
    }

    /**
     * The `.each` callback of lines 79-142 on one control: extract its value,
     * then update the taxonomy, meta, text and date dictionaries in that
     * order. It does what `Step` describes, and when a push throws it stops
     * where `StateAtThrow` says.
     */
    method ApplyControl(c: Control) returns (thrown: Option<CollectError>)
      modifies this
      ensures match Step(old(Filters()), c)
        case Ok(after) => thrown == None && Filters() == after
        case Err(e) => thrown == Some(e) && Filters() == StateAtThrow(old(Filters()), c)
    {
      ghost var before := Filters();
      var value := ExtractValue(c);
      if value.None? {
        return None;
      }
      var v := value.value;
      ghost var tax := AddToList(before.taxonomy, c.taxKey, v, c.multiple, Taxonomy);
      if c.taxKey != "" {
        thrown := AddListEntry(Taxonomy, c.taxKey, v, c.multiple);
        if thrown.Some? {
          assert Step(before, c) == Err(tax.error);
          return;
        }
      }
      assert tax == Ok(taxonomyFilters);
      ghost var afterTax := Filters();
      ghost var meta := AddToList(before.meta, c.metaKey, v, c.multiple, Meta);
      if c.metaKey != "" {
        thrown := AddListEntry(Meta, c.metaKey, v, c.multiple);
        if thrown.Some? {
          assert Step(before, c) == Err(meta.error);
          assert StateAtThrow(before, c) == afterTax;
          return;
        }
      }
      assert meta == Ok(metaFilters);
      PutScalarEntries(c.textKey, c.dateKey, v);
      assert Step(before, c) == Ok(Filters());
      return None;
    }

    /**
     * Lines 129-142: the value overwrites the text entry under a non-empty
     * text key, and the date entry under a non-empty date key, the latter
     * after a missing or falsy entry has been set to the placeholder `''`.
     */
    method PutScalarEntries(textKey: string, dateKey: string, v: string)
      modifies this
      ensures Filters() == old(Filters()).(text := PutText(old(textFilters), textKey, v),
                                           date := PutDate(old(dateFilters), dateKey, v))
    {
      if textKey != "" {
        textFilters := textFilters[textKey := v];
      }
      if dateKey != "" {
        if !(dateKey in dateFilters && dateFilters[dateKey] != "") {
          dateFilters := dateFilters[dateKey := ""];
        }
        dateFilters := dateFilters[dateKey := v];
      }
    }

    /**
     * Lines 101-112 (taxonomy) and 115-126 (meta) on a non-empty key: a
     * missing or falsy entry becomes `[]`, then a `multiple` control pushes
     * the value onto the entry and any other control overwrites it. A push
     * onto a string throws, and then nothing has changed.
     */
    method AddListEntry(kind: ListKind, key: string, v: string, multiple: bool) returns (thrown: Option<CollectError>)
      requires key != ""
      modifies this
      ensures var r := AddToList(ListMapOf(old(Filters()), kind), key, v, multiple, kind);
        && (thrown.None? <==> r.Ok?)
        && (r.Ok? ==> Filters() == WithListMap(old(Filters()), kind, r.value))
        && (r.Err? ==> thrown == Some(r.error) && Filters() == old(Filters()))
    {
      var m := if kind == Taxonomy then taxonomyFilters else metaFilters;
      if !(key in m && Truthy(m[key])) {
        m := m[key := List([])];
      }
      if multiple {
        match m[key]
        case List(items) =>
          m := m[key := List(items + [v])];
        case Scalar(_) =>
          return Some(PushOnString(kind, key));
      } else {
        m := m[key := Scalar(v)];
      }
      if kind == Taxonomy {
        taxonomyFilters := m;
      } else {
        metaFilters := m;
      }
      return None;
    }

    /**
     * `updateFilters` (lines 71-197): collect; if a push threw, no callback
     * fires, nothing is sent and the dictionaries keep what the pass wrote
     * before the throw; otherwise build the payload from the
     * configured constants and the collected dictionaries and submit it.
     */
    method UpdateFilters(controls: seq<Control>, transport: TransportOutcome, order: Scheduling)
      returns (r: UpdateOutcome)
      modifies this
      ensures r == match Collected(controls)
        case Err(e) => Threw(e)
        case Ok(filters) => Completed(Submit(ajaxUrl, callbacks, BuildPayload(action, postType, filters), transport, order))
      ensures Collected(controls).Ok? ==> Filters() == Collected(controls).value
      ensures Collected(controls).Err? ==>
        exists j :: (&& 0 <= j < |controls| && Collected(controls[..j]).Ok?
                     && Step(Collected(controls[..j]).value, controls[j]).Err?
                     && Filters() == StateAtThrow(Collected(controls[..j]).value, controls[j]))
    {
      var collected := CollectFilters(controls);
      match collected
      case Err(e) =>
        r := Threw(e);
      case Ok(filters) =>
        var payload := BuildPayload(action, postType, filters);
        r := Completed(Submit(ajaxUrl, callbacks, payload, transport, order));
    }

    /**
     * The bound handlers (lines 201-228): an occurrence that the trigger
     * listens to runs `updateFilters` afresh; any other leaves the instance
     * alone.
     */
    method Handle(o: Occurrence, controls: seq<Control>, transport: TransportOutcome, order: Scheduling)
      returns (r: Option<UpdateOutcome>)
      modifies this
      ensures Refreshes(trigger, o) ==> r.Some? && r.value == match Collected(controls)
        case Err(e) => Threw(e)
        case Ok(filters) => Completed(Submit(ajaxUrl, callbacks, BuildPayload(action, postType, filters), transport, order))
      ensures Refreshes(trigger, o) && Collected(controls).Ok? ==> Filters() == Collected(controls).value
      ensures Refreshes(trigger, o) && Collected(controls).Err? ==>
        exists j :: (&& 0 <= j < |controls| && Collected(controls[..j]).Ok?
                     && Step(Collected(controls[..j]).value, controls[j]).Err?
                     && Filters() == StateAtThrow(Collected(controls[..j]).value, controls[j]))
      ensures !Refreshes(trigger, o) ==> r == None && unchanged(this)
    {
      if Refreshes(trigger, o) {
        var u := UpdateFilters(controls, transport, order);
        r := Some(u);
      } else {
        r := None;
      }
    }
  }

  /** The pass up to and including control `i` has thrown, so the whole pass has. */
  lemma ThrowEndsPass(controls: seq<Control>, i: nat)
    requires i < |controls| && Collected(controls[..i]).Ok?
    requires Step(Collected(controls[..i]).value, controls[i]).Err?
    ensures Collected(controls) == Step(Collected(controls[..i]).value, controls[i])
  {
    assert controls[..i + 1][..i] == controls[..i];
    CollectorProperties.ErrorPersists(controls, i + 1);
  }
}
