/**
 * What one collection pass guarantees, stated per dictionary and per key in
 * terms of the writes aimed at that key, independently of the fold that
 * `FilterCollector.Collected` performs.
 */
module CollectorProperties {
  import opened Wrappers
  import opened JsStrings
  import opened FilterCollector

  /** A value written to a key, with the `multiple` flag of the control that wrote it. */
  datatype Write = Write(multiple: bool, value: string)

  /** What control `c` writes to `key` of dictionary `kind`: one write or none. */
  function ListWriteOf(c: Control, kind: ListKind, key: string): seq<Write>
  {
    if key != "" && ListMarker(c, kind) == key && ExtractValue(c).Some?
    then [Write(c.multiple, ExtractValue(c).value)]
    else []
  }

  /** The writes to `key` of dictionary `kind`, in document order. */
  function ListWrites(cs: seq<Control>, kind: ListKind, key: string): (ws: seq<Write>)
    ensures |ws| <= |cs|
    ensures key == "" ==> ws == []
    ensures forall i :: 0 <= i < |ws| ==> ws[i].value != ""
  {
    if cs == [] then []
    else ListWrites(cs[..|cs| - 1], kind, key) + ListWriteOf(cs[|cs| - 1], kind, key)
  }

  function ScalarWriteOf(c: Control, kind: ScalarKind, key: string): seq<string>
  {
    if key != "" && ScalarMarker(c, kind) == key && ExtractValue(c).Some?
    then [ExtractValue(c).value]
    else []
  }

  /** The values written to `key` of the text or date dictionary, in document order. */
  function ScalarWrites(cs: seq<Control>, kind: ScalarKind, key: string): (ws: seq<string>)
    ensures |ws| <= |cs|
    ensures key == "" ==> ws == []
    ensures forall i :: 0 <= i < |ws| ==> ws[i] != ""
  {
    if cs == [] then []
    else ScalarWrites(cs[..|cs| - 1], kind, key) + ScalarWriteOf(cs[|cs| - 1], kind, key)
  }

  function Values(ws: seq<Write>): seq<string>
  {
    seq(|ws|, i requires 0 <= i < |ws| => ws[i].value)
  }

  /** A `multiple` control writes to a key after a non-`multiple` one did: the push that throws. */
  ghost predicate ScalarThenPush(ws: seq<Write>)
  {
    exists i, j :: 0 <= i < j < |ws| && !ws[i].multiple && ws[j].multiple
  }

  /** A control that changes nothing: it is skipped, or carries no non-empty marker. */
  predicate ContributesNothing(c: Control)
  {
    ExtractValue(c).None? || (c.taxKey == "" && c.metaKey == "" && c.textKey == "" && c.dateKey == "")
  }

  predicate GoodEntry(e: FilterValue)
  {
    match e
    case Scalar(v) => v != ""
    case List(items) => items != [] && forall i :: 0 <= i < |items| ==> items[i] != ""
  }

  /** No empty key, no empty string, no empty array anywhere in the four dictionaries. */
  ghost predicate WellFormed(s: Snapshot)
  {
    && (forall k :: k in s.taxonomy ==> k != "" && GoodEntry(s.taxonomy[k]))
    && (forall k :: k in s.meta ==> k != "" && GoodEntry(s.meta[k]))
    && (forall k :: k in s.text ==> k != "" && s.text[k] != "")
    && (forall k :: k in s.date ==> k != "" && s.date[k] != "")
  }

  // ---------------------------------------------------------------------
  // One step

  lemma StepListMap(s: Snapshot, c: Control, kind: ListKind)
    requires Step(s, c).Ok? && ExtractValue(c).Some?
    ensures var r := AddToList(ListMapOf(s, kind), ListMarker(c, kind), ExtractValue(c).value, c.multiple, kind);
      r.Ok? && ListMapOf(Step(s, c).value, kind) == r.value
  {
  }

  lemma StepScalarMap(s: Snapshot, c: Control, kind: ScalarKind)
    requires Step(s, c).Ok? && ExtractValue(c).Some?
    ensures var v := ExtractValue(c).value;
      ScalarMapOf(Step(s, c).value, kind) ==
        if kind == Text then PutText(s.text, c.textKey, v) else PutDate(s.date, c.dateKey, v)
  {
  }

  lemma StepErr(s: Snapshot, c: Control)
    requires Step(s, c).Err?
    ensures var e := Step(s, c).error;
      && ExtractValue(c).Some? && ListMarker(c, e.kind) == e.key
      && AddToList(ListMapOf(s, e.kind), e.key, ExtractValue(c).value, c.multiple, e.kind).Err?
  {
  }

  // ---------------------------------------------------------------------
  // The pass

  /** Once a pass has thrown, the controls after the failing one change nothing. */
  lemma {:induction false} ErrorPersists(cs: seq<Control>, n: nat)
    requires n <= |cs| && Collected(cs[..n]).Err?
    ensures Collected(cs) == Collected(cs[..n])
    decreases |cs|
  {
    if n < |cs| {
      var p := cs[..|cs| - 1];
      assert p[..n] == cs[..n];
      ErrorPersists(p, n);
    } else {
      assert cs[..n] == cs;
    }
  }

  /** A control that contributes nothing leaves the dictionaries as they are. */
  lemma InertStep(s: Snapshot, c: Control)
    requires ContributesNothing(c)
    ensures Step(s, c) == Ok(s)
  {
  }

  /**
   * An unchecked checkbox or radio, a control whose value is empty (after
   * trimming, for a text-like input), or a control with no non-empty marker
   * can be removed from the form without changing the outcome of the pass.
   */
  lemma {:induction false} InertControlIgnored(a: seq<Control>, c: Control, b: seq<Control>)
    requires ContributesNothing(c)
    ensures Collected(a + [c] + b) == Collected(a + b)
    decreases |b|
  {
    if b == [] {
      assert a + [c] + b == a + [c];
      assert (a + [c])[..|a|] == a;
      assert a + b == a;
      if Collected(a).Ok? {
        InertStep(Collected(a).value, c);
      }
    } else {
      var b', d := b[..|b| - 1], b[|b| - 1];
      InertControlIgnored(a, c, b');
      assert (a + [c] + b)[..|a + [c] + b| - 1] == a + [c] + b';
      assert (a + b)[..|a + b| - 1] == a + b';
    }
  }

  /**
   * How the entry of `key` in a taxonomy or meta dictionary `m` stands to
   * the writes `ws` aimed at it. The key is present exactly when some
   * control wrote to it, and no `multiple` write follows a non-`multiple`
   * one. If the last write came from a control without `multiple`, the
   * entry is that control's string (last write wins); otherwise every write
   * came from a `multiple` control and the entry is the array of all the
   * written values in document order.
   */
  ghost predicate ListEntryAgrees(m: ListMap, ws: seq<Write>, key: string)
  {
    && (key in m <==> ws != [])
    && !ScalarThenPush(ws)
    && (ws != [] && !ws[|ws| - 1].multiple ==> m[key] == Scalar(ws[|ws| - 1].value))
    && (ws != [] && ws[|ws| - 1].multiple ==>
          (forall i :: 0 <= i < |ws| ==> ws[i].multiple) && m[key] == List(Values(ws)))
  }

  /** The entry of `key` in a text or date dictionary is the last value written to it, if any. */
  ghost predicate ScalarEntryAgrees(m: ScalarMap, ws: seq<string>, key: string)
  {
    && (key in m <==> ws != [])
    && (ws != [] ==> m[key] == ws[|ws| - 1])
  }

  lemma PushKeepsAgreement(m: ListMap, ws: seq<Write>, key: string, v: string, kind: ListKind)
    requires key != "" && ListEntryAgrees(m, ws, key) && AddToList(m, key, v, true, kind).Ok?
    requires forall i :: 0 <= i < |ws| ==> ws[i].value != ""
    ensures ListEntryAgrees(AddToList(m, key, v, true, kind).value, ws + [Write(true, v)], key)
  {
    var ws' := ws + [Write(true, v)];
    assert ws != [] ==> ws[|ws| - 1].multiple;
    assert Values(ws') == Values(ws) + [v];
    forall i | 0 <= i < |ws'| ensures ws'[i].multiple {
      if i < |ws| { assert ws'[i] == ws[i]; }
    }
  }

  lemma OverwriteKeepsAgreement(m: ListMap, ws: seq<Write>, key: string, v: string, kind: ListKind)
    requires key != "" && ListEntryAgrees(m, ws, key) && AddToList(m, key, v, false, kind).Ok?
    ensures ListEntryAgrees(AddToList(m, key, v, false, kind).value, ws + [Write(false, v)], key)
  {
    var ws' := ws + [Write(false, v)];
    forall i, j | 0 <= i < j < |ws'| && !ws'[i].multiple ensures !ws'[j].multiple {
      if j < |ws| { assert ws'[i] == ws[i] && ws'[j] == ws[j]; }
    }
  }

  lemma StepKeepsAgreement(m: ListMap, ws: seq<Write>, key: string, c: Control, kind: ListKind)
    requires ListEntryAgrees(m, ws, key) && ExtractValue(c).Some?
    requires forall i :: 0 <= i < |ws| ==> ws[i].value != ""
    requires AddToList(m, ListMarker(c, kind), ExtractValue(c).value, c.multiple, kind).Ok?
    ensures ListEntryAgrees(AddToList(m, ListMarker(c, kind), ExtractValue(c).value, c.multiple, kind).value,
                            ws + ListWriteOf(c, kind, key), key)
  {
    var v := ExtractValue(c).value;
    if key != "" && ListMarker(c, kind) == key {
      if c.multiple {
        PushKeepsAgreement(m, ws, key, v, kind);
      } else {
        OverwriteKeepsAgreement(m, ws, key, v, kind);
      }
    } else {
      assert ws + ListWriteOf(c, kind, key) == ws;
    }
  }

  /**
   * After a successful pass, the entry of every taxonomy or meta key stands
   * to the writes aimed at it as `ListEntryAgrees` says.
   */
  lemma {:induction false} ListEntryCharacterized(cs: seq<Control>, kind: ListKind, key: string)
    requires Collected(cs).Ok?
    ensures ListEntryAgrees(ListMapOf(Collected(cs).value, kind), ListWrites(cs, kind, key), key)
  {
    if cs != [] {
      var p, c := cs[..|cs| - 1], cs[|cs| - 1];
      var s := Collected(p).value;
      ListEntryCharacterized(p, kind, key);
      var ws := ListWrites(p, kind, key);
      if ExtractValue(c).Some? {
        StepListMap(s, c, kind);
        StepKeepsAgreement(ListMapOf(s, kind), ws, key, c, kind);
      } else {
        assert ListWrites(cs, kind, key) == ws;
      }
    }
  }

  /**
   * After a successful pass, a text or date key is present exactly when
   * some control wrote to it, and then holds the value of the last such
   * control.
   */
  lemma {:induction false} ScalarEntryIsLastWrite(cs: seq<Control>, kind: ScalarKind, key: string)
    requires Collected(cs).Ok?
    ensures ScalarEntryAgrees(ScalarMapOf(Collected(cs).value, kind), ScalarWrites(cs, kind, key), key)
  {
    if cs != [] {
      var p, c := cs[..|cs| - 1], cs[|cs| - 1];
      var s := Collected(p).value;
      ScalarEntryIsLastWrite(p, kind, key);
      if ExtractValue(c).Some? {
        StepScalarMap(s, c, kind);
      }
    }
  }

  lemma ScalarThenPushPersists(ws: seq<Write>, more: seq<Write>)
    requires ScalarThenPush(ws)
    ensures ScalarThenPush(ws + more)
  {
    var i, j :| 0 <= i < j < |ws| && !ws[i].multiple && ws[j].multiple;
    assert (ws + more)[i] == ws[i] && (ws + more)[j] == ws[j];
  }

  /** When a pass throws, the key its error names received a `multiple` write after a non-`multiple` one. */
  lemma {:induction false} ErrorNamesScalarThenPush(cs: seq<Control>)
    requires Collected(cs).Err?
    ensures ScalarThenPush(ListWrites(cs, Collected(cs).error.kind, Collected(cs).error.key))
  {
    var p, c := cs[..|cs| - 1], cs[|cs| - 1];
    var e := Collected(cs).error;
    var ws := ListWrites(p, e.kind, e.key);
    assert ListWrites(cs, e.kind, e.key) == ws + ListWriteOf(c, e.kind, e.key);
    if Collected(p).Err? {
      ErrorNamesScalarThenPush(p);
      ScalarThenPushPersists(ws, ListWriteOf(c, e.kind, e.key));
    } else {
      var s := Collected(p).value;
      StepErr(s, c);
      ListEntryCharacterized(p, e.kind, e.key);
      var ws' := ws + [Write(true, ExtractValue(c).value)];
      assert ListWriteOf(c, e.kind, e.key) == [Write(true, ExtractValue(c).value)];
      assert !ws[|ws| - 1].multiple;
      assert ws'[|ws| - 1] == ws[|ws| - 1] && ws'[|ws|].multiple;
    }
  }

  /**
   * A pass throws exactly when some taxonomy or meta key receives a write
   * from a `multiple` control after one from a control without it.
   */
  lemma CollectFailsIffScalarThenPush(cs: seq<Control>)
    ensures Collected(cs).Err? <==> exists kind, key {:trigger ListWrites(cs, kind, key)} :: ScalarThenPush(ListWrites(cs, kind, key))
  {
    if Collected(cs).Ok? {
      forall kind, key ensures !ScalarThenPush(ListWrites(cs, kind, key)) {
        ListEntryCharacterized(cs, kind, key);
      }
    } else {
      ErrorNamesScalarThenPush(cs);
      var e := Collected(cs).error;
      assert ScalarThenPush(ListWrites(cs, e.kind, e.key));
      assert exists kind, key {:trigger ListWrites(cs, kind, key)} :: ScalarThenPush(ListWrites(cs, kind, key));
    }
  }

  /**
   * After a successful pass no dictionary holds an empty key, an empty
   * string or an empty array: skipped values and empty markers leave no
   * trace, and the date placeholder never survives.
   */
  lemma CollectedWellFormed(cs: seq<Control>)
    requires Collected(cs).Ok?
    ensures WellFormed(Collected(cs).value)
  {
    var s := Collected(cs).value;
    forall k | k in s.taxonomy ensures k != "" && GoodEntry(s.taxonomy[k]) {
      ListEntryCharacterized(cs, Taxonomy, k);
    }
    forall k | k in s.meta ensures k != "" && GoodEntry(s.meta[k]) {
      ListEntryCharacterized(cs, Meta, k);
    }
    forall k | k in s.text ensures k != "" && s.text[k] != "" {
      ScalarEntryIsLastWrite(cs, Text, k);
    }
    forall k | k in s.date ensures k != "" && s.date[k] != "" {
      ScalarEntryIsLastWrite(cs, Date, k);
    }
  }

  /**
   * Each dictionary depends only on the writes aimed at it: two forms whose
   * controls write the same values to the same keys of one dictionary get
   * the same dictionary, whatever the other markers on those controls.
   */
  lemma ListMapDeterminedByWrites(cs: seq<Control>, cs': seq<Control>, kind: ListKind)
    requires Collected(cs).Ok? && Collected(cs').Ok?
    requires forall key :: ListWrites(cs, kind, key) == ListWrites(cs', kind, key)
    ensures ListMapOf(Collected(cs).value, kind) == ListMapOf(Collected(cs').value, kind)
  {
    var m, m' := ListMapOf(Collected(cs).value, kind), ListMapOf(Collected(cs').value, kind);
    forall key ensures (key in m <==> key in m') && (key in m ==> m[key] == m'[key]) {
      ListEntryCharacterized(cs, kind, key);
      ListEntryCharacterized(cs', kind, key);
      AgreeingEntriesEqual(m, m', ListWrites(cs, kind, key), key);
    }
    assert m == m';
  }

  /** Two dictionaries that agree with the same writes to `key` have the same entry there. */
  lemma AgreeingEntriesEqual(m: ListMap, m': ListMap, ws: seq<Write>, key: string)
    requires ListEntryAgrees(m, ws, key) && ListEntryAgrees(m', ws, key)
    ensures (key in m <==> key in m') && (key in m ==> m[key] == m'[key])
  {
  }

  lemma ScalarMapDeterminedByWrites(cs: seq<Control>, cs': seq<Control>, kind: ScalarKind)
    requires Collected(cs).Ok? && Collected(cs').Ok?
    requires forall key :: ScalarWrites(cs, kind, key) == ScalarWrites(cs', kind, key)
    ensures ScalarMapOf(Collected(cs).value, kind) == ScalarMapOf(Collected(cs').value, kind)
  {
    var m, m' := ScalarMapOf(Collected(cs).value, kind), ScalarMapOf(Collected(cs').value, kind);
    forall key ensures (key in m <==> key in m') && (key in m ==> m[key] == m'[key]) {
      ScalarEntryIsLastWrite(cs, kind, key);
      ScalarEntryIsLastWrite(cs', kind, key);
      AgreeingScalarEntriesEqual(m, m', ScalarWrites(cs, kind, key), key);
    }
    assert m == m';
  }

  lemma AgreeingScalarEntriesEqual(m: ScalarMap, m': ScalarMap, ws: seq<string>, key: string)
    requires ScalarEntryAgrees(m, ws, key) && ScalarEntryAgrees(m', ws, key)
    ensures (key in m <==> key in m') && (key in m ==> m[key] == m'[key])
  {
  }
}
