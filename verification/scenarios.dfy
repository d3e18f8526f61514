/**
 * Small concrete forms worked through the model.
 */
module Scenarios {
  import opened Wrappers
  import opened JsStrings
  import opened FilterCollector
  import opened RequestCoordinator

  function Checkbox(value: string, checked: bool, taxKey: string, metaKey: string, multiple: bool): Control
  {
    Control(CheckboxOrRadio, checked, value, taxKey, metaKey, "", "", multiple)
  }

  /** A two-control pass is the second step applied after the first. */
  lemma Pair(a: Control, b: Control)
    ensures Collected([a, b]) == match Step(EmptySnapshot, a)
      case Err(e) => Err(e)
      case Ok(s) => Step(s, b)
  {
    assert Collected([a]) == Step(EmptySnapshot, a) by {
      assert [a][..0] == [];
    }
    assert [a, b][..1] == [a];
  }

  lemma Singleton<V>(m: map<string, V>, expected: map<string, V>)
    requires |expected.Keys| == 1 && m.Keys == expected.Keys
    requires forall k :: k in m ==> m[k] == expected[k]
    ensures m == expected
  {
  }

  /** A checked checkbox then a checked radio on one taxonomy key, neither `multiple`: the later one wins. */
  lemma LaterScalarWins()
    ensures Collected([Checkbox("news", true, "category", "", false), Checkbox("sports", true, "category", "", false)])
      == Ok(Snapshot(map["category" := Scalar("sports")], map[], map[], map[]))
  {
    var a, b := Checkbox("news", true, "category", "", false), Checkbox("sports", true, "category", "", false);
    Pair(a, b);
    assert ExtractValue(a) == Some("news");
    assert ExtractValue(b) == Some("sports");
    var m1 := map["category" := Scalar("news")];
    Singleton(AddToList(map[], "category", "news", false, Taxonomy).value, m1);
    assert AddToList(map[], "category", "news", false, Taxonomy) == Ok(m1);
    assert Step(EmptySnapshot, a) == Ok(EmptySnapshot.(taxonomy := m1));
    Singleton(AddToList(m1, "category", "sports", false, Taxonomy).value, map["category" := Scalar("sports")]);
    assert AddToList(m1, "category", "sports", false, Taxonomy) == Ok(map["category" := Scalar("sports")]);
  }

  /** Two checked `multiple` checkboxes on one meta key: an array of both values in order. */
  lemma MultipleValuesListed()
    ensures Collected([Checkbox("a", true, "", "tag", true), Checkbox("b", true, "", "tag", true)])
      == Ok(Snapshot(map[], map["tag" := List(["a", "b"])], map[], map[]))
  {
    var a, b := Checkbox("a", true, "", "tag", true), Checkbox("b", true, "", "tag", true);
    Pair(a, b);
    assert ExtractValue(a) == Some("a");
    assert ExtractValue(b) == Some("b");
    var m1 := map["tag" := List(["a"])];
    assert [] + ["a"] == ["a"];
    Singleton(AddToList(map[], "tag", "a", true, Meta).value, m1);
    assert AddToList(map[], "tag", "a", true, Meta) == Ok(m1);
    assert Step(EmptySnapshot, a) == Ok(EmptySnapshot.(meta := m1));
    assert ["a"] + ["b"] == ["a", "b"];
    Singleton(AddToList(m1, "tag", "b", true, Meta).value, map["tag" := List(["a", "b"])]);
    assert AddToList(m1, "tag", "b", true, Meta) == Ok(map["tag" := List(["a", "b"])]);
  }

  /** An unchecked checkbox in between adds nothing. */
  lemma UncheckedAddsNothing()
    ensures Collected([Checkbox("a", true, "", "tag", true), Checkbox("x", false, "", "tag", true),
                       Checkbox("b", true, "", "tag", true)])
      == Ok(Snapshot(map[], map["tag" := List(["a", "b"])], map[], map[]))
  {
    var a, x, b := Checkbox("a", true, "", "tag", true), Checkbox("x", false, "", "tag", true),
                   Checkbox("b", true, "", "tag", true);
    assert [a, x, b][..2] == [a, x];
    Pair(a, x);
    assert ExtractValue(x) == None;
    MultipleValuesListed();
    Pair(a, b);
  }

  /** A date input's value is trimmed before it is stored. */
  lemma DateValueTrimmed()
    ensures Collected([Control(TextLike, false, " 2024-01-01\n", "", "", "", "published_after", false)])
      == Ok(Snapshot(map[], map[], map[], map["published_after" := "2024-01-01"]))
  {
    var c := Control(TextLike, false, " 2024-01-01\n", "", "", "", "published_after", false);
    TrimExample();
    DateOnlyStep(c, "2024-01-01");
    assert Collected([c]) == Step(EmptySnapshot, c) by {
      assert [c][..0] == [];
    }
  }

  /** A text-like control tagged only as a date filter, on the empty dictionaries. */
  lemma DateOnlyStep(c: Control, v: string)
    requires c.category == TextLike && Trim(c.raw) == v && v != ""
    requires c.taxKey == "" && c.metaKey == "" && c.textKey == "" && c.dateKey != ""
    ensures Step(EmptySnapshot, c) == Ok(EmptySnapshot.(date := map[c.dateKey := v]))
  {
    assert ExtractValue(c) == Some(v);
    Singleton(PutDate(map[], c.dateKey, v), map[c.dateKey := v]);
  }

  /** `" 2024-01-01\n".trim()` is `"2024-01-01"`. */
  lemma TrimExample()
    ensures Trim(" 2024-01-01\n") == "2024-01-01"
  {
    TrimStartExample();
    TrimEndExample();
  }

  lemma TrimStartExample()
    ensures TrimStart(" 2024-01-01\n") == "2024-01-01\n"
  {
    var raw := " 2024-01-01\n";
    assert IsJsWhitespace(raw[0]);
    assert raw[1..] == "2024-01-01\n";
    assert !IsJsWhitespace(raw[1]);
  }

  lemma TrimEndExample()
    ensures TrimEnd("2024-01-01\n") == "2024-01-01"
  {
    var raw := "2024-01-01\n";
    assert raw[..10] == "2024-01-01";
  }

  /** A `multiple` checkbox after a plain one on the same key pushes onto a string and throws. */
  lemma PushOntoStringThrows()
    ensures Collected([Checkbox("news", true, "category", "", false), Checkbox("sports", true, "category", "", true)])
      == Err(PushOnString(Taxonomy, "category"))
  {
    var a, b := Checkbox("news", true, "category", "", false), Checkbox("sports", true, "category", "", true);
    Pair(a, b);
    assert ExtractValue(a) == Some("news");
    assert ExtractValue(b) == Some("sports");
    var m1 := map["category" := Scalar("news")];
    Singleton(AddToList(map[], "category", "news", false, Taxonomy).value, m1);
    assert AddToList(map[], "category", "news", false, Taxonomy) == Ok(m1);
    assert Step(EmptySnapshot, a) == Ok(EmptySnapshot.(taxonomy := m1));
  }

  /** A plain control after a `multiple` one replaces its array with its string. */
  lemma ScalarReplacesList()
    ensures Collected([Checkbox("news", true, "category", "", true), Checkbox("sports", true, "category", "", false)])
      == Ok(Snapshot(map["category" := Scalar("sports")], map[], map[], map[]))
  {
    var a, b := Checkbox("news", true, "category", "", true), Checkbox("sports", true, "category", "", false);
    Pair(a, b);
    assert ExtractValue(a) == Some("news");
    assert ExtractValue(b) == Some("sports");
    var m1 := map["category" := List(["news"])];
    assert [] + ["news"] == ["news"];
    Singleton(AddToList(map[], "category", "news", true, Taxonomy).value, m1);
    assert AddToList(map[], "category", "news", true, Taxonomy) == Ok(m1);
    assert Step(EmptySnapshot, a) == Ok(EmptySnapshot.(taxonomy := m1));
    Singleton(AddToList(m1, "category", "sports", false, Taxonomy).value, map["category" := Scalar("sports")]);
    assert AddToList(m1, "category", "sports", false, Taxonomy) == Ok(map["category" := Scalar("sports")]);
  }

  /** A failed request with every hook present, `complete` running before the `.then` handlers. */
  lemma FailedRequestTrace(url: string, p: Payload)
    ensures var xhr := Xhr(500, "");
      Submit(url, Callbacks(true, true, true, true), p, Failed(xhr, "error", "Internal Server Error"), CompleteFirst)
      == Submission([BeforeSend(Some(p)), BeforeSend(None), Sent(Request(url, "POST", p)), AfterSend,
                     OnError(xhr, "error", "Internal Server Error")],
                    Rejected("error", "Internal Server Error"))
  {
  }
}
