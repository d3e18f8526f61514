/**
 * The request half of `updateFilters` (lines 146-197): the payload built
 * from the collected dictionaries, and the callbacks fired around the
 * transport call. The transport is not modelled; what it reports is an
 * input, and so is the order in which jQuery runs the `complete` option
 * and the `.then` handlers, which the plugin's code does not fix.
 */
module RequestCoordinator {
  import opened Wrappers
  import opened FilterCollector

  /** The `data` object of lines 146-153. */
  datatype Payload = Payload(
    action: string,
    psottype: string,
    taxonomyFilters: ListMap,
    metaFilters: ListMap,
    textFilters: ScalarMap,
    dateFilters: ScalarMap)

  /** The four dictionaries a payload carries. */
  function FiltersOf(p: Payload): Snapshot
  {
    Snapshot(p.taxonomyFilters, p.metaFilters, p.textFilters, p.dateFilters)
  }

  /**
   * Lines 146-153: the configured action and post type, and the four
   * dictionaries exactly as collected.
   */
  function BuildPayload(action: string, postType: string, filters: Snapshot): (p: Payload)
    ensures p.action == action && p.psottype == postType
    ensures FiltersOf(p) == filters
  {
    Payload(action, postType, filters.taxonomy, filters.meta, filters.text, filters.date)
  }

  /**
   * Which hooks will be called: a field is true when `callbacks` is truthy
   * and its property of that name is a function (lines 156, 167, 173, 180,
   * 188). A missing or non-function hook is skipped.
   */
  datatype Callbacks = Callbacks(beforeSend: bool, afterSend: bool, onSuccess: bool, onError: bool)

  /** The jqXHR object passed to the error handler, reduced to what it carries through. */
  datatype Xhr = Xhr(statusCode: int, responseText: string)

  /**
   * What `$.ajax` reports: a response, or the `(xhr, status, error)` triple
   * of its failure handler (`status` is jQuery's text status: "error",
   * "timeout", "abort" or "parsererror"; `error` is the HTTP status text
   * for an HTTP error, the text status again for a timeout or abort, and
   * the thrown exception for a parse error, which the model reduces to a
   * string).
   */
  datatype TransportOutcome =
    | Succeeded(response: string)
    | Failed(xhr: Xhr, status: string, error: string)

  /** The request handed to the transport (lines 161-164). */
  datatype Request = Request(url: string, httpMethod: string, data: Payload)

  /** A hook call, or the hand-over of the request to the transport. */
  datatype Event =
    | BeforeSend(arg: Option<Payload>)
    | Sent(request: Request)
    | AfterSend
    | OnSuccess(response: string)
    | OnError(xhr: Xhr, status: string, error: string)

  /** How the promise returned by `updateFilters` settles (lines 184 and 192-195). */
  datatype Settlement = Resolved(response: string) | Rejected(status: string, error: string)

  /**
   * Whether jQuery runs the `complete` option before or after the `.then`
   * handlers; this depends on the jQuery version, not on the plugin.
   */
  datatype Scheduling = CompleteFirst | ThenFirst

  datatype Submission = Submission(trace: seq<Event>, settlement: Settlement)

  /** The hook named by a handler event was present, and it matches the transport outcome. */
  predicate HandlerMatches(e: Event, cbs: Callbacks, t: TransportOutcome)
  {
    match e
    case OnSuccess(response) => cbs.onSuccess && t == Succeeded(response)
    case OnError(xhr, status, error) => cbs.onError && t == Failed(xhr, status, error)
    case _ => false
  }

  /**
   * The events after the send: `afterSend` once if present, and the one
   * handler that matches the outcome once if present, in either order, and
   * nothing else.
   */
  ghost predicate CompletionEvents(post: seq<Event>, cbs: Callbacks, t: TransportOutcome)
  {
    var handlerPresent := if t.Succeeded? then cbs.onSuccess else cbs.onError;
    && |post| == (if cbs.afterSend then 1 else 0) + (if handlerPresent then 1 else 0)
    && multiset(post)[AfterSend] == (if cbs.afterSend then 1 else 0)
    && (forall i :: 0 <= i < |post| ==> post[i] == AfterSend || HandlerMatches(post[i], cbs, t))
  }

  /**
   * The shape of a submission's events: the two `beforeSend` calls when the
   * hook is present, then the request handed to the transport, then the
   * completion events.
   */
  ghost predicate SubmissionTrace(tr: seq<Event>, url: string, cbs: Callbacks, p: Payload, t: TransportOutcome)
  {
    var k := if cbs.beforeSend then 2 else 0;
    && k < |tr|
    && tr[..k + 1] ==
         (if cbs.beforeSend then [BeforeSend(Some(p)), BeforeSend(None)] else []) + [Sent(Request(url, "POST", p))]
    && CompletionEvents(tr[k + 1..], cbs, t)
  }

  /** The events of lines 171-190, once the transport has reported. */
  function PostSend(cbs: Callbacks, t: TransportOutcome, order: Scheduling): (r: seq<Event>)
    ensures |r| == (if cbs.afterSend then 1 else 0) + (if (if t.Succeeded? then cbs.onSuccess else cbs.onError) then 1 else 0)
    ensures cbs.afterSend ==> r[if order == CompleteFirst then 0 else |r| - 1] == AfterSend
  {
    var complete := if cbs.afterSend then [AfterSend] else [];
    var handler :=
      match t
      case Succeeded(response) => if cbs.onSuccess then [OnSuccess(response)] else []
      case Failed(xhr, status, error) => if cbs.onError then [OnError(xhr, status, error)] else [];
    if order == CompleteFirst then complete + handler else handler + complete
  }

  /** Whichever the scheduling, the events after the send are the completion events. */
  lemma PostSendCompletes(cbs: Callbacks, t: TransportOutcome, order: Scheduling)
    ensures CompletionEvents(PostSend(cbs, t, order), cbs, t)
  {
    var r := PostSend(cbs, t, order);
    var present := if t.Succeeded? then cbs.onSuccess else cbs.onError;
    var e := match t
      case Succeeded(response) => OnSuccess(response)
      case Failed(xhr, status, error) => OnError(xhr, status, error);
    assert present ==> HandlerMatches(e, cbs, t);
    if cbs.afterSend && present {
      assert r == if order == CompleteFirst then [AfterSend, e] else [e, AfterSend];
      HandlerAndAfterSend(cbs, t, e);
    } else if cbs.afterSend {
      assert r == [AfterSend];
    } else if present {
      assert r == [e];
    } else {
      assert r == [];
    }
  }

  lemma HandlerAndAfterSend(cbs: Callbacks, t: TransportOutcome, e: Event)
    requires cbs.afterSend && HandlerMatches(e, cbs, t)
    ensures CompletionEvents([AfterSend, e], cbs, t) && CompletionEvents([e, AfterSend], cbs, t)
  {
    assert multiset([AfterSend, e]) == multiset([e, AfterSend]) == multiset{AfterSend, e};
  }

  /**
   * Lines 155-197. `beforeSend` is called with the payload and then, from
   * the transport's own pre-send hook, without it, both before the request
   * is handed to the transport; then come the completion events; the
   * promise resolves with the response or rejects with `{status, error}`.
   */
  function Submit(url: string, cbs: Callbacks, p: Payload, t: TransportOutcome, order: Scheduling): (r: Submission)
    ensures SubmissionTrace(r.trace, url, cbs, p, t)
    ensures r.settlement == match t
      case Succeeded(response) => Resolved(response)
      case Failed(_, status, error) => Rejected(status, error)
  {
    var before := if cbs.beforeSend then [BeforeSend(Some(p)), BeforeSend(None)] else [];
    var sent := [Sent(Request(url, "POST", p))];
    var settlement :=
      match t
      case Succeeded(response) => Resolved(response)
      case Failed(_, status, error) => Rejected(status, error);
    PostSendCompletes(cbs, t, order);
    assert (before + sent + PostSend(cbs, t, order))[|before| + 1..] == PostSend(cbs, t, order);
    Submission(before + sent + PostSend(cbs, t, order), settlement)
  }

  /**
   * Over a whole submission: `beforeSend` fires twice or not at all, the
   * request is sent once, and `afterSend` fires once if present.
   */
  lemma SubmitCallbackCounts(url: string, cbs: Callbacks, p: Payload, t: TransportOutcome, order: Scheduling)
    ensures var tr := Submit(url, cbs, p, t, order).trace;
      && multiset(tr)[BeforeSend(Some(p))] == (if cbs.beforeSend then 1 else 0)
      && multiset(tr)[BeforeSend(None)] == (if cbs.beforeSend then 1 else 0)
      && multiset(tr)[Sent(Request(url, "POST", p))] == 1
      && multiset(tr)[AfterSend] == (if cbs.afterSend then 1 else 0)
  {
    TraceCounts(Submit(url, cbs, p, t, order).trace, url, cbs, p, t);
  }

  lemma TraceCounts(tr: seq<Event>, url: string, cbs: Callbacks, p: Payload, t: TransportOutcome)
    requires SubmissionTrace(tr, url, cbs, p, t)
    ensures && multiset(tr)[BeforeSend(Some(p))] == (if cbs.beforeSend then 1 else 0)
            && multiset(tr)[BeforeSend(None)] == (if cbs.beforeSend then 1 else 0)
            && multiset(tr)[Sent(Request(url, "POST", p))] == 1
            && multiset(tr)[AfterSend] == (if cbs.afterSend then 1 else 0)
  {
    var k := if cbs.beforeSend then 2 else 0;
    var pre, post := tr[..k + 1], tr[k + 1..];
    assert tr == pre + post;
    assert multiset(tr) == multiset(pre) + multiset(post);
    NoPreSendEventAfterSend(post, cbs, t);
  }

  /**
   * Over a whole submission, of `onSuccess` and `onError` only the hook that
   * matches the transport outcome can fire, with the outcome's arguments,
   * and it fires exactly when it is present.
   */
  lemma SubmitFiresMatchingHandler(url: string, cbs: Callbacks, p: Payload, t: TransportOutcome, order: Scheduling)
    ensures var tr := Submit(url, cbs, p, t, order).trace;
      && (forall i :: 0 <= i < |tr| && (tr[i].OnSuccess? || tr[i].OnError?) ==> HandlerMatches(tr[i], cbs, t))
      && ((exists i :: 0 <= i < |tr| && (tr[i].OnSuccess? || tr[i].OnError?)) <==>
            (if t.Succeeded? then cbs.onSuccess else cbs.onError))
  {
    TraceHandlers(Submit(url, cbs, p, t, order).trace, url, cbs, p, t);
  }

  lemma TraceHandlers(tr: seq<Event>, url: string, cbs: Callbacks, p: Payload, t: TransportOutcome)
    requires SubmissionTrace(tr, url, cbs, p, t)
    ensures forall i :: 0 <= i < |tr| && (tr[i].OnSuccess? || tr[i].OnError?) ==> HandlerMatches(tr[i], cbs, t)
    ensures (exists i :: 0 <= i < |tr| && (tr[i].OnSuccess? || tr[i].OnError?)) <==>
            (if t.Succeeded? then cbs.onSuccess else cbs.onError)
  {
    var k := if cbs.beforeSend then 2 else 0;
    var post := tr[k + 1..];
    forall i | 0 <= i < |tr| && (tr[i].OnSuccess? || tr[i].OnError?) ensures HandlerMatches(tr[i], cbs, t) {
      if i > k {
        assert tr[i] == post[i - k - 1];
      }
    }
    if (if t.Succeeded? then cbs.onSuccess else cbs.onError) {
      if |post| == 2 {
        assert post == [post[0]] + [post[1]];
        assert multiset(post) == multiset{post[0]} + multiset{post[1]};
      } else {
        assert post == [post[0]];
      }
      var n := if post[|post| - 1] == AfterSend then 0 else |post| - 1;
      assert post[n] != AfterSend;
      assert tr[k + 1 + n] == post[n];
    }
  }

  lemma NoPreSendEventAfterSend(post: seq<Event>, cbs: Callbacks, t: TransportOutcome)
    requires CompletionEvents(post, cbs, t)
    ensures forall e: Event :: e.BeforeSend? || e.Sent? ==> multiset(post)[e] == 0
  {
    forall e: Event | e.BeforeSend? || e.Sent? ensures multiset(post)[e] == 0 {
      assert e !in post;
    }
  }

  /**
   * The scheduling of `complete` against the `.then` handlers changes only
   * the order of the events after the send, never which events occur or
   * how the promise settles.
   */
  lemma SchedulingOnlyReorders(url: string, cbs: Callbacks, p: Payload, t: TransportOutcome)
    ensures var a := Submit(url, cbs, p, t, CompleteFirst); var b := Submit(url, cbs, p, t, ThenFirst);
      && a.settlement == b.settlement
      && |a.trace| == |b.trace|
      && a.trace[..if cbs.beforeSend then 3 else 1] == b.trace[..if cbs.beforeSend then 3 else 1]
      && multiset(a.trace) == multiset(b.trace)
  {
    var a := PostSend(cbs, t, CompleteFirst);
    var b := PostSend(cbs, t, ThenFirst);
    assert multiset(a) == multiset(b);
  }
}
