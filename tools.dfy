/**
 * The five tools: `get_lists`, `create_task`, `list_tasks`, `complete_task`
 * and `add_link`.
 *
 * Each tool validates its inputs, asks the `ServiceCache` for the service,
 * makes its backend calls and sanitizes the answer; anything raised on the way
 * goes through the `except` chain (`Classify`). The answers of the backend
 * calls are parameters (`Reply`), and each tool also returns the request or
 * record it would send, `None` when it sends nothing, and the side effects
 * its request for the service started (`NoEffects` when it never asked).
 */
module Tools {
  import opened Wrappers
  import opened Errors
  import opened Text
  import opened Validators
  import opened Sanitize
  import opened Auth

  /** What one `.execute()` gives back or raises. */
  datatype Reply<T> = Answer(value: T) | HttpFailure(status: int) | OtherFailure

  /** The `except` chain applied to a failed backend call. */
  function Failed<T>(reply: Reply<T>): (e: Error)
    requires !reply.Answer?
    ensures reply.HttpFailure? ==> e == HandleApiError(reply.status)
    ensures reply.OtherFailure? ==> e == Base
    ensures e != Validation
  {
    Classify(if reply.HttpFailure? then Http(reply.status) else Other)
  }

  /** A tool's last step: sanitize the returned task, or classify the failure. */
  function Settle(reply: Reply<Record>): (r: Result<Record, Error>)
    ensures r.Ok? <==> reply.Answer?
    ensures r.Ok? ==> r.value == SanitizeTask(reply.value) && SubtaskFlag in r.value.Keys
    ensures r.Err? ==> r.error == Failed(reply) && r.error != Validation
  {
    if reply.Answer? then Ok(SanitizeTask(reply.value)) else Err(Failed(reply))
  }

  /** `results.get("items", [])`, where `None` stands for a missing key. */
  function ItemsOf(items: Option<seq<Record>>): (r: seq<Record>)
    ensures items.None? ==> r == []
    ensures items.Some? ==> r == items.value
  {
    if items.Some? then items.value else []
  }

  /** The cache slot after a call that asked for the service once. */
  ghost predicate CacheAfter(before: Option<Service>, env: Environment, after: Option<Service>) {
    var svc := ServiceFor(before, env);
    after == if svc.Ok? then Some(svc.value) else before
  }

  // ------------------------------------------------------------- get_lists

  /** `get_lists`. */
  method GetLists(auth: ServiceCache, env: Environment, reply: Reply<Option<seq<Record>>>)
    returns (r: Result<seq<Record>, Error>, effects: Effects)
    modifies auth
    ensures CacheAfter(old(auth.cache), env, auth.cache) && effects == EffectsFor(old(auth.cache), env)
    ensures var svc := ServiceFor(old(auth.cache), env);
      && (svc.Err? ==> r == Err(svc.error))
      && (svc.Ok? && !reply.Answer? ==> r == Err(Failed(reply)))
      && (svc.Ok? && reply.Answer? ==>
            var lists := SanitizeTasklists(ItemsOf(reply.value));
            r == if lists.Some? then Ok(lists.value) else Err(Classify(Other)))
  {
    var svc, acquired := auth.GetAuthenticatedService(env);
    effects := acquired;
    if svc.Err? {
      return Err(Classify(Raise(svc.error))), effects;
    }
    if !reply.Answer? {
      return Err(Failed(reply)), effects;
    }
    var lists := SanitizeTasklists(ItemsOf(reply.value));
    if lists.None? {
      // a list without `id` or `title` raises KeyError
      return Err(Classify(Other)), effects;
    }
    r := Ok(lists.value);
  }

  // ----------------------------------------------------------- create_task

  const MaxTitleLength := 1024

  /** The time of day `create_task` appends to a due date: midnight UTC. */
  const DueTimeSuffix := "T00:00:00.000Z"

  /** The keyword arguments of `tasks().insert`. */
  datatype InsertRequest = InsertRequest(tasklist: string, body: Record, parent: Option<string>)

  /** The inputs `create_task` accepts before it calls anything. */
  ghost predicate CreateInputsValid(title: string, dueDate: Option<string>) {
    && !IsBlank(title)
    && |title| <= MaxTitleLength
    && (dueDate.Some? ==> IsDateLiteral(dueDate.value))
  }

  /** The request body of `create_task`. */
  ghost predicate IsCreateBody(title: string, notes: Option<string>, dueDate: Option<string>, body: Record) {
    && body.Keys == {"title"} + (if notes.Some? then {"notes"} else {}) + (if dueDate.Some? then {"due"} else {})
    && body["title"] == Str(Strip(title))
    && (notes.Some? ==> body["notes"] == Str(notes.value))
    && (dueDate.Some? ==> body["due"] == Str(dueDate.value + DueTimeSuffix))
  }

  /**
   * The validation and request construction of `create_task`: a title that is
   * empty or blank, or longer than 1024 characters before stripping, or a due
   * date that is not a real `YYYY-MM-DD` date, raises `ValidationError`.
   */
  method BuildInsertRequest(title: string, tasklistId: string, notes: Option<string>,
                            dueDate: Option<string>, parent: Option<string>)
    returns (r: Result<InsertRequest, Error>)
    ensures r.Err? <==> !CreateInputsValid(title, dueDate)
    ensures r.Err? ==> r.error == Validation
    ensures r.Ok? ==> r.value.tasklist == tasklistId && r.value.parent == parent
    ensures r.Ok? ==> IsCreateBody(title, notes, dueDate, r.value.body)
  {
    StripEmptyIffBlank(title);
    var stripped := Strip(title);
    if title == [] || stripped == [] {
      return Err(Validation);
    }
    if |title| > MaxTitleLength {
      return Err(Validation);
    }
    if dueDate.Some? {
      ValidateDateIff(dueDate.value);
      var checked := ValidateDateFormat(dueDate.value);
      if checked.Fail? {
        return Err(checked.error);
      }
    }
    assert CreateInputsValid(title, dueDate);

    var body: Record := map["title" := Str(stripped)];
    if notes.Some? {
      body := body["notes" := Str(notes.value)];
    }
    assert body.Keys == {"title"} + (if notes.Some? then {"notes"} else {});
    if dueDate.Some? {
      body := body["due" := Str(dueDate.value + DueTimeSuffix)];
    }
    r := Ok(InsertRequest(tasklistId, body, parent));
  }

  /** `create_task`. */
  method CreateTask(auth: ServiceCache, env: Environment, reply: Reply<Record>,
                    title: string, tasklistId: string, notes: Option<string>,
                    dueDate: Option<string>, parent: Option<string>)
    returns (r: Result<Record, Error>, request: Option<InsertRequest>, effects: Effects)
    modifies auth
    ensures !CreateInputsValid(title, dueDate) ==>
      r == Err(Validation) && request == None && effects == NoEffects && auth.cache == old(auth.cache)
    ensures CreateInputsValid(title, dueDate) ==>
      CacheAfter(old(auth.cache), env, auth.cache) && effects == EffectsFor(old(auth.cache), env)
    ensures CreateInputsValid(title, dueDate) ==>
      var svc := ServiceFor(old(auth.cache), env);
      && (svc.Err? ==> r == Err(svc.error) && request == None)
      && (svc.Ok? ==> r == Settle(reply) && request.Some?)
      && (svc.Ok? ==> request.value.tasklist == tasklistId && request.value.parent == parent)
      && (svc.Ok? ==> IsCreateBody(title, notes, dueDate, request.value.body))
  {
    var built := BuildInsertRequest(title, tasklistId, notes, dueDate, parent);
    if built.Err? {
      return Err(built.error), None, NoEffects;
    }
    var svc, acquired := auth.GetAuthenticatedService(env);
    effects := acquired;
    if svc.Err? {
      return Err(Classify(Raise(svc.error))), None, effects;
    }
    request := Some(built.value);
    r := Settle(reply);
  }

  // ------------------------------------------------------------ list_tasks

  const MaxResultsCap := 100

  /** `m` is `n` clamped into [1, 100]. */
  predicate IsClampOf(n: int, m: int) {
    && 1 <= m <= MaxResultsCap
    && (1 <= n <= MaxResultsCap ==> m == n)
    && (n < 1 ==> m == 1)
    && (n > MaxResultsCap ==> m == MaxResultsCap)
  }

  /** The two reassignments of `max_results` in `list_tasks`. */
  method ClampMaxResults(maxResults: int) returns (clamped: int)
    ensures IsClampOf(maxResults, clamped)
  {
    clamped := maxResults;
    if clamped < 1 {
      clamped := 1;
    }
    if clamped > MaxResultsCap {
      clamped := MaxResultsCap;
    }
  }

  /** The clamp is a function of its input: 0 gives 1, 500 gives 100, 50 stays. */
  lemma ClampExamples(m0: int, m500: int, m50: int)
    requires IsClampOf(0, m0) && IsClampOf(500, m500) && IsClampOf(50, m50)
    ensures m0 == 1 && m500 == 100 && m50 == 50
  {
  }

  /** The keyword arguments of `tasks().list`. */
  datatype ListRequest = ListRequest(tasklist: string, showCompleted: bool, showHidden: bool, maxResults: int)

  /** `list_tasks`. */
  method ListTasks(auth: ServiceCache, env: Environment, reply: Reply<Option<seq<Record>>>,
                   tasklistId: string, showCompleted: bool, showHidden: bool, maxResults: int)
    returns (r: Result<seq<Record>, Error>, request: Option<ListRequest>, effects: Effects)
    modifies auth
    ensures CacheAfter(old(auth.cache), env, auth.cache) && effects == EffectsFor(old(auth.cache), env)
    ensures var svc := ServiceFor(old(auth.cache), env);
      && (svc.Err? ==> r == Err(svc.error) && request == None)
      && (svc.Ok? ==> request.Some? && IsClampOf(maxResults, request.value.maxResults))
      && (svc.Ok? ==> request.value.tasklist == tasklistId)
      && (svc.Ok? ==> request.value.showCompleted == showCompleted && request.value.showHidden == showHidden)
      && (svc.Ok? && !reply.Answer? ==> r == Err(Failed(reply)))
      && (svc.Ok? && reply.Answer? ==> r == Ok(SanitizeTasks(ItemsOf(reply.value))))
  {
    var clamped := ClampMaxResults(maxResults);
    var svc, acquired := auth.GetAuthenticatedService(env);
    effects := acquired;
    if svc.Err? {
      return Err(Classify(Raise(svc.error))), None, effects;
    }
    request := Some(ListRequest(tasklistId, showCompleted, showHidden, clamped));
    if !reply.Answer? {
      return Err(Failed(reply)), request, effects;
    }
    r := Ok(SanitizeTasks(ItemsOf(reply.value)));
  }

  // --------------------------------------------------------- complete_task

  /**
   * The rewrite `complete_task` makes to the fetched task: status and
   * completion timestamp set, or status reset and the timestamp removed;
   * every other field as it was.
   */
  ghost predicate IsCompletionRewrite(current: Record, completed: bool, now: string, updated: Record) {
    && updated - {"status", "completed"} == current - {"status", "completed"}
    && "status" in updated
    && updated["status"] == Str(if completed then "completed" else "needsAction")
    && (completed ==> "completed" in updated && updated["completed"] == Str(now))
    && (!completed ==> "completed" !in updated)
  }

  /** The in-place updates of `current` in `complete_task`; `now` is the formatted clock. */
  method MarkCompletion(current: Record, completed: bool, now: string) returns (updated: Record)
    ensures IsCompletionRewrite(current, completed, now, updated)
  {
    updated := current;
    if completed {
      updated := updated["status" := Str("completed")];
      updated := updated["completed" := Str(now)];
    } else {
      updated := updated["status" := Str("needsAction")];
      updated := updated - {"completed"};
    }
  }

  /** The rewrite leaves nothing open: one input gives one record. */
  lemma CompletionRewriteUnique(current: Record, completed: bool, now: string, u: Record, v: Record)
    requires IsCompletionRewrite(current, completed, now, u)
    requires IsCompletionRewrite(current, completed, now, v)
    ensures u == v
  {
    SameKeysOutsideRewrite(u, v);
    forall k | k in u
      ensures u[k] == v[k]
    {
      if k != "status" && k != "completed" {
        assert (u - {"status", "completed"})[k] == (v - {"status", "completed"})[k];
      }
    }
  }

  /** Completing an open task and then reopening it gives back the task. */
  lemma CompleteThenReopen(current: Record, now: string, later: string, done: Record, reopened: Record)
    requires "status" in current && current["status"] == Str("needsAction") && "completed" !in current
    requires IsCompletionRewrite(current, true, now, done)
    requires IsCompletionRewrite(done, false, later, reopened)
    ensures reopened == current
  {
    SameKeysOutsideRewrite(reopened, current);
    forall k | k in current
      ensures reopened[k] == current[k]
    {
      if k != "status" && k != "completed" {
        assert (reopened - {"status", "completed"})[k] == (current - {"status", "completed"})[k];
      }
    }
  }

  /** Two records with the same fields apart from the two rewritten ones, and the same of those. */
  lemma SameKeysOutsideRewrite(a: Record, b: Record)
    requires a - {"status", "completed"} == b - {"status", "completed"}
    requires ("status" in a <==> "status" in b) && ("completed" in a <==> "completed" in b)
    ensures a.Keys == b.Keys
  {
    var rewritten := {"status", "completed"};
    forall k | k in a
      ensures k in b
    {
      if k !in rewritten {
        assert k in a - rewritten;
      }
    }
    forall k | k in b
      ensures k in a
    {
      if k !in rewritten {
        assert k in b - rewritten;
      }
    }
  }

  /** `complete_task`. */
  method CompleteTask(auth: ServiceCache, env: Environment, fetched: Reply<Record>, updated: Reply<Record>,
                      tasklistId: string, taskId: string, completed: bool, now: string)
    returns (r: Result<Record, Error>, sent: Option<Record>, effects: Effects)
    modifies auth
    ensures CacheAfter(old(auth.cache), env, auth.cache) && effects == EffectsFor(old(auth.cache), env)
    ensures var svc := ServiceFor(old(auth.cache), env);
      && (svc.Err? ==> r == Err(svc.error) && sent == None)
      && (svc.Ok? && !fetched.Answer? ==> r == Err(Failed(fetched)) && sent == None)
      && (svc.Ok? && fetched.Answer? ==>
            && sent.Some?
            && IsCompletionRewrite(fetched.value, completed, now, sent.value)
            && r == Settle(updated))
  {
    var svc, acquired := auth.GetAuthenticatedService(env);
    effects := acquired;
    if svc.Err? {
      return Err(Classify(Raise(svc.error))), None, effects;
    }
    if !fetched.Answer? {
      return Err(Failed(fetched)), None, effects;
    }
    var current := MarkCompletion(fetched.value, completed, now);
    sent := Some(current);
    r := Settle(updated);
  }

  // -------------------------------------------------------------- add_link

  const LinksHeading := "Links:"

  /** `label if label else url`: an absent or empty label falls back to the URL. */
  function LinkLabel(url: string, givenLabel: Option<string>): (l: string)
    ensures l == url <==> givenLabel.None? || givenLabel.value == [] || givenLabel.value == url
    ensures givenLabel.Some? && givenLabel.value != [] ==> l == givenLabel.value
  {
    if givenLabel.Some? && givenLabel.value != [] then givenLabel.value else url
  }

  /** The Markdown bullet for one link. */
  function LinkEntry(url: string, givenLabel: Option<string>): (e: string)
    ensures var l := LinkLabel(url, givenLabel);
      && |e| == |l| + |url| + 6
      && e[..3] == "- [" && e[3..3 + |l|] == l
      && e[3 + |l|..3 + |l| + 2] == "](" && e[|e| - |url| - 1..|e| - 1] == url && e[|e| - 1] == ')'
  {
    var l := LinkLabel(url, givenLabel);
    var e := "- [" + l + "](" + url + ")";
    assert |e| == |l| + |url| + 6;
    assert e[..3] == "- [";
    assert e[3..3 + |l|] == l;
    assert e[3 + |l|..3 + |l| + 2] == "](";
    assert e[|e| - |url| - 1..|e| - 1] == url;
    e
  }

  /**
   * The new notes of `add_link`: the entry on a new line when the notes
   * already hold a `Links:` heading; otherwise, after a blank line when the
   * notes are not empty, a new heading and the entry.
   */
  function AppendLink(notes: string, entry: string): (r: string)
    ensures Contains(notes, LinksHeading) ==> r == notes + "\n" + entry
    ensures !Contains(notes, LinksHeading) ==>
      r == notes + (if notes == [] then "" else "\n\n") + LinksHeading + "\n" + entry
    ensures |notes| <= |r| && r[..|notes|] == notes
    ensures |entry| < |r| && r[|r| - |entry|..] == entry && r[|r| - |entry| - 1] == '\n'
    ensures Contains(r, LinksHeading)
  {
    if Contains(notes, LinksHeading) then
      ContainsExtend(notes, LinksHeading, "\n" + entry);
      assert notes + "\n" + entry == notes + ("\n" + entry);
      notes + "\n" + entry
    else
      var separator := if notes == [] then "" else "\n\n";
      var head := notes + separator + LinksHeading;
      ContainsSuffix(notes + separator, LinksHeading);
      ContainsExtend(head, LinksHeading, "\n" + entry);
      assert head + "\n" + entry == head + ("\n" + entry);
      head + "\n" + entry
  }

  /** The heading is created once: a second link goes on the next line. */
  lemma AppendLinkTwice(notes: string, first: string, second: string)
    ensures AppendLink(AppendLink(notes, first), second) == AppendLink(notes, first) + "\n" + second
  {
  }

  /** Empty notes get the heading and the entry, with no blank line before them. */
  lemma AppendLinkToEmpty(entry: string)
    ensures AppendLink("", entry) == LinksHeading + "\n" + entry
  {
    assert !Contains("", LinksHeading);
    assert "" + "" + LinksHeading == LinksHeading;
  }

  /** The entries of the two-link scenario: without a label, and with label `Y`. */
  lemma LinkEntryExamples()
    ensures LinkEntry("http://x", None) == "- [http://x](http://x)"
    ensures LinkEntry("http://x", Some("")) == "- [http://x](http://x)"
    ensures LinkEntry("http://y", Some("Y")) == "- [Y](http://y)"
  {
    assert LinkLabel("http://x", None) == "http://x";
    assert LinkLabel("http://x", Some("")) == "http://x";
    assert LinkLabel("http://y", Some("Y")) == "Y";
  }

  /** The first link added to empty notes creates the heading. */
  lemma FirstLinkExample()
    ensures AppendLink("", "- [http://x](http://x)") == "Links:\n- [http://x](http://x)"
  {
    AppendLinkToEmpty("- [http://x](http://x)");
  }

  /** The second link goes under the existing heading. */
  lemma SecondLinkExample()
    ensures AppendLink("Links:\n- [http://x](http://x)", "- [Y](http://y)")
         == "Links:\n- [http://x](http://x)\n- [Y](http://y)"
  {
    var notes := "Links:\n- [http://x](http://x)";
    assert OccursAt(notes, LinksHeading, 0);
  }

  /**
   * `current.get("notes", "")` as the string operations after it see it:
   * missing notes are `""`; a value that is not a string makes them raise.
   */
  function NotesOf(current: Record): (n: Option<string>)
    ensures "notes" !in current ==> n == Some("")
    ensures n.None? <==> "notes" in current && !current["notes"].Str?
    ensures n.Some? && "notes" in current ==> current["notes"] == Str(n.value)
  {
    if "notes" !in current then Some("")
    else if current["notes"].Str? then Some(current["notes"].s)
    else None
  }

  /** `add_link`. */
  method AddLink(auth: ServiceCache, env: Environment, fetched: Reply<Record>, updated: Reply<Record>,
                 tasklistId: string, taskId: string, url: string, givenLabel: Option<string>)
    returns (r: Result<Record, Error>, sent: Option<Record>, effects: Effects)
    modifies auth
    ensures !IsHttpUrl(url) ==>
      r == Err(Validation) && sent == None && effects == NoEffects && auth.cache == old(auth.cache)
    ensures IsHttpUrl(url) ==>
      CacheAfter(old(auth.cache), env, auth.cache) && effects == EffectsFor(old(auth.cache), env)
    ensures IsHttpUrl(url) ==>
      var svc := ServiceFor(old(auth.cache), env);
      && (svc.Err? ==> r == Err(svc.error) && sent == None)
      && (svc.Ok? && !fetched.Answer? ==> r == Err(Failed(fetched)) && sent == None)
      && (svc.Ok? && fetched.Answer? && NotesOf(fetched.value).None? ==> r == Err(Base) && sent == None)
      && (svc.Ok? && fetched.Answer? && NotesOf(fetched.value).Some? ==>
            && sent == Some(fetched.value["notes" := Str(AppendLink(NotesOf(fetched.value).value, LinkEntry(url, givenLabel)))])
            && r == Settle(updated))
  {
    ValidateUrlIff(url);
    var checked := ValidateUrlFormat(url);
    if checked.Fail? {
      return Err(checked.error), None, NoEffects;
    }
    var entry := LinkEntry(url, givenLabel);

    var svc, acquired := auth.GetAuthenticatedService(env);
    effects := acquired;
    if svc.Err? {
      return Err(Classify(Raise(svc.error))), None, effects;
    }
    if !fetched.Answer? {
      return Err(Failed(fetched)), None, effects;
    }
    var current := fetched.value;
    var notes := NotesOf(current);
    if notes.None? {
      // `"Links:" in notes` raises TypeError for a non-string value
      return Err(Classify(Other)), None, effects;
    }
    current := current["notes" := Str(AppendLink(notes.value, entry))];
    sent := Some(current);
    r := Settle(updated);
  }
}
