/**
 * `sanitize_task_response` and `sanitize_tasklist_response`: projections of a
 * backend record (a JSON object, here a map from field names to values) onto
 * the public field set.
 */
module Sanitize {
  import opened Wrappers

  /** A JSON value as the API client decodes it. */
  datatype Json =
    | Null
    | Bool(b: bool)
    | Number(n: int)
    | Str(s: string)
    | Array(items: seq<Json>)
    | Object(fields: map<string, Json>)

  /** A decoded JSON object: a Python `dict`. */
  type Record = map<string, Json>

  /** `_TASK_FIELDS`. */
  const TaskFields: set<string> := {"id", "title", "notes", "due", "status", "parent", "updated", "completed"}

  /** The derived flag the sanitizer adds. */
  const SubtaskFlag: string := "is_subtask"

  /** `sanitize_task_response`. */
  function SanitizeTask(task: Record): (r: Record)
    ensures r.Keys == (task.Keys * TaskFields) + {SubtaskFlag}
    ensures forall k | k in r && k != SubtaskFlag :: r[k] == task[k]
    ensures r[SubtaskFlag] == Bool("parent" in task)
  {
    (map k | k in TaskFields && k in task :: task[k])[SubtaskFlag := Bool("parent" in task)]
  }

  /** Sanitizing a sanitized task changes nothing. */
  lemma SanitizeTaskIdempotent(task: Record)
    ensures SanitizeTask(SanitizeTask(task)) == SanitizeTask(task)
  {
    var once := SanitizeTask(task);
    var twice := SanitizeTask(once);
    assert twice.Keys == once.Keys;
  }

  /** Two records that agree on the public fields sanitize alike: nothing else is looked at. */
  lemma SanitizeTaskDependsOnlyOnTaskFields(a: Record, b: Record)
    requires forall k | k in TaskFields :: (k in a <==> k in b) && (k in a ==> a[k] == b[k])
    ensures SanitizeTask(a) == SanitizeTask(b)
  {
    assert "parent" in TaskFields;
    assert SanitizeTask(a).Keys == SanitizeTask(b).Keys;
  }

  predicate HasIdAndTitle(tasklist: Record) {
    "id" in tasklist && "title" in tasklist
  }

  /**
   * `sanitize_tasklist_response`. Both keys are indexed directly; a record
   * without them raises `KeyError` (see `SanitizeTasklists`).
   */
  function SanitizeTasklist(tasklist: Record): (r: Record)
    requires HasIdAndTitle(tasklist)
    ensures r.Keys == {"id", "title"}
    ensures r["id"] == tasklist["id"] && r["title"] == tasklist["title"]
  {
    map["id" := tasklist["id"], "title" := tasklist["title"]]
  }

  lemma SanitizeTasklistIdempotent(tasklist: Record)
    requires HasIdAndTitle(tasklist)
    ensures SanitizeTasklist(SanitizeTasklist(tasklist)) == SanitizeTasklist(tasklist)
  {
  }

  /**
   * The list comprehension of `get_lists`: every list in order, or `None`
   * when some list lacks `id` or `title` and the comprehension raises.
   */
  function SanitizeTasklists(items: seq<Record>): (r: Option<seq<Record>>)
    ensures r.Some? <==> forall i | 0 <= i < |items| :: HasIdAndTitle(items[i])
    ensures r.Some? ==> |r.value| == |items|
    ensures r.Some? ==> forall i | 0 <= i < |items| :: HasIdAndTitle(items[i]) && r.value[i] == SanitizeTasklist(items[i])
  {
    if items == [] then Some([])
    else if !HasIdAndTitle(items[0]) then None
    else match SanitizeTasklists(items[1..])
      case None => None
      case Some(rest) => Some([SanitizeTasklist(items[0])] + rest)
  }

  /** The list comprehension of `list_tasks`: every task in order, sanitized. */
  function SanitizeTasks(items: seq<Record>): (r: seq<Record>)
    ensures |r| == |items|
    ensures forall i | 0 <= i < |items| :: r[i] == SanitizeTask(items[i])
  {
    seq(|items|, i requires 0 <= i < |items| => SanitizeTask(items[i]))
  }
}
