/** The task list reducers of client/src/components/TaskManager.tsx: adding a task from the
    form, changing a status, the search-and-status filter and the per-status counts. */
module TaskManager {
  import opened Seqs
  import opened Text

  /** The four statuses the `Task` interface admits. */
  datatype Status = Todo | InProgress | Review | Completed

  datatype Priority = Low | Medium | High

  /** `dueDate` is kept as the form's text; turning it into a `Date` is not modelled. */
  datatype Task = Task(
    id: string,
    title: string,
    description: string,
    status: Status,
    priority: Priority,
    assignee: string,
    dueDate: string,
    createdAt: int,
    tags: seq<string>)

  datatype Form = Form(title: string, description: string, priority: Priority, assignee: string, dueDate: string, tags: string)

  const EmptyForm := Form("", "", Medium, "", "", "")

  /** `tags.split(",").map(tag => tag.trim()).filter(Boolean)`. */
  function ParseTags(tags: string): (r: seq<string>)
    ensures forall t :: t in r ==> t != [] && ',' !in t && !IsSpace(t[0]) && !IsSpace(t[|t| - 1])
  {
    var trimmed := Map(Split(tags, ','), Trim);
    TrimmedPieces(Split(tags, ','));
    NonEmpty(trimmed)
  }

  /** Trimmed pieces keep no separator and no white space at their ends. */
  lemma TrimmedPieces(pieces: seq<string>)
    requires forall p :: p in pieces ==> ',' !in p
    ensures forall t :: t in Map(pieces, Trim) ==> ',' !in t && (t != [] ==> !IsSpace(t[0]) && !IsSpace(t[|t| - 1]))
  {
    var trimmed := Map(pieces, Trim);
    forall t | t in trimmed ensures ',' !in t && (t != [] ==> !IsSpace(t[0]) && !IsSpace(t[|t| - 1])) {
      var i :| 0 <= i < |trimmed| && trimmed[i] == t;
      assert pieces[i] in pieces;
      TrimWithin(pieces[i]);
    }
  }

  /** Tags are read piece by piece, in order: the tags of `a,b` are those of `a` then those of `b`. */
  lemma ParseTagsConcat(a: string, b: string)
    ensures ParseTags(a + [','] + b) == ParseTags(a) + ParseTags(b)
  {
    SplitConcat(a, b, ',');
    var pa, pb := Split(a, ','), Split(b, ',');
    assert Map(pa + pb, Trim) == Map(pa, Trim) + Map(pb, Trim);
    NonEmptyConcat(Map(pa, Trim), Map(pb, Trim));
  }

  /** A comma-free entry is a single tag, trimmed, unless it is blank. */
  lemma ParseTagsSingle(s: string)
    requires ',' !in s
    ensures BlankBetween(s, 0, |s|) ==> ParseTags(s) == []
    ensures !BlankBetween(s, 0, |s|) ==> ParseTags(s) == [Trim(s)]
  {
    SplitWithoutSep(s, ',');
    var t := Trim(s);
    assert Map(Split(s, ','), Trim) == [t];
    assert NonEmpty([t]) == if t == [] then [] else [t] by {
      assert [t][1..] == [];
    }
  }

  datatype Added = Added(tasks: seq<Task>, form: Form, showForm: bool)

  /** `handleAddTask` (TaskManager.tsx:103-131): nothing happens unless the trimmed title is
      non-empty; otherwise a "todo" task is put first, with the title as typed, and the form
      is reset and closed. `id` stands for `Date.now().toString()`. */
  function AddTask(tasks: seq<Task>, form: Form, showForm: bool, id: string, now: int): (r: Added)
    ensures BlankBetween(form.title, 0, |form.title|) ==> r == Added(tasks, form, showForm)
    ensures !BlankBetween(form.title, 0, |form.title|) ==>
              && |r.tasks| == |tasks| + 1
              && r.tasks[1..] == tasks
              && r.tasks[0] == Task(id, form.title, form.description, Todo, form.priority, form.assignee,
                                    form.dueDate, now, ParseTags(form.tags))
              && r.form == EmptyForm && !r.showForm
  {
    if Trim(form.title) != [] then
      var task := Task(id, form.title, form.description, Todo, form.priority, form.assignee,
                       form.dueDate, now, ParseTags(form.tags));
      Added([task] + tasks, EmptyForm, false)
    else Added(tasks, form, showForm)
  }

  /** `handleStatusChange(taskId, newStatus)` (TaskManager.tsx:134-140). */
  function StatusChange(tasks: seq<Task>, taskId: string, status: Status): (r: seq<Task>)
    ensures |r| == |tasks|
    ensures forall i :: 0 <= i < |tasks| && tasks[i].id == taskId ==> r[i] == tasks[i].(status := status)
    ensures forall i :: 0 <= i < |tasks| && tasks[i].id != taskId ==> r[i] == tasks[i]
  {
    Map(tasks, (t: Task) => if t.id == taskId then t.(status := status) else t)
  }

  /** Setting the same status twice is setting it once, and every task with the id then has it. */
  lemma StatusChangeIdempotent(tasks: seq<Task>, taskId: string, status: Status)
    ensures StatusChange(StatusChange(tasks, taskId, status), taskId, status) == StatusChange(tasks, taskId, status)
    ensures forall t :: t in StatusChange(tasks, taskId, status) && t.id == taskId ==> t.status == status
  {
    var once := StatusChange(tasks, taskId, status);
    var twice := StatusChange(once, taskId, status);
    assert forall i :: 0 <= i < |tasks| ==> twice[i] == once[i];
  }

  /** The checkbox (TaskManager.tsx:387-390): a completed task goes back to "todo", any other
      is completed. */
  function Toggled(s: Status): (r: Status)
    ensures r == Completed <==> s != Completed
    ensures r != Completed ==> r == Todo
  {
    if s == Completed then Todo else Completed
  }

  /** Two clicks restore "todo" and "completed", but an in-progress or review task comes back as "todo". */
  lemma ToggleTwice(s: Status)
    ensures Toggled(Toggled(s)) == s <==> s == Todo || s == Completed
    ensures Toggled(Toggled(s)) != s ==> Toggled(Toggled(s)) == Todo
  {
  }

  /** The status filter's value: "all" or one status. */
  datatype StatusFilter = All | Only(status: Status)

  /** The status matches, and the search text occurs in the title, description or assignee,
      ignoring case. */
  predicate Shown(t: Task, filter: StatusFilter, query: string) {
    && (filter.All? || t.status == filter.status)
    && (Matches(t.title, query) || Matches(t.description, query) || Matches(t.assignee, query))
  }

  /** `filteredTasks` (TaskManager.tsx:142-150). */
  function FilteredTasks(tasks: seq<Task>, filter: StatusFilter, query: string): (r: seq<Task>)
    ensures |r| <= |tasks|
    ensures forall t :: t in r <==> t in tasks && Shown(t, filter, query)
  {
    Filter(tasks, (t: Task) => Shown(t, filter, query))
  }

  /** The filter keeps the list's order, and with "all" and an empty search it keeps every task. */
  lemma FilteredTasksOrder(a: seq<Task>, b: seq<Task>, filter: StatusFilter, query: string)
    ensures FilteredTasks(a + b, filter, query) == FilteredTasks(a, filter, query) + FilteredTasks(b, filter, query)
    ensures FilteredTasks(a, All, "") == a
  {
    FilterConcat(a, b, (t: Task) => Shown(t, filter, query));
    forall t | t in a ensures Shown(t, All, "") {
      ContainsEmpty(Lower(t.title));
    }
    FilterKeepsAll(a, (t: Task) => Shown(t, All, ""));
  }

  /** `getStatusCount(status)` (TaskManager.tsx:152-154). */
  function StatusCount(tasks: seq<Task>, status: Status): (n: nat)
    ensures n <= |tasks|
  {
    |Filter(tasks, (t: Task) => t.status == status)|
  }

  /** Every task has one of the four statuses, so the four counts add up to the list's length. */
  lemma {:induction false} StatusCountsSum(tasks: seq<Task>)
    ensures StatusCount(tasks, Todo) + StatusCount(tasks, InProgress) + StatusCount(tasks, Review)
            + StatusCount(tasks, Completed) == |tasks|
    decreases |tasks|
  {
    if tasks != [] {
      StatusCountsSum(tasks[1..]);
    }
  }
}
