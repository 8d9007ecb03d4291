/**
 * The study-task routes. A student creates tasks, lists their own tasks and
 * reads one of them, and asks the assistant for help on a task, which
 * records the exchange in that study task's conversation. A student can also mark a
 * task completed, which logs an activity, and delete a task.
 *
 * The `tasks` and `activities` collections are the fields of a `TaskStore`.
 * The assistant, the clock and the fresh database ids are parameters.
 */
module Tasks {
  import opened Common
  import opened Text
  import Sorting

  const Pending := "pending"
  const InProgress := "in-progress"
  const Done := "completed"
  /** `activities.find(...).limit(10)`: how many activities feed the assistant. */
  const HistoryLimit := 10

  /** A stored field that the routes read with `.get(key, default)`, so it may be missing. */
  datatype Field<T> = Missing | Present(value: T) {
    function Or(default: T): T {
      if Present? then value else default
    }
  }

  datatype Message = Message(role: string, content: string, timestamp: int)

  /** A create request. `difficulty` is "medium" when the client leaves it out, and `None` for an explicit null. */
  datatype TaskCreate = TaskCreate(kind: string, subject: string, title: string, description: string,
                                   difficulty: Option<string>)

  /** A stored task. `id` is the `_id` rendered as a string. */
  datatype Task = Task(
    id: string,
    studentId: string,
    kind: string,
    subject: string,
    title: string,
    description: string,
    difficulty: Field<Option<string>>,
    status: string,
    aiAssistanceUsed: Field<bool>,
    history: Field<seq<Message>>,
    feedback: Field<Option<string>>,
    completedAt: Field<Option<int>>,
    createdAt: int)

  datatype TaskResponse = TaskResponse(id: string, kind: string, subject: string, title: string, description: string,
                                       difficulty: Option<string>, status: string, aiAssistanceUsed: bool,
                                       createdAt: int)

  datatype TaskDetails = TaskDetails(taskId: string, taskType: string, subject: string, title: string)

  /**
   * A logged activity. Other routes log activities of other shapes, so
   * `details` is `None` for those; a missing `weak_areas` or `strong_areas`
   * list reads as empty.
   */
  datatype Activity = Activity(studentId: string, activityType: string, details: Option<TaskDetails>,
                               skillsGained: seq<string>, weakAreas: seq<string>, strongAreas: seq<string>,
                               timestamp: int)

  datatype StudyHistory = StudyHistory(weakAreas: seq<string>, strongAreas: seq<string>)

  /** What the route hands the assistant. */
  datatype AssistRequest = AssistRequest(taskDescription: string, branch: string, taskType: string,
                                         history: Option<StudyHistory>)

  datatype AssistReply = AssistReply(response: string, history: seq<Message>)

  // ---------------------------------------------------------------------
  // Identifiers and lookup

  /** `ObjectId(task_id)`: the id in the lower-case form the database stores, or `None` where it raises. */
  function ParseTaskId(taskId: string): (r: Option<string>)
    ensures r.Some? <==> IsObjectIdHex(taskId)
    ensures r.Some? ==> IsTokenHex12(r.value) && r.value == Lower(taskId)
  {
    if IsObjectIdHex(taskId) then
      assert forall i :: 0 <= i < |taskId| ==> IsDigit(Lower(taskId)[i]) || 'a' <= Lower(taskId)[i] <= 'f';
      Some(Lower(taskId))
    else None
  }

  predicate Owns(t: Task, id: string, student: string) {
    t.id == id && t.studentId == student
  }

  /** `find_one` on id and owner: where the first matching task sits. */
  function IndexOf(tasks: seq<Task>, id: string, student: string): (r: Option<nat>)
    ensures r.Some? ==> r.value < |tasks| && Owns(tasks[r.value], id, student)
    ensures r.None? <==> forall i :: 0 <= i < |tasks| ==> !Owns(tasks[i], id, student)
  {
    if tasks == [] then None
    else if Owns(tasks[0], id, student) then Some(0)
    else
      match IndexOf(tasks[1..], id, student)
      case None => None
      case Some(k) => Some(k + 1)
  }

  /** The prologue every handler on one task shares: 400 for a malformed id, 404 when the caller owns no such task. */
  function Lookup(tasks: seq<Task>, taskId: string, student: string): Result<nat, int> {
    match ParseTaskId(taskId)
    case None => Err(400)
    case Some(id) =>
      match IndexOf(tasks, id, student)
      case None => Err(404)
      case Some(i) => Ok(i)
  }

  /** Database ids are 24 lower-case hex digits and no two tasks share one. */
  predicate WellFormed(tasks: seq<Task>) {
    (forall i :: 0 <= i < |tasks| ==> IsTokenHex12(tasks[i].id)) &&
    (forall i, j :: 0 <= i < j < |tasks| ==> tasks[i].id != tasks[j].id)
  }

  predicate Fresh(tasks: seq<Task>, id: string) {
    forall i :: 0 <= i < |tasks| ==> tasks[i].id != id
  }

  lemma LookupFacts(tasks: seq<Task>, taskId: string, student: string)
    ensures Lookup(tasks, taskId, student) == Err(400) <==> !IsObjectIdHex(taskId)
    ensures Lookup(tasks, taskId, student) == Err(404) <==>
              IsObjectIdHex(taskId) && forall i :: 0 <= i < |tasks| ==> !Owns(tasks[i], Lower(taskId), student)
    ensures Lookup(tasks, taskId, student).Ok? ==>
              var i := Lookup(tasks, taskId, student).value;
              i < |tasks| && tasks[i].id == Lower(taskId) && tasks[i].studentId == student
  {
  }

  /** With unique ids, the study task a lookup finds is the only one with that id. */
  lemma LookupUnique(tasks: seq<Task>, taskId: string, student: string)
    requires WellFormed(tasks)
    requires Lookup(tasks, taskId, student).Ok?
    ensures forall j :: 0 <= j < |tasks| && tasks[j].id == Lower(taskId) ==> j == Lookup(tasks, taskId, student).value
  {
  }

  // ---------------------------------------------------------------------
  // Creating and listing

  /** The stored document of a new task. */
  function NewTask(data: TaskCreate, student: string, id: string, now: int): Task {
    Task(id, student, data.kind, data.subject, data.title, data.description, Present(data.difficulty),
         Pending, Present(false), Present([]), Present(None), Present(None), now)
  }

  /** A stored task as the list shows it, with the defaults for missing fields. */
  function Response(t: Task): TaskResponse {
    TaskResponse(t.id, t.kind, t.subject, t.title, t.description, t.difficulty.Or(Some("medium")),
                 t.status, t.aiAssistanceUsed.Or(false), t.createdAt)
  }

  /** `find({"student_id": ...})`: the student's tasks in collection order. */
  function OwnedBy(tasks: seq<Task>, student: string): (r: seq<Task>)
    ensures forall t :: t in r <==> t in tasks && t.studentId == student
  {
    if tasks == [] then []
    else
      var init := OwnedBy(tasks[..|tasks| - 1], student);
      var t := tasks[|tasks| - 1];
      assert forall u :: u in tasks <==> u in tasks[..|tasks| - 1] || u == t;
      if t.studentId == student then init + [t] else init
  }

  function CreatedAt(t: Task): int {
    t.createdAt
  }

  /** `.sort("created_at", -1)`; tasks created at the same instant keep collection order. */
  function NewestFirst(): (Task, Task) -> bool {
    Sorting.ByKeyDesc(CreatedAt)
  }

  function Listing(tasks: seq<Task>, student: string): seq<TaskResponse> {
    var sorted := Sorting.Sort(OwnedBy(tasks, student), NewestFirst());
    seq(|sorted|, i requires 0 <= i < |sorted| => Response(sorted[i]))
  }

  /** The list: exactly the caller's tasks, newest first, with "medium" and false for missing fields. */
  lemma ListingFacts(tasks: seq<Task>, student: string)
    ensures var r := Listing(tasks, student);
            |r| == |OwnedBy(tasks, student)| &&
            (forall i, j :: 0 <= i < j < |r| ==> r[i].createdAt >= r[j].createdAt) &&
            (forall t :: t in tasks && t.studentId == student ==> Response(t) in r) &&
            (forall i :: 0 <= i < |r| ==> exists t :: t in tasks && t.studentId == student && r[i] == Response(t))
  {
    var owned := OwnedBy(tasks, student);
    var sorted := Sorting.Sort(owned, NewestFirst());
    var r := Listing(tasks, student);
    Sorting.ByKeyDescTotal(CreatedAt);
    Sorting.SortSorted(owned, NewestFirst());
    assert |sorted| == |owned| by {
      assert |multiset(sorted)| == |multiset(owned)|;
    }
    forall i, j | 0 <= i < j < |r| ensures r[i].createdAt >= r[j].createdAt {
      assert NewestFirst()(sorted[i], sorted[j]);
    }
    forall t | t in tasks && t.studentId == student ensures Response(t) in r {
      assert t in multiset(sorted);
      var k :| 0 <= k < |sorted| && sorted[k] == t;
      assert r[k] == Response(t);
    }
    forall i | 0 <= i < |r| ensures exists t :: t in tasks && t.studentId == student && r[i] == Response(t) {
      assert sorted[i] in multiset(owned);
      assert sorted[i] in owned;
    }
  }

  /** A stored id reads back as itself through `ObjectId`. */
  lemma CanonicalId(id: string)
    requires IsTokenHex12(id)
    ensures IsObjectIdHex(id) && Lower(id) == id
  {
    forall k | 0 <= k < |id| ensures IsHexChar(id[k]) && Lower(id)[k] == id[k] {
      assert IsDigit(id[k]) || 'a' <= id[k] <= 'f';
    }
  }

  /** Creating a task: its defaults, and the lookup that finds it afterwards. */
  lemma CreateFacts(tasks: seq<Task>, data: TaskCreate, student: string, id: string, now: int)
    requires WellFormed(tasks) && IsTokenHex12(id) && Fresh(tasks, id)
    ensures var t := NewTask(data, student, id, now);
            t.studentId == student && t.status == Pending && t.aiAssistanceUsed == Present(false) &&
            t.history == Present([]) && t.completedAt == Present(None) && t.feedback == Present(None) &&
            Response(t).difficulty == data.difficulty &&
            WellFormed(tasks + [t]) &&
            Lookup(tasks + [t], id, student) == Ok(|tasks|)
  {
    var t := NewTask(data, student, id, now);
    var ts := tasks + [t];
    CanonicalId(id);
    assert Owns(ts[|tasks|], id, student);
    assert forall j :: 0 <= j < |tasks| ==> !Owns(ts[j], id, student) by {
      assert forall j :: 0 <= j < |tasks| ==> ts[j] == tasks[j];
    }
    IndexOfFirst(ts, id, student, |tasks|);
  }

  /** A new task shows in its owner's list and in no other student's. */
  lemma CreateListing(tasks: seq<Task>, t: Task)
    ensures Response(t) in Listing(tasks + [t], t.studentId)
    ensures forall other :: other != t.studentId ==> Listing(tasks + [t], other) == Listing(tasks, other)
  {
    var ts := tasks + [t];
    assert ts[..|ts| - 1] == tasks;
    ListingFacts(ts, t.studentId);
  }

  /** `IndexOf` finds the first owned match. */
  lemma {:induction false} IndexOfFirst(tasks: seq<Task>, id: string, student: string, k: nat)
    requires k < |tasks| && Owns(tasks[k], id, student)
    requires forall j :: 0 <= j < k ==> !Owns(tasks[j], id, student)
    ensures IndexOf(tasks, id, student) == Some(k)
  {
    if k > 0 {
      IndexOfFirst(tasks[1..], id, student, k - 1);
    }
  }

  // ---------------------------------------------------------------------
  // Assistance

  /** `activities.find({"student_id": ...})`. */
  function ActivitiesOf(activities: seq<Activity>, student: string): (r: seq<Activity>)
    ensures forall a :: a in r <==> a in activities && a.studentId == student
  {
    if activities == [] then []
    else
      var init := ActivitiesOf(activities[..|activities| - 1], student);
      var a := activities[|activities| - 1];
      assert forall b :: b in activities <==> b in activities[..|activities| - 1] || b == a;
      if a.studentId == student then init + [a] else init
  }

  /** The weak and strong areas of the given activities, concatenated in order. */
  function Gathered(acts: seq<Activity>): StudyHistory {
    if acts == [] then StudyHistory([], [])
    else
      var h := Gathered(acts[..|acts| - 1]);
      var a := acts[|acts| - 1];
      StudyHistory(h.weakAreas + a.weakAreas, h.strongAreas + a.strongAreas)
  }

  /** The history handed to the assistant: `None` when both lists come out empty. */
  function HistoryFor(activities: seq<Activity>, student: string): Option<StudyHistory> {
    var h := Gathered(Sorting.Take(ActivitiesOf(activities, student), HistoryLimit));
    if h.weakAreas != [] || h.strongAreas != [] then Some(h) else None
  }

  /** The loop that extends the two lists activity by activity. */
  method GatherHistory(acts: seq<Activity>) returns (h: StudyHistory)
    ensures h == Gathered(acts)
  {
    var weak: seq<string> := [];
    var strong: seq<string> := [];
    for i := 0 to |acts|
      invariant StudyHistory(weak, strong) == Gathered(acts[..i])
    {
      assert acts[..i + 1][..i] == acts[..i];
      weak := weak + acts[i].weakAreas;
      strong := strong + acts[i].strongAreas;
    }
    assert acts[..|acts|] == acts;
    h := StudyHistory(weak, strong);
  }

  /** Every area of every gathered activity is in the history, and nothing else is. */
  lemma {:induction false} GatheredCovers(acts: seq<Activity>)
    ensures forall w :: w in Gathered(acts).weakAreas <==> exists a :: a in acts && w in a.weakAreas
    ensures forall w :: w in Gathered(acts).strongAreas <==> exists a :: a in acts && w in a.strongAreas
  {
    if acts != [] {
      var init := acts[..|acts| - 1];
      GatheredCovers(init);
      assert forall b :: b in acts <==> b in init || b == acts[|acts| - 1];
    }
  }

  /** The history is withheld exactly when no recent activity of the student names an area. */
  lemma HistoryForNone(activities: seq<Activity>, student: string)
    ensures var recent := Sorting.Take(ActivitiesOf(activities, student), HistoryLimit);
            HistoryFor(activities, student).None? <==>
              forall a :: a in recent ==> a.weakAreas == [] && a.strongAreas == []
  {
    var recent := Sorting.Take(ActivitiesOf(activities, student), HistoryLimit);
    GatheredCovers(recent);
    var h := Gathered(recent);
    if h.weakAreas != [] {
      assert h.weakAreas[0] in h.weakAreas;
    }
    if h.strongAreas != [] {
      assert h.strongAreas[0] in h.strongAreas;
    }
    forall a | a in recent && (a.weakAreas != [] || a.strongAreas != []) ensures h.weakAreas != [] || h.strongAreas != [] {
      if a.weakAreas != [] {
        assert a.weakAreas[0] in h.weakAreas;
      } else {
        assert a.strongAreas[0] in h.strongAreas;
      }
    }
  }

  function RequestFor(t: Task, message: string, branch: string, history: Option<StudyHistory>): AssistRequest {
    AssistRequest(t.title + ": " + t.description + "\n\nStudent question: " + message, branch, t.kind, history)
  }

  /** A study task after an assisted exchange. */
  function Assisted(t: Task, message: string, reply: string, now: int): Task {
    var history := t.history.Or([]) + [Message("user", message, now), Message("assistant", reply, now)];
    t.(history := Present(history), aiAssistanceUsed := Present(true),
       status := if t.status == Pending then InProgress else t.status)
  }

  /**
   * Assistance appends exactly the question and then the reply, marks the
   * task assisted, and moves only a pending task on: a completed task stays
   * completed. Nothing else in the study task changes.
   */
  lemma AssistedFacts(t: Task, message: string, reply: string, now: int)
    ensures var a := Assisted(t, message, reply, now);
            var before := t.history.Or([]);
            a.history.Present? && |a.history.value| == |before| + 2 &&
            a.history.value[..|before|] == before &&
            a.history.value[|before|] == Message("user", message, now) &&
            a.history.value[|before| + 1] == Message("assistant", reply, now) &&
            a.aiAssistanceUsed == Present(true) &&
            a.status != Pending &&
            (t.status == Pending ==> a.status == InProgress) &&
            (t.status != Pending ==> a.status == t.status) &&
            a.(history := t.history, aiAssistanceUsed := t.aiAssistanceUsed, status := t.status) == t
  {
  }

  /** Two exchanges: four messages in order, and the status moves at most once. */
  lemma AssistTwice(t: Task, m1: string, r1: string, n1: int, m2: string, r2: string, n2: int)
    ensures var a := Assisted(Assisted(t, m1, r1, n1), m2, r2, n2);
            a.history.value == t.history.Or([]) + [Message("user", m1, n1), Message("assistant", r1, n1),
                                                   Message("user", m2, n2), Message("assistant", r2, n2)] &&
            a.status == Assisted(t, m1, r1, n1).status
  {
  }

  // ---------------------------------------------------------------------
  // Completion and deletion

  function Completed(t: Task, now: int): Task {
    t.(status := Done, completedAt := Present(Some(now)))
  }

  /** The activity logged on completion; `task_id` is the id as the client spelled it. */
  function CompletionLog(t: Task, taskId: string, student: string, now: int): Activity {
    Activity(student, "task_completed", Some(TaskDetails(taskId, t.kind, t.subject, t.title)), [], [], [], now)
  }

  /** Completion works from any status, and later assistance does not reopen a completed study task. */
  lemma CompletedFacts(t: Task, now: int, message: string, reply: string, later: int)
    ensures var c := Completed(t, now);
            c.status == Done && c.completedAt == Present(Some(now)) &&
            c.(status := t.status, completedAt := t.completedAt) == t &&
            Assisted(c, message, reply, later).status == Done &&
            Completed(c, later).status == Done
  {
  }

  function Without(tasks: seq<Task>, i: nat): (r: seq<Task>)
    requires i < |tasks|
  {
    tasks[..i] + tasks[i + 1..]
  }

  /** Deleting removes exactly the one task, keeps the rest in order, and a second delete finds nothing. */
  lemma DeleteFacts(tasks: seq<Task>, taskId: string, student: string)
    requires WellFormed(tasks)
    requires Lookup(tasks, taskId, student).Ok?
    ensures var i := Lookup(tasks, taskId, student).value;
            var r := Without(tasks, i);
            |r| == |tasks| - 1 &&
            multiset(r) + multiset{tasks[i]} == multiset(tasks) &&
            WellFormed(r) &&
            Lookup(r, taskId, student) == Err(404)
  {
    var i := Lookup(tasks, taskId, student).value;
    var r := Without(tasks, i);
    WithoutFacts(tasks, i);
    forall j | 0 <= j < |r| ensures r[j].id != tasks[i].id {
      assert r[j] == tasks[if j < i then j else j + 1];
    }
    LookupFacts(r, taskId, student);
  }

  /** Removing position `i` keeps every other task, in order. */
  lemma WithoutFacts(tasks: seq<Task>, i: nat)
    requires i < |tasks|
    ensures var r := Without(tasks, i);
            |r| == |tasks| - 1 &&
            multiset(r) + multiset{tasks[i]} == multiset(tasks) &&
            forall j :: 0 <= j < |r| ==> r[j] == tasks[if j < i then j else j + 1]
  {
    assert tasks == tasks[..i] + [tasks[i]] + tasks[i + 1..];
  }

  /** Replacing a task by one with the same id keeps the ids well formed. */
  lemma ReplacePreserves(tasks: seq<Task>, i: nat, t: Task)
    requires WellFormed(tasks) && i < |tasks| && t.id == tasks[i].id
    ensures WellFormed(tasks[i := t])
  {
  }

  // ---------------------------------------------------------------------
  // The collections

  class TaskStore {
    var tasks: seq<Task>
    var activities: seq<Activity>

    ghost predicate Valid()
      reads this
    {
      WellFormed(tasks)
    }

    constructor ()
      ensures Valid() && tasks == [] && activities == []
    {
      tasks := [];
      activities := [];
    }

    /** `POST /api/tasks`; `newId` is the id the database assigns, which is always unused. */
    method CreateTask(data: TaskCreate, student: string, newId: string, now: int) returns (r: TaskResponse)
      requires Valid()
      requires IsTokenHex12(newId) && Fresh(tasks, newId)
      modifies this
      ensures Valid()
      ensures tasks == old(tasks) + [NewTask(data, student, newId, now)]
      ensures activities == old(activities)
      ensures r == Response(NewTask(data, student, newId, now))
    {
      var t := NewTask(data, student, newId, now);
      CreateFacts(tasks, data, student, newId, now);
      tasks := tasks + [t];
      r := TaskResponse(t.id, t.kind, t.subject, t.title, t.description, data.difficulty, t.status, false, now);
    }

    /** `GET /api/tasks`. */
    method GetTasks(student: string) returns (r: seq<TaskResponse>)
      ensures r == Listing(tasks, student)
    {
      r := Listing(tasks, student);
    }

    /** `GET /api/tasks/{task_id}`. */
    method GetTask(taskId: string, student: string) returns (r: Result<Task, int>)
      requires Valid()
      ensures r.Err? <==> Lookup(tasks, taskId, student).Err?
      ensures r.Err? ==> r.error == Lookup(tasks, taskId, student).error
      ensures r.Ok? ==> r.value in tasks && r.value.id == Lower(taskId) && r.value.studentId == student
    {
      var l := Lookup(tasks, taskId, student);
      if l.Err? {
        return Err(l.error);
      }
      LookupFacts(tasks, taskId, student);
      r := Ok(tasks[l.value]);
    }

    /** `POST /api/tasks/{task_id}/assist`; `assistant` stands for the AI service. */
    method GetTaskAssistance(taskId: string, student: string, branch: string, message: string,
                             assistant: AssistRequest -> string, now: int)
      returns (r: Result<AssistReply, int>)
      requires Valid()
      modifies this
      ensures Valid()
      ensures activities == old(activities)
      ensures Lookup(old(tasks), taskId, student).Err? ==>
                r == Err(Lookup(old(tasks), taskId, student).error) && tasks == old(tasks)
      ensures Lookup(old(tasks), taskId, student).Ok? ==>
                var i := Lookup(old(tasks), taskId, student).value;
                var reply := assistant(RequestFor(old(tasks)[i], message, branch, HistoryFor(activities, student)));
                tasks == old(tasks)[i := Assisted(old(tasks)[i], message, reply, now)] &&
                r == Ok(AssistReply(reply, tasks[i].history.value))
    {
      var l := Lookup(tasks, taskId, student);
      if l.Err? {
        return Err(l.error);
      }
      var i := l.value;
      LookupFacts(tasks, taskId, student);
      var t := tasks[i];
      var recent := Sorting.Take(ActivitiesOf(activities, student), HistoryLimit);
      var gathered := GatherHistory(recent);
      var history := if gathered.weakAreas != [] || gathered.strongAreas != [] then Some(gathered) else None;
      var reply := assistant(RequestFor(t, message, branch, history));
      assert gathered == Gathered(recent) && history == HistoryFor(activities, student);
      var conversation := t.history.Or([]);
      conversation := conversation + [Message("user", message, now)];
      conversation := conversation + [Message("assistant", reply, now)];
      assert conversation == t.history.Or([]) + [Message("user", message, now), Message("assistant", reply, now)];
      var status := if t.status == Pending then InProgress else t.status;
      var updated := t.(history := Present(conversation), aiAssistanceUsed := Present(true), status := status);
      ReplacePreserves(tasks, i, updated);
      tasks := tasks[i := updated];
      r := Ok(AssistReply(reply, conversation));
    }

    /** `PUT /api/tasks/{task_id}/complete`. */
    method CompleteTask(taskId: string, student: string, now: int) returns (r: Result<string, int>)
      requires Valid()
      modifies this
      ensures Valid()
      ensures Lookup(old(tasks), taskId, student).Err? ==>
                r == Err(Lookup(old(tasks), taskId, student).error) &&
                tasks == old(tasks) && activities == old(activities)
      ensures Lookup(old(tasks), taskId, student).Ok? ==>
                var i := Lookup(old(tasks), taskId, student).value;
                r == Ok("Task marked as completed") &&
                tasks == old(tasks)[i := Completed(old(tasks)[i], now)] &&
                activities == old(activities) + [CompletionLog(old(tasks)[i], taskId, student, now)]
    {
      var l := Lookup(tasks, taskId, student);
      if l.Err? {
        return Err(l.error);
      }
      var i := l.value;
      LookupFacts(tasks, taskId, student);
      var t := tasks[i];
      ReplacePreserves(tasks, i, Completed(t, now));
      tasks := tasks[i := Completed(t, now)];
      activities := activities + [CompletionLog(t, taskId, student, now)];
      r := Ok("Task marked as completed");
    }

    /** `DELETE /api/tasks/{task_id}`. */
    method DeleteTask(taskId: string, student: string) returns (r: Result<string, int>)
      requires Valid()
      modifies this
      ensures Valid()
      ensures activities == old(activities)
      ensures Lookup(old(tasks), taskId, student).Err? ==>
                r == Err(Lookup(old(tasks), taskId, student).error) && tasks == old(tasks)
      ensures Lookup(old(tasks), taskId, student).Ok? ==>
                r == Ok("Task deleted successfully") &&
                tasks == Without(old(tasks), Lookup(old(tasks), taskId, student).value)
    {
      var l := Lookup(tasks, taskId, student);
      if l.Err? {
        return Err(l.error);
      }
      DeleteFacts(tasks, taskId, student);
      tasks := Without(tasks, l.value);
      r := Ok("Task deleted successfully");
    }
  }
}
