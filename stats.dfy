/**
 * The statistics routes: a student's dashboard counters and a made-up
 * readiness score, and the platform-wide counters an administrator sees.
 * Both return fixed figures when the database is down.
 */
module Stats {
  import opened Common
  import opened Json
  import Tasks

  /** The collections the routes count in; `None` when the database is down. */
  datatype Database = Database(tasks: seq<Tasks.Task>, internships: seq<Doc>, users: seq<Doc>)

  datatype StudentStats = StudentStats(tasksCompleted: int, coursesRecommended: int, internshipsTracked: int,
                                       careerReadiness: int)

  datatype AdminStats = AdminStats(totalStudents: int, totalTasks: int, activeUsers: int, aiInteractions: int)

  const OfflineStudent := StudentStats(12, 5, 3, 75)
  const OfflineAdmin := AdminStats(150, 1240, 85, 4500)
  const CoursesRecommended := 8
  /** The estimate of assistant exchanges per task. */
  const InteractionsPerTask := 3

  // ---------------------------------------------------------------------
  // Counting

  predicate CompletedBy(t: Tasks.Task, sid: string) {
    t.studentId == sid && t.status == Tasks.Done
  }

  /** `count_documents({"student_id": sid, "status": "completed"})`. */
  function CompletedCount(tasks: seq<Tasks.Task>, sid: string): (n: nat)
    ensures n <= |tasks|
  {
    if tasks == [] then 0
    else CompletedCount(tasks[..|tasks| - 1], sid) + (if CompletedBy(tasks[|tasks| - 1], sid) then 1 else 0)
  }

  /** `count_documents({key: value})` for a string value. */
  function CountWhere(docs: seq<Doc>, key: string, value: string): (n: nat)
    ensures n <= |docs|
  {
    if docs == [] then 0
    else
      var d := docs[|docs| - 1];
      CountWhere(docs[..|docs| - 1], key, value) + (if key in d && d[key] == Str(value) then 1 else 0)
  }

  /**
   * Completing a task raises its owner's count by one unless it was already
   * completed; no other student's count moves.
   */
  lemma {:induction false} CompletionCounts(tasks: seq<Tasks.Task>, i: nat, now: int, sid: string)
    requires i < |tasks|
    ensures CompletedCount(tasks[i := Tasks.Completed(tasks[i], now)], sid) ==
            CompletedCount(tasks, sid) + (if tasks[i].studentId == sid && tasks[i].status != Tasks.Done then 1 else 0)
  {
    var after := tasks[i := Tasks.Completed(tasks[i], now)];
    var n := |tasks| - 1;
    if i == n {
      assert after[..n] == tasks[..n];
    } else {
      CompletionCounts(tasks[..n], i, now, sid);
      assert after[..n] == tasks[..n][i := Tasks.Completed(tasks[i], now)];
      assert after[n] == tasks[n];
    }
  }

  // ---------------------------------------------------------------------
  // Readiness

  /** The readiness score: a base of 40, 15 for more than five completed tasks, 10 for any internship, at most 100. */
  function Readiness(tasksCompleted: int, internshipsTracked: int): int {
    var uncapped := 40 + (if tasksCompleted > 5 then 15 else 0) + (if internshipsTracked > 0 then 10 else 0);
    if uncapped < 100 then uncapped else 100
  }

  /** The score as the route builds it, one `+=` at a time. */
  method CareerReadiness(tasksCompleted: int, internshipsTracked: int) returns (r: int)
    ensures r == Readiness(tasksCompleted, internshipsTracked)
  {
    var readiness := 40;
    if tasksCompleted > 5 {
      readiness := readiness + 15;
    }
    if internshipsTracked > 0 {
      readiness := readiness + 10;
    }
    r := if readiness < 100 then readiness else 100;
  }

  /** The score takes four values, each for exactly one combination, and the cap never bites. */
  lemma ReadinessValues(tasksCompleted: int, internshipsTracked: int)
    ensures var r := Readiness(tasksCompleted, internshipsTracked);
            r in {40, 50, 55, 65} &&
            (r == 40 <==> tasksCompleted <= 5 && internshipsTracked <= 0) &&
            (r == 50 <==> tasksCompleted <= 5 && internshipsTracked > 0) &&
            (r == 55 <==> tasksCompleted > 5 && internshipsTracked <= 0) &&
            (r == 65 <==> tasksCompleted > 5 && internshipsTracked > 0) &&
            r < 100
  {
  }

  /** More completed tasks or more internships never lower the score. */
  lemma ReadinessMonotone(t1: int, i1: int, t2: int, i2: int)
    requires t1 <= t2 && i1 <= i2
    ensures Readiness(t1, i1) <= Readiness(t2, i2)
  {
  }

  // ---------------------------------------------------------------------
  // The routes

  /**
   * `GET /api/stats/student`. Offline it reports fixed figures. Online it
   * counts this student's completed tasks and all of their internships,
   * always reports eight courses, and derives readiness from the two
   * counts.
   */
  method GetStudentStats(db: Option<Database>, sid: string) returns (r: StudentStats)
    ensures db.None? ==> r == StudentStats(12, 5, 3, 75)
    ensures db.Some? ==>
              r.tasksCompleted == CompletedCount(db.value.tasks, sid) &&
              r.internshipsTracked == CountWhere(db.value.internships, "student_id", sid) &&
              0 <= r.tasksCompleted <= |db.value.tasks| &&
              0 <= r.internshipsTracked <= |db.value.internships| &&
              r.coursesRecommended == 8 &&
              r.careerReadiness == Readiness(r.tasksCompleted, r.internshipsTracked) &&
              r.careerReadiness in {40, 50, 55, 65} &&
              (r.careerReadiness >= 55 <==> r.tasksCompleted > 5)
  {
    if db.None? {
      return OfflineStudent;
    }
    var completed := CompletedCount(db.value.tasks, sid);
    var tracked := CountWhere(db.value.internships, "student_id", sid);
    var readiness := CareerReadiness(completed, tracked);
    ReadinessValues(completed, tracked);
    r := StudentStats(completed, CoursesRecommended, tracked, readiness);
  }

  /**
   * `GET /api/stats/admin`. Offline it reports fixed figures. Online every
   * student is a user, every user (admins included) is active, and the
   * interaction estimate is three per task.
   */
  method GetAdminStats(db: Option<Database>) returns (r: AdminStats)
    ensures db.None? ==> r == AdminStats(150, 1240, 85, 4500)
    ensures db.Some? ==>
              r.totalStudents == CountWhere(db.value.users, "role", "student") &&
              r.totalTasks == |db.value.tasks| &&
              0 <= r.totalStudents <= r.activeUsers &&
              r.activeUsers == |db.value.users| &&
              r.aiInteractions == 3 * r.totalTasks
  {
    if db.None? {
      return OfflineAdmin;
    }
    var totalTasks := |db.value.tasks|;
    r := AdminStats(CountWhere(db.value.users, "role", "student"), totalTasks, |db.value.users|,
                    totalTasks * InteractionsPerTask);
  }
}
