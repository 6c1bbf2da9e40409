/** Start-up seeding. Each of the five tables that is empty when the
    application starts gets one sample record; the inserts are queued in the
    session and written by one commit at the end. The ids the database
    assigns to the new records are inputs (`SeedIds`). */
module Seeding {

  import opened Wrappers
  import opened Entities

  /** The contents of the five tables, each in the order the store returns
      its records. */
  datatype Store = Store(
    candidates: seq<Candidate>,
    jobListings: seq<JobListing>,
    trainingPrograms: seq<TrainingProgram>,
    assessmentTests: seq<AssessmentTest>,
    applications: seq<Application>)

  const EmptyStore: Store := Store([], [], [], [], [])

  /** The primary keys the database gives to the sample records. */
  datatype SeedIds = SeedIds(
    candidate: int,
    jobListing: int,
    trainingProgram: int,
    assessmentTest: int,
    application: int)

  /** A record added to the session and not yet committed. */
  datatype Insert =
    | AddCandidate(c: Candidate)
    | AddJobListing(j: JobListing)
    | AddTrainingProgram(t: TrainingProgram)
    | AddAssessmentTest(a: AssessmentTest)
    | AddApplication(p: Application)

  // The five sample records.

  function SampleCandidate(id: int): (r: Candidate) {
    Candidate(id, "John Doe", Some("john@example.com"), Some("Python, Flask, SQLAlchemy"),
              Some("B.Sc. Computer Science"), Some("3 years"))
  }

  function SampleJobListing(id: int): (r: JobListing) {
    NewJobListing(id, "Acme Corp", Some("Software Developer position"), Some("Python, SQL, REST APIs"),
                  Some("$50,000"), Some("Open"))
  }

  function SampleTrainingProgram(id: int): (r: TrainingProgram) {
    TrainingProgram(id, "Python Bootcamp", Some("Intensive training in Python and Flask."),
                    Some("Python, Flask, SQLAlchemy"), Some("Tech Institute"))
  }

  function SampleAssessmentTest(id: int): (r: AssessmentTest) {
    AssessmentTest(id, "Python", Some("Basic Python programming skills assessment."), Some("Score out of 100"))
  }

  /** The sample application names candidate 1 and job listing 1 as literal
      numbers, whatever ids the other samples get. */
  function SampleApplication(id: int): (r: Application) {
    NewApplication(id, 1, 1, Some("Pending"))
  }

  /** The sample statuses are given explicitly and coincide with the column
      defaults. */
  lemma SampleStatusesAreDefaults(ids: SeedIds)
    ensures SampleJobListing(ids.jobListing).status == NewJobListing(ids.jobListing, "Acme Corp").status
    ensures SampleApplication(ids.application).status == NewApplication(ids.application, 1, 1).status
  {
  }

  /** How many of the five tables hold no record. */
  function EmptyTables(s: Store): (r: nat) {
    (if |s.candidates| == 0 then 1 else 0)
    + (if |s.jobListings| == 0 then 1 else 0)
    + (if |s.trainingPrograms| == 0 then 1 else 0)
    + (if |s.assessmentTests| == 0 then 1 else 0)
    + (if |s.applications| == 0 then 1 else 0)
  }

  /** The table an insert writes to, numbered in the order the tables are
      checked at start-up. */
  function Target(i: Insert): (r: nat) {
    match i
    case AddCandidate(_) => 0
    case AddJobListing(_) => 1
    case AddTrainingProgram(_) => 2
    case AddAssessmentTest(_) => 3
    case AddApplication(_) => 4
  }

  /** Whether the table numbered `t` is empty in `s`. */
  predicate TableEmpty(s: Store, t: nat) {
    if t == 0 then |s.candidates| == 0
    else if t == 1 then |s.jobListings| == 0
    else if t == 2 then |s.trainingPrograms| == 0
    else if t == 3 then |s.assessmentTests| == 0
    else t == 4 && |s.applications| == 0
  }

  /** The sample record for the table numbered `t`. */
  function SampleInsert(ids: SeedIds, t: nat): (i: Insert)
    requires t < 5
    ensures Target(i) == t
  {
    if t == 0 then AddCandidate(SampleCandidate(ids.candidate))
    else if t == 1 then AddJobListing(SampleJobListing(ids.jobListing))
    else if t == 2 then AddTrainingProgram(SampleTrainingProgram(ids.trainingProgram))
    else if t == 3 then AddAssessmentTest(SampleAssessmentTest(ids.assessmentTest))
    else AddApplication(SampleApplication(ids.application))
  }

  /** How many of the tables numbered `t` to 4 are empty. */
  function EmptyFrom(s: Store, t: nat): (r: nat)
    requires t <= 5
    decreases 5 - t
  {
    if t == 5 then 0 else (if TableEmpty(s, t) then 1 else 0) + EmptyFrom(s, t + 1)
  }

  function When<T>(c: bool, x: T): (r: seq<T>) {
    if c then [x] else []
  }

  /** The inserts the checks of tables `t` to 4 queue, in table order. */
  function Queue(s: Store, ids: SeedIds, t: nat): (r: seq<Insert>)
    requires t <= 5
    ensures |r| == EmptyFrom(s, t)
    ensures forall k :: 0 <= k < |r| ==> t <= Target(r[k]) && TableEmpty(s, Target(r[k]))
    ensures forall k, l :: 0 <= k < l < |r| ==> Target(r[k]) < Target(r[l])
    decreases 5 - t
  {
    if t == 5 then []
    else if TableEmpty(s, t) then [SampleInsert(ids, t)] + Queue(s, ids, t + 1)
    else Queue(s, ids, t + 1)
  }

  /** The session's queue after the five checks: one sample per empty table,
      in table order. Each check counts its own table, and no earlier check
      queues a record for that table, so every count sees the table as it
      was at start-up even when the session flushes the earlier inserts
      before counting. */
  function PendingInserts(s: Store, ids: SeedIds): (r: seq<Insert>)
    ensures |r| == EmptyTables(s)
    ensures forall k :: 0 <= k < |r| ==> TableEmpty(s, Target(r[k]))
    ensures forall k, l :: 0 <= k < l < |r| ==> Target(r[k]) < Target(r[l])
  {
    assert EmptyFrom(s, 0) == EmptyTables(s) by {
      assert EmptyFrom(s, 3) == (if |s.assessmentTests| == 0 then 1 else 0) + (if |s.applications| == 0 then 1 else 0);
    }
    Queue(s, ids, 0)
  }

  /** The store with one record appended to its table. */
  function Apply(s: Store, i: Insert): (r: Store) {
    match i
    case AddCandidate(c) => s.(candidates := s.candidates + [c])
    case AddJobListing(j) => s.(jobListings := s.jobListings + [j])
    case AddTrainingProgram(t) => s.(trainingPrograms := s.trainingPrograms + [t])
    case AddAssessmentTest(a) => s.(assessmentTests := s.assessmentTests + [a])
    case AddApplication(p) => s.(applications := s.applications + [p])
  }

  /** Writing the queued inserts, in queue order. */
  function Commit(s: Store, ins: seq<Insert>): (r: Store)
    decreases |ins|
  {
    if |ins| == 0 then s else Commit(Apply(s, ins[0]), ins[1..])
  }

  /** The store after start-up seeding: each table that was empty holds its
      sample alone, and every other table is as it was. */
  function Startup(s: Store, ids: SeedIds): (r: Store)
    ensures r == Store(
              Seeded(s.candidates, SampleCandidate(ids.candidate)),
              Seeded(s.jobListings, SampleJobListing(ids.jobListing)),
              Seeded(s.trainingPrograms, SampleTrainingProgram(ids.trainingProgram)),
              Seeded(s.assessmentTests, SampleAssessmentTest(ids.assessmentTest)),
              Seeded(s.applications, SampleApplication(ids.application)))
  {
    StartupTables(s, ids);
    Commit(s, PendingInserts(s, ids))
  }

  /** A table after seeding, defined on its own: the sample alone if the
      table was empty, the table unchanged otherwise. */
  function Seeded<T>(table: seq<T>, sample: T): (r: seq<T>) {
    if |table| == 0 then [sample] else table
  }

  /** Committing two queues one after the other is committing their
      concatenation. */
  lemma {:induction false} CommitAppend(s: Store, a: seq<Insert>, b: seq<Insert>)
    ensures Commit(s, a + b) == Commit(Commit(s, a), b)
    decreases |a|
  {
    if |a| == 0 {
      assert a + b == b;
    } else {
      assert (a + b)[0] == a[0];
      assert (a + b)[1..] == a[1..] + b;
      CommitAppend(Apply(s, a[0]), a[1..], b);
    }
  }

  lemma CommitOne(s: Store, i: Insert)
    ensures Commit(s, [i]) == Apply(s, i)
  {
    assert [i][1..] == [];
  }

  lemma CommitWhen(s: Store, c: bool, i: Insert, rest: seq<Insert>)
    ensures Commit(s, When(c, i) + rest) == Commit(if c then Apply(s, i) else s, rest)
  {
    CommitAppend(s, When(c, i), rest);
    if c {
      CommitOne(s, i);
    }
  }

  /** Committing the queue fills exactly the empty tables, each with its
      sample, and leaves every other table as it was. */
  lemma {:induction false} StartupTables(s: Store, ids: SeedIds)
    ensures Commit(s, PendingInserts(s, ids)) == Store(
              Seeded(s.candidates, SampleCandidate(ids.candidate)),
              Seeded(s.jobListings, SampleJobListing(ids.jobListing)),
              Seeded(s.trainingPrograms, SampleTrainingProgram(ids.trainingProgram)),
              Seeded(s.assessmentTests, SampleAssessmentTest(ids.assessmentTest)),
              Seeded(s.applications, SampleApplication(ids.application)))
  {
    var s1 := SeedOne(s, ids, 0);
    var s2 := SeedOne(s1, ids, 1);
    var s3 := SeedOne(s2, ids, 2);
    var s4 := SeedOne(s3, ids, 3);
    var s5 := SeedOne(s4, ids, 4);
    assert Commit(s, Queue(s, ids, 0)) == Commit(s1, Queue(s, ids, 1)) by {
      QueueStep(s, s, ids, 0);
    }
    assert Commit(s1, Queue(s, ids, 1)) == Commit(s2, Queue(s, ids, 2)) by {
      QueueStep(s, s1, ids, 1);
    }
    assert Commit(s2, Queue(s, ids, 2)) == Commit(s3, Queue(s, ids, 3)) by {
      QueueStep(s, s2, ids, 2);
    }
    assert Commit(s3, Queue(s, ids, 3)) == Commit(s4, Queue(s, ids, 4)) by {
      QueueStep(s, s3, ids, 3);
    }
    assert Commit(s4, Queue(s, ids, 4)) == s5 by {
      QueueStep(s, s4, ids, 4);
      assert Queue(s, ids, 5) == [];
    }
    assert PendingInserts(s, ids) == Queue(s, ids, 0);
  }

  /** The store `cur` with the table numbered `t` seeded. */
  function SeedOne(cur: Store, ids: SeedIds, t: nat): (r: Store)
    requires t < 5
  {
    if t == 0 then cur.(candidates := Seeded(cur.candidates, SampleCandidate(ids.candidate)))
    else if t == 1 then cur.(jobListings := Seeded(cur.jobListings, SampleJobListing(ids.jobListing)))
    else if t == 2 then cur.(trainingPrograms := Seeded(cur.trainingPrograms, SampleTrainingProgram(ids.trainingProgram)))
    else if t == 3 then cur.(assessmentTests := Seeded(cur.assessmentTests, SampleAssessmentTest(ids.assessmentTest)))
    else cur.(applications := Seeded(cur.applications, SampleApplication(ids.application)))
  }

  /** One check of the queue: when table `t` of the store being built is
      still as it was at start-up, committing from table `t` on is seeding
      that table and committing the rest. */
  lemma QueueStep(s: Store, cur: Store, ids: SeedIds, t: nat)
    requires t < 5
    requires TableEmpty(cur, t) == TableEmpty(s, t)
    ensures Commit(cur, Queue(s, ids, t)) == Commit(SeedOne(cur, ids, t), Queue(s, ids, t + 1))
  {
    assert Queue(s, ids, t) == When(TableEmpty(s, t), SampleInsert(ids, t)) + Queue(s, ids, t + 1);
    CommitWhen(cur, TableEmpty(s, t), SampleInsert(ids, t), Queue(s, ids, t + 1));
    ApplySample(cur, ids, t);
  }

  lemma ApplySample(cur: Store, ids: SeedIds, t: nat)
    requires t < 5
    ensures (if TableEmpty(cur, t) then Apply(cur, SampleInsert(ids, t)) else cur) == SeedOne(cur, ids, t)
  {
    if t == 0 {
    } else if t == 1 {
    } else if t == 2 {
    } else if t == 3 {
    } else {
    }
  }

  /** On an empty store, start-up leaves each table holding its sample
      alone. */
  lemma StartupOnEmpty(ids: SeedIds)
    ensures Startup(EmptyStore, ids) == Store(
              [SampleCandidate(ids.candidate)],
              [SampleJobListing(ids.jobListing)],
              [SampleTrainingProgram(ids.trainingProgram)],
              [SampleAssessmentTest(ids.assessmentTest)],
              [SampleApplication(ids.application)])
  {
  }

  /** After start-up no table is empty. */
  lemma StartupFillsEveryTable(s: Store, ids: SeedIds)
    ensures EmptyTables(Startup(s, ids)) == 0
  {
  }

  /** Seeding twice is seeding once: the second start-up queues nothing and
      leaves the store as the first one left it, whatever ids it would use. */
  lemma StartupIdempotent(s: Store, ids: SeedIds, ids2: SeedIds)
    ensures PendingInserts(Startup(s, ids), ids2) == []
    ensures Startup(Startup(s, ids), ids2) == Startup(s, ids)
  {
    StartupFillsEveryTable(s, ids);
    var t := Startup(s, ids);
    assert Commit(t, []) == t;
  }

  /** A store some record of which has the given candidate id. */
  predicate HasCandidate(s: Store, id: int) {
    exists k :: 0 <= k < |s.candidates| && s.candidates[k].id == id
  }

  predicate HasJobListing(s: Store, id: int) {
    exists k :: 0 <= k < |s.jobListings| && s.jobListings[k].id == id
  }

  /** Every application names a candidate and a job listing the store
      holds. */
  predicate ReferencesResolve(s: Store) {
    forall k :: 0 <= k < |s.applications| ==>
      HasCandidate(s, s.applications[k].candidateId) && HasJobListing(s, s.applications[k].jobId)
  }

  /** When the application table starts empty, the seeded application names
      candidate 1 and job listing 1, whatever the other tables hold. */
  lemma SampleApplicationReferences(s: Store, ids: SeedIds)
    requires |s.applications| == 0
    ensures Startup(s, ids).applications == [Application(ids.application, 1, 1, Some("Pending"))]
  {
  }

  /** On an empty store whose first candidate and first job listing get id 1,
      the seeded application's references resolve. */
  lemma FreshStartupResolves(ids: SeedIds)
    requires ids.candidate == 1 && ids.jobListing == 1
    ensures ReferencesResolve(Startup(EmptyStore, ids))
  {
    var t := Startup(EmptyStore, ids);
    assert t.candidates[0].id == 1;
    assert t.jobListings[0].id == 1;
  }

  /** No check guards the literal references: a store whose only candidate
      has id 7 and whose application table is empty ends up with an
      application naming a candidate it does not hold. */
  lemma DanglingCandidateReference(ids: SeedIds)
    ensures !ReferencesResolve(Startup(Store([SampleCandidate(7)], [], [], [], []), ids))
  {
    var s := Store([SampleCandidate(7)], [], [], [], []);
    var t := Startup(s, ids);
    assert t.candidates == [SampleCandidate(7)];
    assert t.applications[0].candidateId == 1;
    assert !HasCandidate(t, 1);
  }
}
