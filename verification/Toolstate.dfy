// Publishing test results to the toolstate repository (src/bootstrap/toolstate.rs): the edit of the history file, and the
// commit, push, fetch, reset protocol run by any number of CI jobs at once.
module Toolstate {

  // ---------------------------------------------------------------------------------------------
  // The history file: a header line, then one line per result, newest first.

  function FirstNewline(text: string): (i: nat)
    ensures i <= |text| && (forall k :: 0 <= k < i ==> text[k] != '\n')
    ensures i < |text| ==> text[i] == '\n'
  {
    if text == "" || text[0] == '\n' then 0 else 1 + FirstNewline(text[1..])
  }

  function Lines(text: string): (ls: seq<string>)
    ensures ls != []
    decreases |text|
  {
    var i := FirstNewline(text);
    if i == |text| then [text] else [text[..i]] + Lines(text[i + 1..])
  }

  /** The text with the record as a new second line. */
  function Inserted(text: string, record: string): string {
    var i := FirstNewline(text);
    text[..i] + "\n" + record + text[i..]
  }

  lemma FirstLine(line: string, rest: string)
    requires '\n' !in line
    ensures FirstNewline(line + "\n" + rest) == |line|
    ensures Lines(line + "\n" + rest) == [line] + Lines(rest)
  {
    var text, i := line + "\n" + rest, |line|;
    assert text[i] == '\n' && text[..i] == line && text[i + 1..] == rest;
    assert forall k :: 0 <= k < i ==> text[k] == line[k];
    assert FirstNewline(text) == i;
  }

  lemma SplitAtNewline(text: string) returns (line: string, rest: string)
    requires '\n' in text
    ensures text == line + "\n" + rest && '\n' !in line && |line| == FirstNewline(text)
  {
    var i := FirstNewline(text);
    line, rest := text[..i], text[i + 1..];
  }

  /** Line by line: the record goes between the header and the older lines. */
  lemma LinesInserted(text: string, record: string)
    requires '\n' in text && '\n' !in record
    ensures '\n' in Inserted(text, record)
    ensures Lines(Inserted(text, record)) == [Lines(text)[0], record] + Lines(text)[1..]
  {
    var header, older := SplitAtNewline(text);
    hide Lines, FirstNewline, Inserted;
    FirstLine(header, older);
    FirstLine(header, record + "\n" + older);
    FirstLine(record, older);
    InsertedIs(header, record, older);
    SecondOfLines(header, record, Lines(older));
  }

  lemma InsertedIs(header: string, record: string, older: string)
    requires FirstNewline(header + "\n" + older) == |header|
    ensures Inserted(header + "\n" + older, record) == header + "\n" + (record + "\n" + older)
    ensures '\n' in Inserted(header + "\n" + older, record)
  {
    hide FirstNewline;
    var text, newline := header + "\n" + older, "\n";
    var i := |header|;
    assert text[..i] == header && text[i..] == newline + older;
    Reassociate(header, newline, record, older);
    assert Inserted(text, record)[i] == '\n';
  }

  lemma SecondOfLines(header: string, record: string, older: seq<string>)
    ensures [header] + ([record] + older) == [([header] + older)[0], record] + ([header] + older)[1..]
  {
  }

  lemma Reassociate(a: string, n: string, b: string, c: string)
    ensures a + n + b + (n + c) == a + n + (b + n + c)
  {
  }

  /** The insertion changes the text, so there is always something to commit. */
  lemma InsertedIsLonger(text: string, record: string)
    ensures |Inserted(text, record)| == |text| + 1 + |record|
  {
  }

  // ---------------------------------------------------------------------------------------------
  // The repository: the commits of master, oldest first.

  datatype Os = Linux | Windows

  /** The history files of a commit. */
  datatype Files = Files(linux: string, windows: string) {
    function Get(os: Os): string {
      if os == Linux then linux else windows
    }

    function Put(os: Os, text: string): Files {
      if os == Linux then this.(linux := text) else this.(windows := text)
    }
  }

  /** A CI job publishes one record in the file of its operating system. */
  datatype Task = Task(os: Os, record: string)

  datatype Author = Ours(job: nat) | Others

  datatype Commit = Commit(author: Author, files: Files)

  type Branch = b: seq<Commit> | b != [] witness [Commit(Others, Files("", ""))]

  function Tip(b: Branch): Files {
    b[|b| - 1].files
  }

  function Edited(files: Files, task: Task): Files {
    files.Put(task.os, Inserted(files.Get(task.os), task.record))
  }

  /** A commit on top of files: a job's own edit, or a change to other parts of the repository. */
  predicate Follows(tasks: seq<Task>, files: Files, c: Commit) {
    match c.author
    case Ours(j) => j < |tasks| && c.files == Edited(files, tasks[j])
    case Others => c.files == files
  }

  predicate Linked(tasks: seq<Task>, b: Branch) {
    forall i :: 0 < i < |b| ==> Follows(tasks, b[i - 1].files, b[i])
  }

  /** The number of commits of job j. */
  function CommitsOf(b: seq<Commit>, j: nat): nat {
    if b == [] then 0 else CommitsOf(b[..|b| - 1], j) + if b[|b| - 1].author == Ours(j) then 1 else 0
  }

  /** The records of the commits after the first, newest first, in the file of one operating system. */
  function Records(tasks: seq<Task>, b: Branch, os: Os): seq<string>
    requires Linked(tasks, b)
  {
    if |b| == 1 then []
    else
      var c, older := b[|b| - 1], b[..|b| - 1];
      assert forall i :: 0 < i < |older| ==> Follows(tasks, b[i - 1].files, b[i]);
      assert Follows(tasks, b[|b| - 2].files, c);
      (if c.author.Ours? && tasks[c.author.job].os == os then [tasks[c.author.job].record] else [])
      + Records(tasks, older, os)
  }

  /** The record of every job with a commit is there. */
  lemma {:induction false} RecordIsThere(tasks: seq<Task>, b: Branch, j: nat)
    requires Linked(tasks, b) && j < |tasks| && b[0].author == Others && CommitsOf(b, j) > 0
    ensures tasks[j].record in Records(tasks, b, tasks[j].os)
    decreases |b|
  {
    if |b| > 1 {
      var older: Branch := b[..|b| - 1];
      assert forall i :: 0 < i < |older| ==> Follows(tasks, b[i - 1].files, b[i]);
      if b[|b| - 1].author != Ours(j) {
        RecordIsThere(tasks, older, j);
      }
    }
  }

  /** No two tasks publish the same line. */
  predicate Distinct(tasks: seq<Task>) {
    forall i, j :: 0 <= i < j < |tasks| ==> tasks[i] != tasks[j]
  }

  /** When no two tasks publish the same line, the line of a job is there as often as the job has commits. */
  lemma {:induction false} RecordsAreCommits(tasks: seq<Task>, b: Branch, j: nat)
    requires Linked(tasks, b) && Distinct(tasks) && j < |tasks| && b[0].author == Others
    ensures multiset(Records(tasks, b, tasks[j].os))[tasks[j].record] == CommitsOf(b, j)
    decreases |b|
  {
    var os, r := tasks[j].os, tasks[j].record;
    hide Follows, Linked, Records, Distinct;
    if |b| == 1 {
      NoRecordsYet(tasks, b, os);
      OthersHaveNone(b, j);
    } else {
      LastCommit(tasks, b, os);
      var older: Branch, c := b[..|b| - 1], b[|b| - 1];
      LineOf(tasks, Tip(older), c, j);
      RecordsAreCommits(tasks, older, j);
      var line := if c.author.Ours? && tasks[c.author.job].os == os then [tasks[c.author.job].record] else [];
      CountJoin(line, Records(tasks, older, os), r);
    }
  }

  lemma CountJoin(a: seq<string>, b: seq<string>, r: string)
    ensures multiset(a + b)[r] == multiset(a)[r] + multiset(b)[r]
  {
  }

  lemma LineOf(tasks: seq<Task>, files: Files, c: Commit, j: nat)
    requires Follows(tasks, files, c) && Distinct(tasks) && j < |tasks|
    ensures var mine := c.author.Ours? && tasks[c.author.job].os == tasks[j].os;
      multiset(if mine then [tasks[c.author.job].record] else [])[tasks[j].record] == if c.author == Ours(j) then 1 else 0
  {
    hide Edited;
    assert c.author.Ours? && c.author.job != j ==> tasks[c.author.job] != tasks[j];
  }

  predicate CleanTasks(tasks: seq<Task>) {
    forall j :: 0 <= j < |tasks| ==> '\n' !in tasks[j].record
  }

  predicate HasHeaders(files: Files) {
    '\n' in files.linux && '\n' in files.windows
  }

  /** What every commit of a linked branch holds: the header first, then a line for each commit, then the initial lines. */
  lemma {:induction false} TipHolds(tasks: seq<Task>, b: Branch, os: Os)
    requires Linked(tasks, b) && CleanTasks(tasks) && HasHeaders(b[0].files)
    ensures '\n' in Tip(b).Get(os)
    ensures var lines := Lines(b[0].files.Get(os)); Lines(Tip(b).Get(os)) == [lines[0]] + Records(tasks, b, os) + lines[1..]
    decreases |b|
  {
    hide Lines, Inserted, Records, Follows, Linked;
    if |b| == 1 {
      assert Records(tasks, b, os) == [] by { NoRecordsYet(tasks, b, os); }
    } else {
      var c, older: Branch, lines := b[|b| - 1], b[..|b| - 1], Lines(b[0].files.Get(os));
      LastCommit(tasks, b, os);
      TipHolds(tasks, older, os);
      CommitAdds(tasks, Tip(older), c, os);
      hide *;
      if c.author.Ours? && tasks[c.author.job].os == os {
        BelowHeader(lines[0], tasks[c.author.job].record, Records(tasks, older, os), lines[1..]);
      } else {
        assert [] + Records(tasks, older, os) == Records(tasks, older, os);
      }
    }
  }

  lemma BelowHeader(header: string, record: string, records: seq<string>, rest: seq<string>)
    ensures var older := [header] + records + rest; [older[0], record] + older[1..] == [header] + ([record] + records) + rest
  {
    var older := [header] + records + rest;
    assert older[0] == header && older[1..] == records + rest;
  }

  lemma NoRecordsYet(tasks: seq<Task>, b: Branch, os: Os)
    requires Linked(tasks, b) && |b| == 1
    ensures Records(tasks, b, os) == []
  {
  }

  lemma LastCommit(tasks: seq<Task>, b: Branch, os: Os)
    requires Linked(tasks, b) && |b| > 1
    ensures var c, older := b[|b| - 1], b[..|b| - 1];
      && Linked(tasks, older) && Follows(tasks, Tip(older), c) && (c.author.Ours? ==> c.author.job < |tasks|)
      && Records(tasks, b, os)
         == (if c.author.Ours? && tasks[c.author.job].os == os then [tasks[c.author.job].record] else []) + Records(tasks, older, os)
  {
    assert Follows(tasks, b[|b| - 2].files, b[|b| - 1]);
    assert forall i :: 0 < i < |b| - 1 ==> Follows(tasks, b[i - 1].files, b[i]);
    hide Follows;
  }

  /** What one commit adds to a history file. */
  lemma CommitAdds(tasks: seq<Task>, files: Files, c: Commit, os: Os)
    requires Follows(tasks, files, c) && CleanTasks(tasks) && '\n' in files.Get(os)
    ensures '\n' in c.files.Get(os)
    ensures var mine := c.author.Ours? && tasks[c.author.job].os == os; var lines := Lines(files.Get(os));
      Lines(c.files.Get(os)) == if mine then [lines[0], tasks[c.author.job].record] + lines[1..] else lines
  {
    hide Lines, Inserted;
    if c.author.Ours? && tasks[c.author.job].os == os {
      LinesInserted(files.Get(os), tasks[c.author.job].record);
    }
  }

  lemma TipChanges(files: Files, task: Task)
    ensures Edited(files, task) != files
  {
    InsertedIsLonger(files.Get(task.os), task.record);
  }

  lemma CommitsOfOneMore(b: seq<Commit>, c: Commit, j: nat)
    ensures CommitsOf(b + [c], j) == CommitsOf(b, j) + if c.author == Ours(j) then 1 else 0
  {
    assert (b + [c])[..|b|] == b;
  }

  // ---------------------------------------------------------------------------------------------
  // The protocol: jobs, each in its own checkout, take their steps in any order.

  const ATTEMPTS := 5

  datatype Phase =
    | Waiting
    | Ready
    | Published
    | Committed
    | Rejected
    | Fetched
    | Succeeded
    | NothingToCommit
    | Panicked

  /** One job: where it is, how many attempts it has begun, its checkout (master, the working tree and origin/master), and,
      for the record, how many of its pushes have arrived, and how many of these it was told had failed. */
  datatype Job = Job(phase: Phase, attempt: nat, master: Branch, tree: Files, origin: Branch, arrived: nat, lost: nat)

  datatype World = World(remote: Branch, jobs: seq<Job>)

  /** A push is accepted if it is a fast-forward; it may also be accepted and reported as failed, or refused in any case. */
  datatype Fate = Accepted | AckLost | Refused

  /** One step of job j, or a commit by somebody else. */
  datatype Action =
    | Clone(j: nat)
    | Publish(j: nat)
    | MakeCommit(j: nat)
    | Push(j: nat, fate: Fate)
    | Fetch(j: nat)
    | ResetHard(j: nat)
    | Foreign

  function Started(job: Job, b: Branch): Job {
    job.(phase := if job.attempt == ATTEMPTS then Panicked else Ready, master := b, tree := Tip(b), origin := b)
  }

  predicate GoesThrough(remote: Branch, job: Job, a: Action) {
    a.Push? && job.phase == Committed && a.fate != Refused && remote <= job.master
  }

  /** What a step of the job does to the job itself. */
  function JobStep(remote: Branch, task: Task, job: Job, a: Action): Job
    requires !a.Foreign?
  {
    match a
    case Clone(_) => if job.phase != Waiting then job else Started(job, remote)
    case Publish(_) =>
      if job.phase != Ready then job
      else if '\n' !in job.tree.Get(task.os) then job.(phase := Panicked)
      else job.(phase := Published, attempt := job.attempt + 1, tree := Edited(job.tree, task))
    case MakeCommit(j) =>
      if job.phase != Published then job
      else if job.tree == Tip(job.master) then job.(phase := NothingToCommit)
      else job.(phase := Committed, master := job.master + [Commit(Ours(j), job.tree)])
    case Push(_, _) =>
      if job.phase != Committed then job
      else if !GoesThrough(remote, job, a) then job.(phase := Rejected)
      else if a.fate == Accepted then job.(phase := Succeeded, arrived := job.arrived + 1)
      else job.(phase := Rejected, arrived := job.arrived + 1, lost := job.lost + 1)
    case Fetch(_) => if job.phase != Rejected then job else job.(phase := Fetched, origin := remote)
    case ResetHard(_) => if job.phase != Fetched then job else Started(job, job.origin)
  }

  function Step(tasks: seq<Task>, w: World, a: Action): (w': World)
    requires |w.jobs| == |tasks|
    ensures |w'.jobs| == |tasks|
  {
    if a.Foreign? then w.(remote := w.remote + [Commit(Others, Tip(w.remote))])
    else if a.j >= |tasks| then w
    else
      var job := w.jobs[a.j];
      World(if GoesThrough(w.remote, job, a) then job.master else w.remote,
            w.jobs[a.j := JobStep(w.remote, tasks[a.j], job, a)])
  }

  function Run(tasks: seq<Task>, w: World, actions: seq<Action>): (w': World)
    requires |w.jobs| == |tasks|
    ensures |w'.jobs| == |tasks|
    decreases |actions|
  {
    if actions == [] then w else Run(tasks, Step(tasks, w, actions[0]), actions[1..])
  }

  predicate Initial(tasks: seq<Task>, w: World) {
    && |w.jobs| == |tasks|
    && |w.remote| == 1
    && w.remote[0].author == Others
    && forall j :: 0 <= j < |tasks| ==>
         w.jobs[j].phase == Waiting && w.jobs[j].attempt == w.jobs[j].arrived == w.jobs[j].lost == 0
  }

  /** From place n on there is no commit of job j. */
  predicate NoneSince(b: seq<Commit>, n: nat, j: nat) {
    forall i :: n <= i < |b| ==> b[i].author != Ours(j)
  }

  predicate JobInv(tasks: seq<Task>, remote: Branch, j: nat, job: Job)
    requires j < |tasks|
  {
    && CommitsOf(remote, j) == job.arrived
    && job.arrived == job.lost + (if job.phase == Succeeded then 1 else 0)
    && job.arrived <= job.attempt <= ATTEMPTS
    && match job.phase
       case Ready =>
         job.master <= remote && NoneSince(remote, |job.master|, j) && job.tree == Tip(job.master) && job.attempt < ATTEMPTS
       case Published =>
         && job.master <= remote && NoneSince(remote, |job.master|, j) && job.arrived < job.attempt
         && job.tree == Edited(Tip(job.master), tasks[j])
       case Committed =>
         && |job.master| > 1 && job.master[..|job.master| - 1] <= remote && NoneSince(remote, |job.master| - 1, j)
         && job.arrived < job.attempt
         && job.master[|job.master| - 1] == Commit(Ours(j), Edited(job.master[|job.master| - 2].files, tasks[j]))
       case Fetched => job.origin <= remote && NoneSince(remote, |job.origin|, j)
       case NothingToCommit => false
       case Panicked =>
         job.attempt == ATTEMPTS
         || (job.master <= remote && job.tree == Tip(job.master) && '\n' !in job.tree.Get(tasks[j].os))
       case _ => true
  }

  predicate Inv(tasks: seq<Task>, w: World) {
    && |w.jobs| == |tasks|
    && Linked(tasks, w.remote)
    && forall j :: 0 <= j < |tasks| ==> JobInv(tasks, w.remote, j, w.jobs[j])
  }

  /** A commit that is not job j's, on top of the remote, leaves what is known of job j as it is. */
  lemma JobInvStays(tasks: seq<Task>, remote: Branch, c: Commit, j: nat, job: Job)
    requires j < |tasks| && JobInv(tasks, remote, j, job) && c.author != Ours(j)
    ensures JobInv(tasks, remote + [c], j, job)
  {
    CommitsOfOneMore(remote, c, j);
  }

  lemma LinkedMore(tasks: seq<Task>, b: Branch, c: Commit)
    requires Linked(tasks, b) && Follows(tasks, Tip(b), c)
    ensures Linked(tasks, b + [c])
  {
  }

  /** A push that goes through puts exactly one commit on top of the remote. */
  lemma PushIsOneMore(tasks: seq<Task>, remote: Branch, j: nat, job: Job)
    requires j < |tasks| && JobInv(tasks, remote, j, job) && job.phase == Committed && remote <= job.master
    ensures job.master == remote + [Commit(Ours(j), Edited(Tip(remote), tasks[j]))]
  {
    hide CommitsOf, Edited;
    var n := |job.master| - 1;
    assert job.master[n].author == Ours(j);
    assert |remote| <= n;
    assert job.master[..n] == remote;
  }

  /** Every step, of any job or of others, keeps the invariant, and the remote only grows. */
  lemma StepKeeps(tasks: seq<Task>, w: World, a: Action)
    requires Inv(tasks, w)
    ensures Inv(tasks, Step(tasks, w, a)) && w.remote <= Step(tasks, w, a).remote
  {
    hide CommitsOf, Edited;
    if a.Foreign? {
      var c := Commit(Others, Tip(w.remote));
      LinkedMore(tasks, w.remote, c);
      forall j | 0 <= j < |tasks| ensures JobInv(tasks, w.remote + [c], j, w.jobs[j]) {
        JobInvStays(tasks, w.remote, c, j, w.jobs[j]);
      }
    } else if a.j < |tasks| {
      assert JobInv(tasks, w.remote, a.j, w.jobs[a.j]);
      if GoesThrough(w.remote, w.jobs[a.j], a) {
        PushKeeps(tasks, w, a);
      } else {
        QuietStepKeeps(tasks, w, a);
      }
    }
  }

  lemma PushKeeps(tasks: seq<Task>, w: World, a: Action)
    requires Inv(tasks, w) && !a.Foreign? && a.j < |tasks| && GoesThrough(w.remote, w.jobs[a.j], a)
    ensures Inv(tasks, Step(tasks, w, a)) && w.remote <= Step(tasks, w, a).remote
  {
    hide Edited;
    var j := a.j;
    var job := w.jobs[j];
    assert JobInv(tasks, w.remote, j, job);
    hide Linked, Follows, CommitsOf;
    var c := Commit(Ours(j), Edited(Tip(w.remote), tasks[j]));
    PushIsOneMore(tasks, w.remote, j, job);
    LinkedMore(tasks, w.remote, c);
    CommitsOfOneMore(w.remote, c, j);
    assert JobInv(tasks, w.remote + [c], j, JobStep(w.remote, tasks[j], job, a));
    forall i | 0 <= i < |tasks| && i != j ensures JobInv(tasks, w.remote + [c], i, w.jobs[i]) {
      JobInvStays(tasks, w.remote, c, i, w.jobs[i]);
    }
  }

  lemma JobStepKeeps(tasks: seq<Task>, remote: Branch, job: Job, a: Action)
    requires !a.Foreign? && a.j < |tasks| && JobInv(tasks, remote, a.j, job) && !GoesThrough(remote, job, a)
    ensures JobInv(tasks, remote, a.j, JobStep(remote, tasks[a.j], job, a))
  {
    hide CommitsOf, Edited;
    if a.MakeCommit? {
      if job.phase == Published {
        TipChanges(Tip(job.master), tasks[a.j]);
        assert (job.master + [Commit(Ours(a.j), job.tree)])[..|job.master|] == job.master;
      }
    } else if a.Clone? {
      WaitingStays(tasks, remote, job, a);
    }
  }

  lemma WaitingStays(tasks: seq<Task>, remote: Branch, job: Job, a: Action)
    requires a.Clone? && a.j < |tasks| && JobInv(tasks, remote, a.j, job)
    ensures JobInv(tasks, remote, a.j, JobStep(remote, tasks[a.j], job, a))
  {
    hide CommitsOf, Edited;
  }

  /** Steps that leave the remote alone. */
  lemma QuietStepKeeps(tasks: seq<Task>, w: World, a: Action)
    requires Inv(tasks, w) && !a.Foreign? && a.j < |tasks| && !GoesThrough(w.remote, w.jobs[a.j], a)
    ensures Inv(tasks, Step(tasks, w, a)) && Step(tasks, w, a).remote == w.remote
  {
    JobStepKeeps(tasks, w.remote, w.jobs[a.j], a);
    hide Linked, JobInv, JobStep, GoesThrough;
  }

  lemma {:induction false} RunKeeps(tasks: seq<Task>, w: World, actions: seq<Action>)
    requires Inv(tasks, w)
    ensures Inv(tasks, Run(tasks, w, actions)) && w.remote <= Run(tasks, w, actions).remote
    decreases |actions|
  {
    if actions != [] {
      StepKeeps(tasks, w, actions[0]);
      RunKeeps(tasks, Step(tasks, w, actions[0]), actions[1..]);
    }
  }

  lemma {:induction false} OthersHaveNone(b: seq<Commit>, j: nat)
    requires forall i :: 0 <= i < |b| ==> b[i].author == Others
    ensures CommitsOf(b, j) == 0
    decreases |b|
  {
    if b != [] { OthersHaveNone(b[..|b| - 1], j); }
  }

  /** What the line of job j comes to, in a history with its commits. */
  predicate Accounted(tasks: seq<Task>, w: World, j: nat)
    requires j < |tasks| && Linked(tasks, w.remote) && |w.jobs| == |tasks|
  {
    var job := w.jobs[j];
    && CommitsOf(w.remote, j) == job.arrived == job.lost + (if job.phase == Succeeded then 1 else 0)
    && job.arrived <= job.attempt <= 5 && job.phase != NothingToCommit
    && (job.phase == Panicked ==> job.attempt == 5)
    && (job.arrived > 0 ==> tasks[j].record in Records(tasks, w.remote, tasks[j].os))
    && (Distinct(tasks) ==> multiset(Records(tasks, w.remote, tasks[j].os))[tasks[j].record] == job.arrived)
  }

  /** Nothing is lost: however the jobs interleave, the remote history only grows; a job gives up only after five attempts;
      each job has one commit in it for every push of its own that arrived, at most five, and as many lines, if no two jobs publish the same line; no job finds
      nothing to commit; and the tip holds the header first, then the record of every commit made since, newest first,
      then all the lines there were. */
  lemma NoUpdateLost(tasks: seq<Task>, w: World, actions: seq<Action>)
    requires Initial(tasks, w) && CleanTasks(tasks) && HasHeaders(w.remote[0].files)
    ensures var w' := Run(tasks, w, actions);
      && w.remote <= w'.remote && Linked(tasks, w'.remote)
      && (forall j :: 0 <= j < |tasks| ==> Accounted(tasks, w', j))
      && forall os ::
           var before := Lines(w.remote[0].files.Get(os));
           Lines(Tip(w'.remote).Get(os)) == [before[0]] + Records(tasks, w'.remote, os) + before[1..]
  {
    hide Run, Records, Linked, Lines, CommitsOf, Edited, Distinct, CleanTasks, HasHeaders, JobInv;
    InitialHolds(tasks, w);
    RunKeeps(tasks, w, actions);
    var w' := Run(tasks, w, actions);
    assert w'.remote[0] == w.remote[0];
    forall os ensures var before := Lines(w.remote[0].files.Get(os));
      Lines(Tip(w'.remote).Get(os)) == [before[0]] + Records(tasks, w'.remote, os) + before[1..]
    {
      TipHolds(tasks, w'.remote, os);
    }
    forall j | 0 <= j < |tasks| ensures Accounted(tasks, w', j) {
      JobAccounted(tasks, w', j);
    }
  }

  lemma InitialHolds(tasks: seq<Task>, w: World)
    requires Initial(tasks, w)
    ensures Inv(tasks, w)
  {
    forall j | 0 <= j < |tasks| ensures JobInv(tasks, w.remote, j, w.jobs[j]) {
      OthersHaveNone(w.remote, j);
    }
  }

  lemma JobAccounted(tasks: seq<Task>, w: World, j: nat)
    requires Inv(tasks, w) && j < |tasks| && w.remote[0].author == Others && CleanTasks(tasks) && HasHeaders(w.remote[0].files)
    ensures Accounted(tasks, w, j)
  {
    assert JobInv(tasks, w.remote, j, w.jobs[j]);
    if w.jobs[j].phase == Panicked && w.jobs[j].attempt != ATTEMPTS {
      HeaderStays(tasks, w.remote, w.jobs[j].master, tasks[j].os);
    }
    hide Records, Linked, CommitsOf, Distinct, Edited;
    if w.jobs[j].arrived > 0 {
      RecordIsThere(tasks, w.remote, j);
    }
    if Distinct(tasks) {
      RecordsAreCommits(tasks, w.remote, j);
    }
  }

  /** If every push that arrives is also reported, a job that reports success has exactly one commit and exactly one line,
      and any other job none. */
  lemma ExactlyOnce(tasks: seq<Task>, w: World, actions: seq<Action>, j: nat)
    requires Initial(tasks, w) && CleanTasks(tasks) && HasHeaders(w.remote[0].files) && Distinct(tasks) && j < |tasks|
    requires forall a :: a in actions && a.Push? ==> a.fate != AckLost
    ensures var w' := Run(tasks, w, actions); var n := if w'.jobs[j].phase == Succeeded then 1 else 0;
      && Linked(tasks, w'.remote)
      && CommitsOf(w'.remote, j) == multiset(Records(tasks, w'.remote, tasks[j].os))[tasks[j].record] == n
  {
    NoUpdateLost(tasks, w, actions);
    NoneLost(tasks, w, actions, j);
    assert Accounted(tasks, Run(tasks, w, actions), j);
  }

  lemma {:induction false} NoneLost(tasks: seq<Task>, w: World, actions: seq<Action>, j: nat)
    requires |w.jobs| == |tasks| && j < |tasks| && w.jobs[j].lost == 0
    requires forall a :: a in actions && a.Push? ==> a.fate != AckLost
    ensures Run(tasks, w, actions).jobs[j].lost == 0
    decreases |actions|
  {
    if actions != [] {
      hide Edited;
      assert actions[0] in actions;
      NoneLost(tasks, Step(tasks, w, actions[0]), actions[1..], j);
    }
  }

  /** The steps of one attempt. */
  function Attempt(fate: Fate): seq<Action> {
    [Publish(0), MakeCommit(0), Push(0, fate)]
  }

  /** A job alone, about to begin an attempt. */
  predicate Alone(task: Task, w: World, attempt: nat, arrived: nat) {
    && |w.jobs| == 1 && w.jobs[0].phase == Ready && w.jobs[0].attempt == attempt && w.jobs[0].arrived == arrived
    && w.jobs[0].master == w.remote && w.jobs[0].tree == Tip(w.remote) && '\n' in Tip(w.remote).Get(task.os)
  }

  lemma AttemptArrives(task: Task, w: World, fate: Fate, attempt: nat, arrived: nat)
    requires Alone(task, w, attempt, arrived) && '\n' !in task.record && fate != Refused
    ensures var w' := Run([task], w, Attempt(fate)); var job := w'.jobs[0];
      && job.phase == (if fate == Accepted then Succeeded else Rejected)
      && job.attempt == attempt + 1 && job.arrived == arrived + 1 && '\n' in Tip(w'.remote).Get(task.os)
  {
    LinesInserted(Tip(w.remote).Get(task.os), task.record);
    TipChanges(Tip(w.remote), task);
    assert '\n' in Edited(Tip(w.remote), task).Get(task.os);
    hide Inserted, Lines, Edited, Run;
    RunThree([task], w, Publish(0), MakeCommit(0), Push(0, fate));
    AttemptSteps(task, w, fate);
  }

  /** The three steps of an attempt, one after the other. */
  lemma AttemptSteps(task: Task, w: World, fate: Fate)
    requires |w.jobs| == 1 && w.jobs[0].phase == Ready && w.jobs[0].master == w.remote && w.jobs[0].tree == Tip(w.remote)
    requires '\n' in Tip(w.remote).Get(task.os) && Edited(Tip(w.remote), task) != Tip(w.remote) && fate != Refused
    ensures var w' := Step([task], Step([task], Step([task], w, Publish(0)), MakeCommit(0)), Push(0, fate));
      && w'.jobs[0].phase == (if fate == Accepted then Succeeded else Rejected)
      && w'.jobs[0].attempt == w.jobs[0].attempt + 1 && w'.jobs[0].arrived == w.jobs[0].arrived + 1
      && Tip(w'.remote) == Edited(Tip(w.remote), task)
  {
    hide Edited;
    var job := w.jobs[0];
    var w1 := Step([task], w, Publish(0));
    assert w1 == w.(jobs := [job.(phase := Published, attempt := job.attempt + 1, tree := Edited(job.tree, task))]);
    var w2 := Step([task], w1, MakeCommit(0));
    assert w2 == w1.(jobs := [w1.jobs[0].(phase := Committed, master := w.remote + [Commit(Ours(0), w1.jobs[0].tree)])]);
  }

  lemma RunThree(tasks: seq<Task>, w: World, a: Action, b: Action, c: Action)
    requires |w.jobs| == |tasks|
    ensures Run(tasks, w, [a, b, c]) == Step(tasks, Step(tasks, Step(tasks, w, a), b), c)
  {
    hide Step;
    var w1 := Step(tasks, w, a);
    var w2 := Step(tasks, w1, b);
    var none: seq<Action> := [];
    assert [a, b, c][1..] == [b, c] && [b, c][1..] == [c] && [c][1..] == none;
    assert Run(tasks, w2, [c]) == Step(tasks, w2, c) by { assert Run(tasks, Step(tasks, w2, c), none) == Step(tasks, w2, c); }
    assert Run(tasks, w1, [b, c]) == Run(tasks, w2, [c]);
    assert Run(tasks, w, [a, b, c]) == Run(tasks, w1, [b, c]);
  }

  lemma {:induction false} RunAppend(tasks: seq<Task>, w: World, a: seq<Action>, b: seq<Action>)
    requires |w.jobs| == |tasks|
    ensures Run(tasks, w, a + b) == Run(tasks, Run(tasks, w, a), b)
    decreases |a|
  {
    if a == [] {
      assert a + b == b;
    } else {
      hide Step;
      assert (a + b)[1..] == a[1..] + b;
      RunAppend(tasks, Step(tasks, w, a[0]), a[1..], b);
    }
  }

  /** One job whose first push arrives without its knowing pushes again: its line is there twice. */
  lemma LostAckDuplicates(task: Task, w: World)
    requires Initial([task], w) && CleanTasks([task]) && HasHeaders(w.remote[0].files)
    ensures var w' := Run([task], w, [Clone(0)] + Attempt(AckLost) + [Fetch(0), ResetHard(0)] + Attempt(Accepted));
      && w'.jobs[0].phase == Succeeded && Linked([task], w'.remote)
      && CommitsOf(w'.remote, 0) == multiset(Records([task], w'.remote, task.os))[task.record] == 2
  {
    var clone, back := [Clone(0)], [Fetch(0), ResetHard(0)];
    var w1 := Run([task], w, clone);
    assert clone[1..] == [] && w1 == Step([task], w, Clone(0));
    assert '\n' !in task.record by { assert '\n' !in [task][0].record; }
    assert Alone(task, w1, 0, 0);
    hide Run, Step, Alone, Lines, Inserted, Records, Initial;
    AttemptArrives(task, w1, AckLost, 0, 0);
    var w2 := Run([task], w1, Attempt(AckLost));
    BackAgain(task, w2, 1, 1);
    var w3 := Run([task], w2, back);
    AttemptArrives(task, w3, Accepted, 1, 1);
    var whole := clone + Attempt(AckLost) + back + Attempt(Accepted);
    RunAppend([task], w, clone, Attempt(AckLost));
    RunAppend([task], w, clone + Attempt(AckLost), back);
    RunAppend([task], w, clone + Attempt(AckLost) + back, Attempt(Accepted));
    NoUpdateLost([task], w, whole);
    assert Accounted([task], Run([task], w, whole), 0);
  }

  /** After a push that it took for failed, a job alone is ready again, with its own commit in its checkout. */
  lemma BackAgain(task: Task, w: World, attempt: nat, arrived: nat)
    requires |w.jobs| == 1 && w.jobs[0].phase == Rejected && w.jobs[0].attempt == attempt < ATTEMPTS
    requires w.jobs[0].arrived == arrived && '\n' in Tip(w.remote).Get(task.os)
    ensures Alone(task, Run([task], w, [Fetch(0), ResetHard(0)]), attempt, arrived)
  {
    var back := [Fetch(0), ResetHard(0)];
    assert back[1..] == [ResetHard(0)] && [ResetHard(0)][1..] == [];
    var w1 := Step([task], w, Fetch(0));
    assert Run([task], w, back) == Run([task], w1, [ResetHard(0)]) == Step([task], w1, ResetHard(0));
  }

  // ---------------------------------------------------------------------------------------------
  // One job as the source has it: a retry loop over a checkout, while others push to the remote.

  /** A branch that ends in the edit of job me on top of the rest. */
  predicate OwnTip(b: Branch, me: nat, task: Task) {
    |b| > 1 && b[|b| - 1] == Commit(Ours(me), Edited(b[|b| - 2].files, task))
  }

  /** How the network serves a push: whether it reaches the remote, and whether the answer comes back. */
  datatype Link = Link(reached: bool, heard: bool)

  /** A push of a branch over a link, to a remote that holds another. */
  datatype Tried = Tried(branch: Branch, before: Branch, link: Link)

  /** The push is reported as done. */
  predicate Answered(p: Tried) {
    p.link.reached && p.link.heard && p.before <= p.branch
  }

  /** To the pushes before, a job has added as many as there are links, one over each, and each of one new commit. */
  predicate Pushes(before: seq<Tried>, after: seq<Tried>, links: seq<Link>, me: nat, task: Task) {
    && |after| == |before| + |links| && before <= after
    && forall i :: |before| <= i < |after| ==> after[i].link == links[i - |before|] && OwnTip(after[i].branch, me, task)
  }

  predicate NoneAnswered(pushes: seq<Tried>, n: nat) {
    forall i :: n <= i < |pushes| ==> !Answered(pushes[i])
  }

  lemma PushesMore(before: seq<Tried>, mid: seq<Tried>, after: seq<Tried>, links: seq<Link>, i: nat, me: nat, task: Task)
    requires i < |links| && Pushes(before, mid, links[..i], me, task) && NoneAnswered(mid, |before|)
    requires mid <= after && |after| == |mid| + 1 && after[|mid|].link == links[i] && OwnTip(after[|mid|].branch, me, task)
    ensures Pushes(before, after, links[..i + 1], me, task)
    ensures !Answered(after[|mid|]) ==> NoneAnswered(after, |before|)
  {
    hide OwnTip, Answered;
    assert forall j :: |before| <= j < |mid| ==> after[j] == mid[j];
  }

  class Remote {
    const tasks: seq<Task>
    var history: Branch
    /** For the record: every push that has been tried. */
    var pushes: seq<Tried>

    constructor (tasks: seq<Task>, history: Branch)
      ensures this.tasks == tasks && this.history == history && pushes == []
    {
      this.tasks, this.history, pushes := tasks, history, [];
    }

    /** Anything others may do to the remote meanwhile. */
    method Meanwhile(me: nat)
      requires Linked(tasks, history)
      modifies this`history
      ensures Linked(tasks, history) && old(history) <= history && NoneSince(history, |old(history)|, me)
      ensures CommitsOf(history, me) == CommitsOf(old(history), me)
    {
      var later: Branch :| Linked(tasks, later) && history <= later && NoneSince(later, |history|, me);
      NoneSinceCount(history, later, me);
      history := later;
    }

    /** git fetch, some time later. */
    method Fetch(me: nat) returns (branch: Branch)
      requires Linked(tasks, history)
      modifies this`history
      ensures Linked(tasks, history) && old(history) <= history == branch
      ensures CommitsOf(history, me) == CommitsOf(old(history), me)
    {
      Meanwhile(me);
      return history;
    }

    /** git push: if the remote is reached, it accepts a fast-forward and nothing else; its answer may get lost. */
    method Receive(branch: Branch, link: Link) returns (ok: bool)
      modifies this
      ensures history == if link.reached && old(history) <= branch then branch else old(history)
      ensures pushes == old(pushes) + [Tried(branch, old(history), link)]
      ensures ok <==> Answered(pushes[|pushes| - 1])
    {
      pushes := pushes + [Tried(branch, history, link)];
      if !link.reached || !(history <= branch) {
        return false;
      }
      history := branch;
      return link.heard;
    }
  }

  class Checkout {
    const task: Task
    var master: Branch
    var origin: Branch
    var tree: Files

    constructor (task: Task, remote: Remote)
      ensures this.task == task && master == origin == remote.history && tree == Tip(master)
    {
      this.task, master, origin, tree := task, remote.history, remote.history, Tip(remote.history);
    }

    /** publish_test_results: the insertion after the first line, in place. Without a line end it panics. */
    method PublishTestResults() returns (ok: bool)
      modifies this`tree
      ensures ok <==> '\n' in old(tree).Get(task.os)
      ensures tree == if ok then Edited(old(tree), task) else old(tree)
    {
      var file := tree.Get(task.os);
      var endOfFirstLine := 0;
      while endOfFirstLine < |file| && file[endOfFirstLine] != '\n'
        invariant endOfFirstLine <= |file| && forall k :: 0 <= k < endOfFirstLine ==> file[k] != '\n'
      {
        endOfFirstLine := endOfFirstLine + 1;
      }
      if endOfFirstLine == |file| {
        return false;
      }
      assert FirstNewline(file) == endOfFirstLine;
      file := file[..endOfFirstLine] + "\n" + task.record + file[endOfFirstLine..];
      tree := tree.Put(task.os, file);
      return true;
    }

    /** The checkout is clean, at a tip that the remote has had, since when job me has put nothing on top; it has put n
        commits there in all. */
    ghost predicate Underway(remote: Remote, me: nat, n: nat)
      reads this, remote
    {
      && me < |remote.tasks| && remote.tasks[me] == task
      && Linked(remote.tasks, remote.history) && master <= remote.history && tree == Tip(master)
      && NoneSince(remote.history, |master|, me) && CommitsOf(remote.history, me) == n
    }

    /** git fetch and git reset --hard, while others go on. */
    method Refresh(remote: Remote, me: nat, ghost n: nat)
      requires me < |remote.tasks| && remote.tasks[me] == task
      requires Linked(remote.tasks, remote.history) && CommitsOf(remote.history, me) == n
      modifies this, remote`history
      ensures old(remote.history) <= remote.history && Underway(remote, me, n)
    {
      hide Linked, CommitsOf, NoneSince;
      origin := remote.Fetch(me);
      remote.Meanwhile(me);
      master, tree := origin, Tip(origin);
    }

    /** One round of the loop: one push, of one new commit, unless there is no header. A round that ends without a push
        reported as done leaves the checkout at a later tip. */
    method TryOnce(remote: Remote, me: nat, link: Link, ghost n: nat) returns (end: RoundEnd, ghost arrived: bool)
      requires Underway(remote, me, n)
      modifies this, remote
      ensures old(remote.history) <= remote.history
      ensures end == NoHeader <==> '\n' !in old(tree).Get(task.os)
      ensures end == NoHeader ==> unchanged(this) && unchanged(remote)
      ensures end != NothingNew
      ensures end == Pushed || end == PushFailed ==>
                && |remote.pushes| == |old(remote.pushes)| + 1 && old(remote.pushes) <= remote.pushes
                && var t := remote.pushes[|old(remote.pushes)|];
                && t.link == link && OwnTip(t.branch, me, task) && (Answered(t) <==> end == Pushed)
      ensures end == PushFailed ==> Underway(remote, me, n + if arrived then 1 else 0)
      ensures end == Pushed ==> Linked(remote.tasks, remote.history) && CommitsOf(remote.history, me) == n + 1
      ensures end == Pushed ==> remote.history[|remote.history| - 1].author == Ours(me)
    {
      hide Edited, Inserted, Linked, CommitsOf, NoneSince;
      var published := PublishTestResults();
      if !published {
        return NoHeader, false;
      }
      ghost var base, earlier := master, remote.history;
      TipChanges(Tip(master), task);
      if tree == Tip(master) {
        return NothingNew, false;
      }
      master := master + [Commit(Ours(me), tree)];
      assert OwnTip(master, me, task);
      hide OwnTip;
      remote.Meanwhile(me);
      ghost var before := remote.history;
      NoneSinceJoin(earlier, before, |base|, me);
      var pushed := remote.Receive(master, link);
      arrived := link.reached && before <= master;
      if arrived {
        OwnCommitPushed(remote.tasks, base, before, me);
      }
      if pushed {
        return Pushed, arrived;
      }
      Refresh(remote, me, n + if arrived then 1 else 0);
      return PushFailed, arrived;
    }

    /** commit_toolstate_change: at most five attempts, over links that the network provides. The remote gets one commit of
        this job for each push that arrives, each on top of all that was there. Success is reported exactly when a push,
        the last one, is answered; failure only when a file without a header line has turned up, or after five pushes of
        which none was answered. */
    method CommitToolstateChange(remote: Remote, me: nat, links: seq<Link>) returns (success: bool, ghost lost: nat, ghost rounds: nat)
      requires me < |remote.tasks| && remote.tasks[me] == task && |links| == 5
      requires Linked(remote.tasks, remote.history) && CommitsOf(remote.history, me) == 0
      requires master <= remote.history && tree == Tip(master)
      modifies this, remote
      ensures old(remote.history) <= remote.history && Linked(remote.tasks, remote.history)
      ensures CommitsOf(remote.history, me) == (lost + if success then 1 else 0) <= rounds
      ensures success ==> remote.history[|remote.history| - 1].author == Ours(me)
      ensures rounds <= 5 && Pushes(old(remote.pushes), remote.pushes, links[..rounds], me, task)
      ensures success ==> rounds > 0 && Answered(remote.pushes[|remote.pushes| - 1])
      ensures !success ==>
                && NoneAnswered(remote.pushes, |old(remote.pushes)|)
                && (rounds == 5 || '\n' !in tree.Get(task.os))
      ensures !success && CleanTasks(remote.tasks) && HasHeaders(old(remote.history)[0].files) ==> rounds == 5
    {
      NoneIsNone(remote.history, me);
      assert Underway(remote, me, 0);
      hide OwnTip, CleanTasks, HasHeaders, Answered, Underway, Linked, CommitsOf;
      lost, rounds := 0, 0;
      assert links[..0] == [];
      for i := 0 to ATTEMPTS
        invariant rounds == i && lost <= i && Underway(remote, me, lost)
        invariant old(remote.history) <= remote.history
        invariant Pushes(old(remote.pushes), remote.pushes, links[..i], me, task)
        invariant NoneAnswered(remote.pushes, |old(remote.pushes)|)
      {
        hide Pushes, NoneAnswered;
        StillHeaded(remote, me, lost);
        ghost var before := remote.pushes;
        var end, arrived := TryOnce(remote, me, links[i], lost);
        if end == NoHeader {
          UnderwayLinked(remote, me, lost);
          return false, lost, rounds;
        }
        rounds := i + 1;
        PushesMore(old(remote.pushes), before, remote.pushes, links, i, me, task);
        if end == NothingNew || end == Pushed {
          return true, lost, rounds;
        }
        lost := lost + if arrived then 1 else 0;
      }
      UnderwayLinked(remote, me, lost);
      return false, lost, rounds;
    }

    lemma UnderwayLinked(remote: Remote, me: nat, n: nat)
      requires Underway(remote, me, n)
      ensures Linked(remote.tasks, remote.history) && CommitsOf(remote.history, me) == n
    {
    }

    /** If every file of the repository had a header at first, the one in the checkout has. */
    lemma StillHeaded(remote: Remote, me: nat, n: nat)
      requires Underway(remote, me, n)
      ensures CleanTasks(remote.tasks) && HasHeaders(remote.history[0].files) ==> '\n' in tree.Get(task.os)
    {
      if CleanTasks(remote.tasks) && HasHeaders(remote.history[0].files) {
        HeaderStays(remote.tasks, remote.history, master, task.os);
      }
    }
  }

  /** No branch of the repository loses the header. */
  lemma HeaderStays(tasks: seq<Task>, remote: Branch, b: Branch, os: Os)
    requires Linked(tasks, remote) && CleanTasks(tasks) && HasHeaders(remote[0].files) && b <= remote
    ensures '\n' in Tip(b).Get(os)
  {
    assert forall i :: 0 < i < |b| ==> Follows(tasks, remote[i - 1].files, remote[i]);
    assert Linked(tasks, b);
    hide Linked, Records, Lines;
    TipHolds(tasks, b, os);
  }

  /** How a round of the loop ends: the file has no header line, there is nothing to commit, the push is reported as done,
      or as failed. */
  datatype RoundEnd = NoHeader | NothingNew | Pushed | PushFailed

  lemma {:induction false} NoneSinceCount(b: seq<Commit>, later: seq<Commit>, j: nat)
    requires b <= later && NoneSince(later, |b|, j)
    ensures CommitsOf(later, j) == CommitsOf(b, j)
    decreases |later|
  {
    if |later| > |b| {
      NoneSinceCount(b, later[..|later| - 1], j);
    } else {
      assert later == b;
    }
  }

  lemma NoneSinceJoin(b: seq<Commit>, later: seq<Commit>, n: nat, j: nat)
    requires b <= later && NoneSince(b, n, j) && NoneSince(later, |b|, j)
    ensures NoneSince(later, n, j)
  {
  }

  lemma {:induction false} NoneIsNone(b: seq<Commit>, j: nat)
    requires CommitsOf(b, j) == 0
    ensures NoneSince(b, 0, j)
    decreases |b|
  {
    if b != [] {
      NoneIsNone(b[..|b| - 1], j);
    }
  }

  /** A push that arrives, of a commit made on an earlier tip, means that the tip has not moved. */
  lemma OwnCommitPushed(tasks: seq<Task>, base: Branch, before: Branch, me: nat)
    requires me < |tasks| && Linked(tasks, before) && base <= before && NoneSince(before, |base|, me)
    requires before <= base + [Commit(Ours(me), Edited(Tip(base), tasks[me]))]
    ensures base == before
    ensures var b := base + [Commit(Ours(me), Edited(Tip(base), tasks[me]))];
      Linked(tasks, b) && CommitsOf(b, me) == CommitsOf(before, me) + 1 && NoneSince(b, |b|, me)
  {
    var c := Commit(Ours(me), Edited(Tip(base), tasks[me]));
    hide Edited;
    assert (base + [c])[|base|].author == Ours(me);
    assert |before| <= |base|;
    LinkedMore(tasks, base, c);
    CommitsOfOneMore(base, c, me);
  }
}
