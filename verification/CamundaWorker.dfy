/** The external task worker: what it reports to the engine about each task it fetched. */
module CamundaWorker {
  import opened Common

  datatype Task = Task(id: Id, topic: string)

  datatype Post = Complete(task: Id) | Error(task: Id) | Failure(task: Id)

  /** Whether the variables of a task can be read, what the handler registered for a task does with it, and
      whether the engine accepts a report. */
  datatype Env = Env(parses: Task -> bool, run: (Id, Task) -> Outcome, accepts: Post -> bool)

  type Topics = map<string, Id>

  /** The reports sent for one task, and whether the last of them was accepted: a completion the engine
      refuses is followed by a failure report, any other refusal is raised, and so are variables that cannot be
      read, with no report at all. */
  function Reports(topics: Topics, task: Task, env: Env): (seq<Post>, bool) {
    if task.topic !in topics then ([Failure(task.id)], env.accepts(Failure(task.id)))
    else if !env.parses(task) then ([], false)
    else
      match env.run(topics[task.topic], task)
      case Completed =>
        if env.accepts(Complete(task.id)) then ([Complete(task.id)], true)
        else ([Complete(task.id), Failure(task.id)], env.accepts(Failure(task.id)))
      case BpmnError => ([Error(task.id)], env.accepts(Error(task.id)))
      case Raised => ([Failure(task.id)], env.accepts(Failure(task.id)))
  }

  /** What the reports of one task tell. The first tells the outcome of the handler, or the lack of one; there is
      none exactly when the variables cannot be read. A second one, a failure, follows exactly a completion that
      the engine refused. */
  ghost predicate TellsOutcome(topics: Topics, task: Task, env: Env, posts: seq<Post>, ok: bool) {
    var known := task.topic in topics;
    && |posts| <= 2
    && (posts == [] <==> known && !env.parses(task))
    && (posts != [] ==>
          && (posts[0] == Complete(task.id) <==> known && env.run(topics[task.topic], task) == Completed)
          && (posts[0] == Error(task.id) <==> known && env.run(topics[task.topic], task) == BpmnError)
          && (posts[0] == Failure(task.id) <==> !known || env.run(topics[task.topic], task) == Raised))
    && (|posts| == 2 <==> posts != [] && posts[0].Complete? && !env.accepts(posts[0]))
    && (|posts| == 2 ==> posts[1] == Failure(task.id))
    && (ok <==> posts != [] && env.accepts(posts[|posts| - 1]))
  }

  lemma ReportsTellOutcome(topics: Topics, task: Task, env: Env)
    ensures TellsOutcome(topics, task, env, Reports(topics, task, env).0, Reports(topics, task, env).1)
  {
  }

  /** The reports of a batch, in order, and how many tasks were settled before a report was refused for
      good, which abandons the rest of the batch. */
  function BatchReports(topics: Topics, tasks: seq<Task>, env: Env): (seq<Post>, nat) {
    if tasks == [] then ([], 0)
    else
      var (first, ok) := Reports(topics, tasks[0], env);
      if !ok then (first, 0)
      else
        var (rest, k) := BatchReports(topics, tasks[1..], env);
        (first + rest, k + 1)
  }

  function Accepted(posts: seq<Post>, env: Env): seq<Post> {
    if posts == [] then []
    else (if env.accepts(posts[0]) then [posts[0]] else []) + Accepted(posts[1..], env)
  }

  lemma {:induction false} AcceptedSplits(a: seq<Post>, b: seq<Post>, env: Env)
    ensures Accepted(a + b, env) == Accepted(a, env) + Accepted(b, env)
  {
    if a == [] {
      assert a + b == b;
    } else {
      assert (a + b)[1..] == a[1..] + b;
      AcceptedSplits(a[1..], b, env);
    }
  }

  lemma AcceptedOfOne(q: Post, env: Env)
    ensures Accepted([q], env) == if env.accepts(q) then [q] else []
  {
  }

  lemma AcceptedOfTwo(q: Post, r: Post, env: Env)
    ensures Accepted([q, r], env) == (if env.accepts(q) then [q] else []) + (if env.accepts(r) then [r] else [])
  {
    AcceptedSplits([q], [r], env);
    AcceptedOfOne(q, env);
    AcceptedOfOne(r, env);
    assert [q] + [r] == [q, r];
  }

  /** One task gets one accepted report, or none at all: a BPMN error exactly when its handler raised one, a
      completion exactly when its handler completed and the engine takes that, a failure exactly when it has no
      handler, its handler raised, or the engine refused the completion. */
  lemma TaskSettledAtMostOnce(topics: Topics, task: Task, env: Env)
    ensures var (posts, ok) := Reports(topics, task, env);
            && |Accepted(posts, env)| == (if ok then 1 else 0)
            && (forall q :: q in posts ==> q.task == task.id)
            && (ok ==> var q := Accepted(posts, env)[0];
                       && q.task == task.id
                       && (q.Error? <==> task.topic in topics && env.run(topics[task.topic], task) == BpmnError)
                       && (q.Complete? <==> task.topic in topics && env.run(topics[task.topic], task) == Completed
                                            && env.accepts(Complete(task.id)))
                       && (q.Failure? <==> task.topic in topics ==>
                             env.run(topics[task.topic], task) == Raised
                             || (env.run(topics[task.topic], task) == Completed && !env.accepts(Complete(task.id)))))
  {
    AcceptedOfOne(Complete(task.id), env);
    AcceptedOfOne(Error(task.id), env);
    AcceptedOfOne(Failure(task.id), env);
    AcceptedOfTwo(Complete(task.id), Failure(task.id), env);
  }

  /** What the engine has accepted when the first k tasks of a batch are settled and no more. */
  ghost predicate Settles(topics: Topics, tasks: seq<Task>, env: Env, posts: seq<Post>, k: nat) {
    && k <= |tasks|
    && |Accepted(posts, env)| == k
    && (forall i :: 0 <= i < k ==> Accepted(posts, env)[i].task == tasks[i].id
                                   && [Accepted(posts, env)[i]] == Accepted(Reports(topics, tasks[i], env).0, env))
    && (forall q :: q in posts ==> exists i :: 0 <= i < |tasks| && i <= k && tasks[i].id == q.task)
    && (forall i :: 0 <= i < k ==> Reports(topics, tasks[i], env).1)
    && (k < |tasks| ==> !Reports(topics, tasks[k], env).1)
  }

  lemma OneMoreSettled(topics: Topics, tasks: seq<Task>, env: Env, rest: seq<Post>, k: nat)
    requires tasks != [] && Reports(topics, tasks[0], env).1 && Settles(topics, tasks[1..], env, rest, k)
    ensures Settles(topics, tasks, env, Reports(topics, tasks[0], env).0 + rest, k + 1)
  {
  }

  /** Whatever the handlers do and whatever the engine accepts: of a batch some first part is settled, each
      task by exactly one accepted report, in order; for the rest no report is accepted, and the engine
      will hand those tasks out again. */
  lemma {:induction false} BatchSettlesAPrefix(topics: Topics, tasks: seq<Task>, env: Env)
    ensures var (posts, k) := BatchReports(topics, tasks, env); Settles(topics, tasks, env, posts, k)
  {
    if tasks != [] {
      TaskSettledAtMostOnce(topics, tasks[0], env);
      if Reports(topics, tasks[0], env).1 {
        var (rest, k) := BatchReports(topics, tasks[1..], env);
        BatchSettlesAPrefix(topics, tasks[1..], env);
        OneMoreSettled(topics, tasks, env, rest, k);
      } else {
        assert forall q :: q in Reports(topics, tasks[0], env).0 ==> tasks[0].id == q.task;
      }
    }
  }

  /** The latest subscription to a topic decides what is done with its tasks, and nothing about other topics. */
  lemma LatestSubscriptionDecides(topics: Topics, topic: string, handler: Id, task: Task, env: Env)
    ensures Reports(topics[topic := handler], task, env)
         == if task.topic == topic then Reports(map[topic := handler], task, env) else Reports(topics, task, env)
  {
  }

  class CamundaRestWorker {
    var topics: Topics
    var sent: seq<Post>

    constructor ()
      ensures topics == map[] && sent == []
    {
      topics, sent := map[], [];
    }

    method Subscribe(topic: string, handler: Id)
      modifies this`topics
      ensures topics == old(topics)[topic := handler]
    {
      topics := topics[topic := handler];
    }

    /** Sends one report; a refusal is an exception in the caller. */
    method Send(post: Post, env: Env) returns (ok: bool)
      modifies this`sent
      ensures sent == old(sent) + [post] && ok == env.accepts(post)
    {
      sent := sent + [post];
      ok := env.accepts(post);
    }

    /** ok is false when an exception escapes. */
    method HandleTask(task: Task, env: Env) returns (ok: bool)
      modifies this`sent
      ensures (sent, ok) == (old(sent) + Reports(topics, task, env).0, Reports(topics, task, env).1)
      ensures old(sent) <= sent && TellsOutcome(topics, task, env, sent[|old(sent)|..], ok)
    {
      if task.topic !in topics {
        ok := Send(Failure(task.id), env);
        return;
      }
      assert sent + [] == sent;
      if !env.parses(task) { return false; }
      var outcome := env.run(topics[task.topic], task);
      if outcome == BpmnError {
        ok := Send(Error(task.id), env);
        return;
      }
      if outcome == Completed {
        ok := Send(Complete(task.id), env);
        if ok { return; }
      }
      ok := Send(Failure(task.id), env);
      assert old(sent) + [Complete(task.id)] + [Failure(task.id)] == old(sent) + [Complete(task.id), Failure(task.id)];
    }

    /** One round of the loop: the batch is worked off until an exception escapes. */
    method HandleBatch(tasks: seq<Task>, env: Env) returns (settled: nat)
      modifies this`sent
      ensures (sent, settled) == (old(sent) + BatchReports(topics, tasks, env).0, BatchReports(topics, tasks, env).1)
    {
      settled := 0;
      assert tasks[0..] == tasks;
      while settled < |tasks|
        invariant settled <= |tasks|
        invariant old(sent) + BatchReports(topics, tasks, env).0 == sent + BatchReports(topics, tasks[settled..], env).0
        invariant BatchReports(topics, tasks, env).1 == settled + BatchReports(topics, tasks[settled..], env).1
      {
        ghost var before := sent;
        var ok := HandleTask(tasks[settled], env);
        assert tasks[settled..][1..] == tasks[settled + 1..];
        ghost var rest := BatchReports(topics, tasks[settled + 1..], env).0;
        assert sent + rest == before + (Reports(topics, tasks[settled], env).0 + rest);
        if !ok { return; }
        settled := settled + 1;
      }
      assert tasks[settled..] == [];
      assert sent + [] == sent;
    }
  }
}
