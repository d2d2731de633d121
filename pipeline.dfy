/** The Bazel CI pipeline configuration of agent/src/pipeline/mod.rs: named
    tasks, each with a platform, environment variables and build and test
    targets, and the fix-up applied after loading it. */
module Pipeline {

  /** The fields of a `Task`. */
  datatype TaskValue = TaskValue(
    platform: string,
    environment: map<string, string>,
    buildTargets: seq<string>,
    testTargets: seq<string>)

  /** `Task::default()`. */
  const EmptyTask := TaskValue("", map[], [], [])

  /** What `on_load` makes of the task stored under `name`: a task without a
      platform runs on the platform its name names. */
  function Filled(name: string, t: TaskValue): TaskValue {
    if t.platform == "" then t.(platform := name) else t
  }

  /** The tasks after `on_load`. */
  function Loaded(tasks: map<string, TaskValue>): map<string, TaskValue> {
    map name | name in tasks :: Filled(name, tasks[name])
  }

  /** `on_load` keeps every task name and every field but the platform; it
      names the platform after the task exactly where none was given. */
  lemma LoadedFillsPlatforms(tasks: map<string, TaskValue>)
    ensures Loaded(tasks).Keys == tasks.Keys
    ensures forall name :: name in tasks ==>
      var t, u := tasks[name], Loaded(tasks)[name];
      && u.environment == t.environment
      && u.buildTargets == t.buildTargets
      && u.testTargets == t.testTargets
      && (t.platform != "" ==> u == t)
      && (t.platform == "" ==> u.platform == name)
  {
  }

  /** Loading twice is loading once. */
  lemma LoadedIdempotent(tasks: map<string, TaskValue>)
    ensures Loaded(Loaded(tasks)) == Loaded(tasks)
  {
  }

  /** `Task`: one task under construction. */
  class Task {
    var platform: string
    var environment: map<string, string>
    var buildTargets: seq<string>
    var testTargets: seq<string>

    function Value(): TaskValue
      reads this
    {
      TaskValue(platform, environment, buildTargets, testTargets)
    }

    /** `Task::default()`. */
    constructor ()
      ensures Value() == EmptyTask
    {
      platform, environment, buildTargets, testTargets := "", map[], [], [];
    }

    method Platform(p: string)
      modifies this
      ensures Value() == old(Value()).(platform := p)
    {
      platform := p;
    }

    /** Inserts or overwrites one environment variable. */
    method Environment(key: string, value: string)
      modifies this
      ensures Value() == old(Value()).(environment := old(environment)[key := value])
    {
      environment := environment[key := value];
    }

    /** Appends one build target. */
    method BuildTarget(target: string)
      modifies this
      ensures Value() == old(Value()).(buildTargets := old(buildTargets) + [target])
    {
      buildTargets := buildTargets + [target];
    }

    /** Appends one test target. */
    method TestTarget(target: string)
      modifies this
      ensures Value() == old(Value()).(testTargets := old(testTargets) + [target])
    {
      testTargets := testTargets + [target];
    }
  }

  /** `Pipeline`: the tasks, by name. */
  class Pipeline {
    var tasks: map<string, TaskValue>

    /** `Pipeline::default()`. */
    constructor ()
      ensures tasks == map[]
    {
      tasks := map[];
    }

    /** Inserts or overwrites the task stored under `name` with the task's
        current fields. */
    method Task(name: string, task: Task)
      modifies this
      ensures tasks == old(tasks)[name := task.Value()]
    {
      tasks := tasks[name := task.Value()];
    }

    /** `on_load`: visit every task, in whatever order the map yields them,
        and give each one without a platform the platform of its name. */
    method OnLoad()
      modifies this
      ensures tasks == Loaded(old(tasks))
    {
      var todo := tasks.Keys;
      while todo != {}
        invariant tasks.Keys == old(tasks).Keys
        invariant todo <= tasks.Keys
        invariant forall name :: name in tasks ==>
          tasks[name] == if name in todo then old(tasks)[name] else Filled(name, old(tasks)[name])
        decreases |todo|
      {
        var name :| name in todo;
        if tasks[name].platform == "" {
          tasks := tasks[name := tasks[name].(platform := name)];
        }
        todo := todo - {name};
      }
    }
  }

  /** The tasks of the example that omits platforms: after loading, each
      task runs on the platform its name names, and nothing else changes. */
  method OmitPlatformExample() returns (loaded: map<string, TaskValue>)
    ensures loaded == map[
      "ubuntu2004" := EmptyTask.(platform := "ubuntu2004", buildTargets := ["..."]),
      "windows" := EmptyTask.(platform := "windows", buildTargets := ["..."], testTargets := ["..."])]
  {
    var ubuntu := new Task();
    ubuntu.BuildTarget("...");
    var windows := new Task();
    windows.BuildTarget("...");
    windows.TestTarget("...");
    var pipeline := new Pipeline();
    pipeline.Task("ubuntu2004", ubuntu);
    pipeline.Task("windows", windows);
    ghost var given := pipeline.tasks;
    assert "ubuntu2004" != "windows" by {
      assert "ubuntu2004"[0] != "windows"[0];
    }
    assert given.Keys == {"ubuntu2004", "windows"};
    assert given["ubuntu2004"] == EmptyTask.(buildTargets := ["..."]);
    assert given["windows"] == EmptyTask.(buildTargets := ["..."], testTargets := ["..."]);
    pipeline.OnLoad();
    loaded := pipeline.tasks;
    assert loaded.Keys == {"ubuntu2004", "windows"};
    assert loaded["ubuntu2004"] == Filled("ubuntu2004", given["ubuntu2004"]);
    assert loaded["windows"] == Filled("windows", given["windows"]);
  }
}
