/** The Buildkite pipeline builders of agent/src/buildkite.rs: a pipeline of
    command steps, each with agent tags, one or more commands, a label and
    Docker plugins. Each builder changes its object in place; the value it
    leaves is stated through the `Value()` of the object. */
module Buildkite {

  /** The fields of a `DockerPlugin`. */
  datatype DockerProps = DockerProps(
    alwaysPull: bool,
    environment: seq<string>,
    image: string,
    network: string,
    privileged: bool,
    propagateEnvironment: bool,
    propagateUidGid: bool,
    volumes: seq<string>)

  /** `Plugin::Docker`: a plugin version and its settings. */
  datatype Plugin = Docker(version: string, properties: DockerProps)

  /** The fields of a `Command` step. `stepLabel` is the step's `label`. */
  datatype CommandValue = CommandValue(
    agents: map<string, string>,
    command: string,
    commands: seq<string>,
    stepLabel: string,
    plugins: seq<Plugin>)
  {
    /** `is_empty`: no agent tag, no command and no label; plugins do not
        count, so an empty step is a default step but for its plugins. */
    predicate IsEmpty()
      ensures IsEmpty() <==> this.(plugins := []) == EmptyCommand
    {
      agents == map[] && command == "" && commands == [] && stepLabel == ""
    }

    /** `Plugins::is_empty`: the step carries no plugin, so its `plugins`
        key is left out of the YAML. */
    predicate PluginsIsEmpty()
      ensures PluginsIsEmpty() <==> this.(plugins := []) == this
    {
      plugins == []
    }

    /** The single-command field and the command list are never both in
        use. */
    predicate Exclusive() {
      command == "" || commands == []
    }

    /** The commands the step runs, in order: the single command, if any,
        then the list. */
    function Script(): seq<string> {
      (if command == "" then [] else [command]) + commands
    }
  }

  /** `Command::default()`. */
  const EmptyCommand := CommandValue(map[], "", [], "", [])

  /** `Command::command`: an empty command takes the single-command field;
      otherwise a single command already there moves to the end of the list,
      and the new command is appended. */
  function WithCommand(c: CommandValue, cmd: string): CommandValue {
    if c.IsEmpty() then c.(command := cmd)
    else if c.command != "" then c.(command := "", commands := c.commands + [c.command, cmd])
    else c.(commands := c.commands + [cmd])
  }

  /** Whatever the command held before, adding one leaves at most one of the
      two fields in use. */
  lemma WithCommandExclusive(c: CommandValue, cmd: string)
    ensures WithCommand(c, cmd).Exclusive()
  {
  }

  /** Adding a command runs it after all the earlier ones; the only command
      that is lost is an empty one given to an empty step. */
  lemma WithCommandAppends(c: CommandValue, cmd: string)
    requires c.Exclusive()
    ensures cmd != "" || !c.IsEmpty() ==> WithCommand(c, cmd).Script() == c.Script() + [cmd]
    ensures cmd == "" && c.IsEmpty() ==> WithCommand(c, cmd) == c
  {
    var r := WithCommand(c, cmd);
    if !c.IsEmpty() && c.command != "" {
      assert c.commands == [];
      assert r.Script() == [] + [c.command, cmd];
    } else if !c.IsEmpty() {
      assert c.Script() == [] + c.commands;
    }
  }

  /** A step that has only agent tags, a label or plugins is not empty, so its
      first command goes straight into the list. */
  lemma FirstCommandAfterLabel(c: CommandValue, cmd: string)
    requires c.command == "" && c.commands == []
    requires c.agents != map[] || c.stepLabel != ""
    ensures WithCommand(c, cmd).command == ""
    ensures WithCommand(c, cmd).commands == [cmd]
  {
    assert !c.IsEmpty();
  }

  /** A step built from nothing by adding `cmds` in turn. */
  function Built(cmds: seq<string>): CommandValue
    decreases |cmds|
  {
    if cmds == [] then EmptyCommand else WithCommand(Built(cmds[..|cmds| - 1]), cmds[|cmds| - 1])
  }

  /** Non-empty commands added to a fresh step run in call order: one command
      sits in the single-command field, two or more fill the list. */
  lemma {:induction false} BuiltInOrder(cmds: seq<string>)
    requires forall i :: 0 <= i < |cmds| ==> cmds[i] != ""
    ensures Built(cmds).Exclusive()
    ensures Built(cmds).Script() == cmds
    ensures |cmds| == 1 ==> Built(cmds).command == cmds[0] && Built(cmds).commands == []
    ensures |cmds| >= 2 ==> Built(cmds).command == "" && Built(cmds).commands == cmds
    ensures Built(cmds).agents == map[] && Built(cmds).stepLabel == "" && Built(cmds).plugins == []
    decreases |cmds|
  {
    if cmds != [] {
      var init, last := cmds[..|cmds| - 1], cmds[|cmds| - 1];
      BuiltInOrder(init);
      var c := Built(init);
      assert Built(cmds) == WithCommand(c, last);
      assert init + [last] == cmds;
      assert last != "";
      WithCommandAppends(c, last);
      if init != [] {
        assert c.Script() != [];
        assert !c.IsEmpty();
        var r := Built(cmds);
        assert r.command == "";
        assert r.Script() == [] + r.commands;
      }
    }
  }

  /** `is_empty` does not look at the plugins. */
  lemma IsEmptyIgnoresPlugins(c: CommandValue, plugins: seq<Plugin>)
    ensures c.(plugins := plugins).IsEmpty() <==> c.IsEmpty()
  {
  }

  /** Adding a Docker plugin makes the plugin list non-empty and keeps the
      earlier plugins in front of it; whether the step is empty does not
      change. */
  lemma DockerPluginShown(c: CommandValue, version: string, props: DockerProps)
    ensures !c.(plugins := c.plugins + [Docker(version, props)]).PluginsIsEmpty()
    ensures c.(plugins := c.plugins + [Docker(version, props)]).plugins[..|c.plugins|] == c.plugins
    ensures c.(plugins := c.plugins + [Docker(version, props)]).IsEmpty() == c.IsEmpty()
  {
  }

  /** `DockerPlugin`: settings of the Docker plugin, set one at a time. */
  class DockerPlugin {
    var alwaysPull: bool
    var environment: seq<string>
    var image: string
    var network: string
    var privileged: bool
    var propagateEnvironment: bool
    var propagateUidGid: bool
    var volumes: seq<string>

    function Value(): DockerProps
      reads this
    {
      DockerProps(alwaysPull, environment, image, network, privileged,
                  propagateEnvironment, propagateUidGid, volumes)
    }

    /** `DockerPlugin::default()`. */
    constructor ()
      ensures Value() == DockerProps(false, [], "", "", false, false, false, [])
    {
      alwaysPull, environment, image, network := false, [], "", "";
      privileged, propagateEnvironment, propagateUidGid, volumes := false, false, false, [];
    }

    method AlwaysPull(b: bool)
      modifies this
      ensures Value() == old(Value()).(alwaysPull := b)
    {
      alwaysPull := b;
    }

    /** Appends one environment variable name. */
    method Environment(env: string)
      modifies this
      ensures Value() == old(Value()).(environment := old(environment) + [env])
    {
      environment := environment + [env];
    }

    method Image(image: string)
      modifies this
      ensures Value() == old(Value()).(image := image)
    {
      this.image := image;
    }

    method Network(network: string)
      modifies this
      ensures Value() == old(Value()).(network := network)
    {
      this.network := network;
    }

    method Privileged(b: bool)
      modifies this
      ensures Value() == old(Value()).(privileged := b)
    {
      privileged := b;
    }

    method PropagateEnvironment(b: bool)
      modifies this
      ensures Value() == old(Value()).(propagateEnvironment := b)
    {
      propagateEnvironment := b;
    }

    method PropagateUidGid(b: bool)
      modifies this
      ensures Value() == old(Value()).(propagateUidGid := b)
    {
      propagateUidGid := b;
    }

    /** Appends one volume mapping. */
    method Volume(volume: string)
      modifies this
      ensures Value() == old(Value()).(volumes := old(volumes) + [volume])
    {
      volumes := volumes + [volume];
    }
  }

  /** `Command`: one command step under construction. */
  class Command {
    var agents: map<string, string>
    var command: string
    var commands: seq<string>
    var stepLabel: string
    var plugins: seq<Plugin>

    function Value(): CommandValue
      reads this
    {
      CommandValue(agents, command, commands, stepLabel, plugins)
    }

    /** `Command::default()`. */
    constructor ()
      ensures Value() == EmptyCommand
    {
      agents, command, commands, stepLabel, plugins := map[], "", [], "", [];
    }

    /** `Command::is_empty`. */
    predicate IsEmpty()
      reads this
      ensures IsEmpty() <==> Value().(plugins := []) == EmptyCommand
    {
      agents == map[] && command == "" && commands == [] && stepLabel == ""
    }

    /** Inserts or overwrites one agent tag. */
    method Agent(key: string, value: string)
      modifies this
      ensures Value() == old(Value()).(agents := old(agents)[key := value])
    {
      agents := agents[key := value];
    }

    /** `Command::command`: the first command of an empty step takes the
        single-command field; later ones go to the list, which takes the
        single command first if there is one. */
    method Command(cmd: string)
      modifies this
      ensures Value() == WithCommand(old(Value()), cmd)
    {
      if IsEmpty() {
        command := cmd;
      } else {
        if command != "" {
          var first := "";
          first, command := command, first;
          commands := commands + [first];
        }
        commands := commands + [cmd];
      }
    }

    method Label(l: string)
      modifies this
      ensures Value() == old(Value()).(stepLabel := l)
    {
      stepLabel := l;
    }

    /** Appends one Docker plugin, taking the plugin's current settings. */
    method DockerPlugin(version: string, plugin: DockerPlugin)
      modifies this
      ensures Value() == old(Value()).(plugins := old(plugins) + [Docker(version, plugin.Value())])
    {
      plugins := plugins + [Docker(version, plugin.Value())];
    }
  }

  /** A pipeline step; commands are the only kind. */
  datatype Step = CommandStep(command: CommandValue)

  /** The fields of a Buildkite `Pipeline`. */
  datatype PipelineValue = PipelineValue(agents: map<string, string>, env: map<string, string>, steps: seq<Step>)

  /** `Pipeline`: the steps and agent tags of an uploaded pipeline. */
  class Pipeline {
    var agents: map<string, string>
    var env: map<string, string>
    var steps: seq<Step>

    function Value(): PipelineValue
      reads this
    {
      PipelineValue(agents, env, steps)
    }

    /** `Pipeline::default()`. */
    constructor ()
      ensures Value() == PipelineValue(map[], map[], [])
    {
      agents, env, steps := map[], map[], [];
    }

    /** Appends one command step holding the command's current fields. */
    method CommandStep(command: Command)
      modifies this
      ensures Value() == old(Value()).(steps := old(steps) + [Step.CommandStep(command.Value())])
    {
      steps := steps + [Step.CommandStep(command.Value())];
    }

    /** Inserts or overwrites one agent tag. */
    method Agent(key: string, value: string)
      modifies this
      ensures Value() == old(Value()).(agents := old(agents)[key := value])
    {
      agents := agents[key := value];
    }
  }

  /** The builder calls of the single-command example: one step whose only
      field is the command. */
  method SingleCommandPipeline() returns (p: PipelineValue)
    ensures p.steps == [Step.CommandStep(EmptyCommand.(command := "command.sh"))]
    ensures p.agents == map[] && p.env == map[]
  {
    var command := new Command();
    command.Command("command.sh");
    var pipeline := new Pipeline();
    pipeline.CommandStep(command);
    p := pipeline.Value();
  }

  /** The builder calls of the two-command example: both commands end up in
      the list, in call order. */
  method MultipleCommandsPipeline() returns (p: PipelineValue)
    ensures p.steps == [Step.CommandStep(EmptyCommand.(commands := ["command1.sh", "command2.sh"]))]
  {
    var pipeline := new Pipeline();
    var command := new Command();
    command.Command("command1.sh");
    assert command.command == "command1.sh" != "";
    command.Command("command2.sh");
    assert command.Value() == EmptyCommand.(commands := ["command1.sh", "command2.sh"]);
    pipeline.CommandStep(command);
    assert pipeline.steps == [] + [Step.CommandStep(command.Value())];
    p := pipeline.Value();
  }

  /** The builder calls of the Docker example: a step with no command and one
      plugin carrying every setting. */
  method DockerPluginPipeline() returns (p: PipelineValue)
    ensures p.steps == [Step.CommandStep(EmptyCommand.(plugins := [Docker("3.8.0", DockerProps(
      true, ["CC"], "gcr.io/bazel-public/ubuntu1804-java11", "host", true, true, true,
      ["/etc/group:/etc/group:ro"]))]))]
  {
    var command := new Command();
    var docker := new DockerPlugin();
    docker.AlwaysPull(true);
    docker.Environment("CC");
    docker.Image("gcr.io/bazel-public/ubuntu1804-java11");
    docker.Network("host");
    docker.Privileged(true);
    docker.PropagateEnvironment(true);
    docker.PropagateUidGid(true);
    docker.Volume("/etc/group:/etc/group:ro");
    assert docker.Value() == DockerProps(true, ["CC"], "gcr.io/bazel-public/ubuntu1804-java11", "host", true, true, true,
      ["/etc/group:/etc/group:ro"]);
    command.DockerPlugin("3.8.0", docker);
    assert command.plugins == [] + [Docker("3.8.0", docker.Value())];
    assert command.Value() == EmptyCommand.(plugins := [Docker("3.8.0", docker.Value())]);
    var pipeline := new Pipeline();
    pipeline.CommandStep(command);
    assert pipeline.steps == [] + [Step.CommandStep(command.Value())];
    p := pipeline.Value();
  }
}
