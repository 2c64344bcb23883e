/**
 * The `deploy` command (cmd/deploy/command.go): a fixed table of ten steps
 * run one after the other through `utils.Spin`, stopping at the first error
 * that `Spin` lets through. The configuration steps fill in the sections of
 * the shared `Config` object in place; the network and volume steps act on
 * the host, which the model carries as a value. Everything the host or the
 * user answers (command failures, the prompt, saving the file, randomness,
 * whether the spinner starts, the terminal width) comes from an `Environment`.
 */
module Deploy {
  import opened Errors
  import C = Config
  import D = Defaults
  import opened Password
  import opened Terminal

  /** The step functions of the table, by name. */
  datatype StepId =
    | CreateNetwork | ConfigureCaddy | DeployCaddy | ConfigureMySql | CreateVolumesDirectory
    | CreateMysqlVolume | DeployMysql | ConfigureModel | CreateModelVolume | DeployModel

  /** A row of the `steps` table: the spinner label and the step to run. */
  datatype Step = Step(title: string, run: StepId)

  const Steps: seq<Step> := [
    Step("Creating Docker network", CreateNetwork),
    Step("Configuring Caddy", ConfigureCaddy),
    Step("Deploying Caddy", DeployCaddy),
    Step("Configuring MySql", ConfigureMySql),
    Step("Creating Volume Directory", CreateVolumesDirectory),
    Step("Create MySql Volume", CreateMysqlVolume),
    Step("Deploying MySql", DeployMysql),
    Step("Configuring Model", ConfigureModel),
    Step("Create Model Volume", CreateModelVolume),
    Step("Deploying Model", DeployModel)
  ]

  const ConfigurationDefined: string := "Configuration already defined"
  const NetworkExists: string := "Network already exists"
  const VolumeExists: string := "volumes directory already exists"
  const NetworkCheckContext: string := "failed to check existing networks: "
  const ChownContext: string := "failed to change ownership of the volume: "

  /** What the host has: Docker networks, paths that exist, and the owner set on a path. */
  datatype HostState = HostState(networks: set<string>, directories: set<string>, owners: map<string, (int, int)>)

  /** How the three file-system calls on one volume path go: the existence probe, the creation, the chown. */
  datatype VolumeFaults = VolumeFaults(probe: Option<Error>, mkdir: Option<Error>, chown: Option<Error>)

  /**
   * Everything outside the program a run depends on:
   *  - `docker network ls` failing, `docker network create` failing and its output;
   *  - the TLS issuer the prompt returns and its error;
   *  - what each `SaveAs` returns;
   *  - what each deployment step (template, compose up, database bootstrap,
   *    WordPress install) returns;
   *  - the file-system faults per path;
   *  - the random draws behind the generated passwords;
   *  - whether the spinner of the k-th step could be created and started;
   *  - the terminal's width, as `GetTerminalWidth` reports it.
   */
  datatype Environment = Environment(
    networkList: Option<Error>,
    networkCreate: Option<Error>,
    networkCreateOutput: string,
    tlsChoice: string,
    promptError: Option<Error>,
    caddySave: Option<Error>,
    mysqlSave: Option<Error>,
    modelSave: Option<Error>,
    deployCaddy: Option<Error>,
    deployMysql: Option<Error>,
    deployModel: Option<Error>,
    volume: string -> VolumeFaults,
    mysqlRoot: RandomSource,
    modelDbPassword: RandomSource,
    modelPassword: RandomSource,
    spinner: nat -> SpinnerStatus,
    width: int)

  /** The three optional sections of a `Config` that the configuration steps fill in. */
  datatype Sections = Sections(caddy: Option<C.CaddyConfig>, mysql: Option<C.MysqlConfig>, model: Option<C.ModelConfig>)

  /** Everything a step can change. */
  datatype World = World(sections: Sections, host: HostState)

  /** A step's returned error and the world it leaves. */
  datatype Effect = Effect(err: Option<Error>, world: World)

  function SectionsOf(cfg: C.Config): Sections
    reads cfg`caddy, cfg`mysql, cfg`model
  {
    Sections(cfg.caddy, cfg.mysql, cfg.model)
  }

  // ---------------------------------------------------------------------
  // What each step does

  /** `createDockerNetworkIfNotExists`. */
  function NetworkEffect(cfg: C.Config, w: World, env: Environment): Effect
    reads cfg`project
  {
    if env.networkList.Some? then Effect(Some(Plain(NetworkCheckContext + env.networkList.value.Message())), w)
    else if cfg.NetworkName() in w.host.networks then Effect(Some(Skipped(NetworkExists)), w)
    else if env.networkCreate.Some? then Effect(Some(Joined(env.networkCreate.value, Plain(env.networkCreateOutput))), w)
    else Effect(None, w.(host := w.host.(networks := w.host.networks + {cfg.NetworkName()})))
  }

  /**
   * `configureCaddy`: the default section is installed before the prompt, and
   * the prompt's answer is stored even when the prompt fails.
   */
  function ConfigureCaddyEffect(w: World, env: Environment): Effect
  {
    if w.sections.caddy.Some? then Effect(Some(Skipped(ConfigurationDefined)), w)
    else
      var caddy := D.NewDefaultCaddyConfig().(tlsIssuer := env.tlsChoice);
      var w' := w.(sections := w.sections.(caddy := Some(caddy)));
      if env.promptError.Some? then Effect(env.promptError, w') else Effect(env.caddySave, w')
  }

  /** `configureMySql`. */
  function ConfigureMySqlEffect(w: World, env: Environment): Effect
  {
    if w.sections.mysql.Some? then Effect(Some(Skipped(ConfigurationDefined)), w)
    else Effect(env.mysqlSave, w.(sections := w.sections.(mysql := Some(D.NewDefaultMysqlConfig(env.mysqlRoot)))))
  }

  /** `configureModel`. */
  function ConfigureModelEffect(cfg: C.Config, w: World, env: Environment): Effect
    reads cfg`baseDomain
  {
    if w.sections.model.Some? then Effect(Some(Skipped(ConfigurationDefined)), w)
    else
      var model := D.NewDefaultModelConfig(cfg, env.modelDbPassword, env.modelPassword);
      Effect(env.modelSave, w.(sections := w.sections.(model := Some(model))))
  }

  /**
   * `createVolumeDirectory(cfg, path)` (and `createVolumesDirectory`, the same
   * code on `VolumePath()`): a failed probe and a failed creation are returned
   * as they are, a failed chown is reported after the directory was made.
   */
  function VolumeEffect(path: string, cfg: C.Config, w: World, env: Environment): Effect
    reads cfg`uid, cfg`gid
  {
    var faults := env.volume(path);
    if faults.probe.Some? then Effect(faults.probe, w)
    else if path in w.host.directories then Effect(Some(Skipped(VolumeExists)), w)
    else if faults.mkdir.Some? then Effect(faults.mkdir, w)
    else
      var created := w.host.(directories := w.host.directories + {path});
      if faults.chown.Some? then Effect(Some(Describe(ChownContext, faults.chown.value)), w.(host := created))
      else Effect(None, w.(host := created.(owners := created.owners[path := (cfg.uid, cfg.gid)])))
  }

  /** The step named `id`; the deployment steps only report their abstract outcome. */
  function StepEffect(id: StepId, cfg: C.Config, w: World, env: Environment): Effect
    reads cfg`project, cfg`baseDomain, cfg`uid, cfg`gid
  {
    match id
    case CreateNetwork => NetworkEffect(cfg, w, env)
    case ConfigureCaddy => ConfigureCaddyEffect(w, env)
    case DeployCaddy => Effect(env.deployCaddy, w)
    case ConfigureMySql => ConfigureMySqlEffect(w, env)
    case CreateVolumesDirectory => VolumeEffect(cfg.VolumePath(), cfg, w, env)
    case CreateMysqlVolume => VolumeEffect(cfg.MysqlVolumePath(), cfg, w, env)
    case DeployMysql => Effect(env.deployMysql, w)
    case ConfigureModel => ConfigureModelEffect(cfg, w, env)
    case CreateModelVolume => VolumeEffect(cfg.ModelVolumePath(), cfg, w, env)
    case DeployModel => Effect(env.deployModel, w)
  }

  // ---------------------------------------------------------------------
  // The loop of `action`

  /**
   * What running the table from row i on yields: the error `action` returns,
   * the steps that ran, what each of them returned before `Spin`, the final
   * world, and whether drawing a spinner line panicked (then err is None).
   */
  datatype Report = Report(err: Option<Error>, ran: seq<StepId>, raw: seq<Option<Error>>, world: World, panicked: bool)

  /**
   * Whether the line `Spin` builds for a row before starting its spinner,
   * `GetFullLine(label, "", '─', 1)`, panics (`PrefixPanicsAgrees`). It
   * depends on the label and the width alone, so it is known before the run.
   */
  predicate PrefixPanics(row: Step, width: int)
  {
    |row.title| + 2 == width
  }

  lemma PrefixPanicsAgrees(row: Step, width: int)
    ensures PrefixPanics(row, width) <==> GetFullLine(row.title, "", '─', 1, width).None?
  {
  }

  /**
   * The rows of `table` from row i on, each through `Spin`: the prefix line
   * is drawn (it may panic before the step runs), the step runs, a started
   * spinner draws its stop line (it may panic), and the run stops after the
   * first row whose error `Spin` lets through. `RunFromInOrder`,
   * `RunFromPassesEarlierRows`, `RunFromStopsAtError` and `RunFromPanicsWhere`
   * state what this means.
   */
  function RunFrom(table: seq<Step>, i: nat, cfg: C.Config, w: World, env: Environment): (r: Report)
    requires i <= |table|
    reads cfg`project, cfg`baseDomain, cfg`uid, cfg`gid
    ensures |r.ran| == |r.raw| <= |table| - i
    ensures r.panicked ==> r.err.None?
    decreases |table| - i
  {
    if i == |table| then Report(None, [], [], w, false)
    else if PrefixPanics(table[i], env.width) then Report(None, [], [], w, true)
    else
      var e := StepEffect(table[i].run, cfg, w, env);
      if StopLinePanics(table[i].title, env.spinner(i), e.err, env.width) then
        Report(None, [table[i].run], [e.err], e.world, true)
      else
        var shown := Spin(env.spinner(i), e.err);
        if shown.Some? then Report(shown, [table[i].run], [e.err], e.world, false)
        else
          var rest := RunFrom(table, i + 1, cfg, e.world, env);
          Report(rest.err, [table[i].run] + rest.ran, [e.err] + rest.raw, rest.world, rest.panicked)
  }

  /** Row i draws both its lines and `Spin` lets nothing through, so the run goes on to row i+1. */
  ghost predicate PassesRow(table: seq<Step>, i: nat, cfg: C.Config, w: World, env: Environment)
    requires i < |table|
    reads cfg`project, cfg`baseDomain, cfg`uid, cfg`gid
  {
    var e := StepEffect(table[i].run, cfg, w, env);
    && !PrefixPanics(table[i], env.width)
    && !StopLinePanics(table[i].title, env.spinner(i), e.err, env.width)
    && Spin(env.spinner(i), e.err).None?
  }

  /** The rows that ran are rows i, i+1, … of the table, in order, each once. */
  lemma {:induction false} RunFromInOrder(table: seq<Step>, i: nat, cfg: C.Config, w: World, env: Environment)
    requires i <= |table|
    ensures forall k :: 0 <= k < |RunFrom(table, i, cfg, w, env).ran| ==>
              RunFrom(table, i, cfg, w, env).ran[k] == table[i + k].run
    decreases |table| - i
  {
    if i < |table| {
      var e := StepEffect(table[i].run, cfg, w, env);
      if PassesRow(table, i, cfg, w, env) {
        RunFromInOrder(table, i + 1, cfg, e.world, env);
        var rest := RunFrom(table, i + 1, cfg, e.world, env);
        var r := RunFrom(table, i, cfg, w, env);
        assert r.ran == [table[i].run] + rest.ran;
        forall k | 1 <= k < |r.ran|
          ensures r.ran[k] == table[i + k].run
        {
          assert r.ran[k] == rest.ran[k - 1];
        }
      }
    }
  }

  /** Every row that ran before the last came through `Spin` as nil. */
  lemma {:induction false} RunFromPassesEarlierRows(table: seq<Step>, i: nat, cfg: C.Config, w: World, env: Environment)
    requires i <= |table|
    ensures forall k :: 0 <= k < |RunFrom(table, i, cfg, w, env).ran| - 1 ==>
              Spin(env.spinner(i + k), RunFrom(table, i, cfg, w, env).raw[k]).None?
    decreases |table| - i
  {
    if i < |table| {
      var e := StepEffect(table[i].run, cfg, w, env);
      if PassesRow(table, i, cfg, w, env) {
        RunFromPassesEarlierRows(table, i + 1, cfg, e.world, env);
        var rest := RunFrom(table, i + 1, cfg, e.world, env);
        var r := RunFrom(table, i, cfg, w, env);
        assert r.raw == [e.err] + rest.raw;
        forall k | 1 <= k < |r.ran| - 1
          ensures Spin(env.spinner(i + k), r.raw[k]).None?
        {
          assert r.raw[k] == rest.raw[k - 1];
        }
      }
    }
  }

  /**
   * A run that neither panics nor returns an error ran every row from i on,
   * and the last of them came through `Spin` as nil.
   */
  lemma {:induction false} RunFromCompletes(table: seq<Step>, i: nat, cfg: C.Config, w: World, env: Environment)
    requires i <= |table|
    ensures var r := RunFrom(table, i, cfg, w, env);
            r.err.None? && !r.panicked ==>
              |r.ran| == |table| - i && (0 < |r.ran| ==> Spin(env.spinner(i + |r.ran| - 1), r.raw[|r.ran| - 1]).None?)
    decreases |table| - i
  {
    if i < |table| {
      var e := StepEffect(table[i].run, cfg, w, env);
      var r := RunFrom(table, i, cfg, w, env);
      RunFromUnfold(table, i, cfg, w, env, e);
      if PassesRow(table, i, cfg, w, env) {
        RunFromCompletes(table, i + 1, cfg, e.world, env);
        var rest := RunFrom(table, i + 1, cfg, e.world, env);
        var n := |rest.ran|;
        assert r == Prefixed([table[i].run], [e.err], rest);
        assert r.raw == [e.err] + rest.raw && |r.ran| == n + 1;
        if 0 < n {
          assert r.raw[n] == rest.raw[n - 1];
        }
      }
    }
  }

  /** A run that returns an error returns what `Spin` made of the last row that ran. */
  lemma {:induction false} RunFromReturnsLastError(table: seq<Step>, i: nat, cfg: C.Config, w: World, env: Environment)
    requires i <= |table|
    ensures var r := RunFrom(table, i, cfg, w, env);
            r.err.Some? ==> 0 < |r.ran| && r.err == Spin(env.spinner(i + |r.ran| - 1), r.raw[|r.ran| - 1])
    decreases |table| - i
  {
    if i < |table| {
      var e := StepEffect(table[i].run, cfg, w, env);
      var r := RunFrom(table, i, cfg, w, env);
      RunFromUnfold(table, i, cfg, w, env, e);
      if PassesRow(table, i, cfg, w, env) {
        RunFromReturnsLastError(table, i + 1, cfg, e.world, env);
        var rest := RunFrom(table, i + 1, cfg, e.world, env);
        var n := |rest.ran|;
        assert r == Prefixed([table[i].run], [e.err], rest);
        assert r.raw == [e.err] + rest.raw && |r.ran| == n + 1;
        if 0 < n {
          assert r.raw[n] == rest.raw[n - 1];
        }
      }
    }
  }

  /**
   * A run that does not panic returns nil exactly when every row from i on
   * ran and the last came through as nil; otherwise it returns the error
   * that the last row that ran let through, and no row after it ran.
   */
  lemma RunFromStopsAtError(table: seq<Step>, i: nat, cfg: C.Config, w: World, env: Environment)
    requires i <= |table|
    ensures var r := RunFrom(table, i, cfg, w, env);
            && (i < |table| ==> 0 < |r.ran| || r.panicked)
            && (r.err.None? && !r.panicked ==> |r.ran| == |table| - i)
            && (r.err.None? && !r.panicked && 0 < |r.ran| ==> Spin(env.spinner(i + |r.ran| - 1), r.raw[|r.ran| - 1]).None?)
            && (r.err.Some? ==> !r.panicked && 0 < |r.ran| && r.err == Spin(env.spinner(i + |r.ran| - 1), r.raw[|r.ran| - 1]))
  {
    RunFromCompletes(table, i, cfg, w, env);
    RunFromReturnsLastError(table, i, cfg, w, env);
    if i < |table| {
      RunFromUnfold(table, i, cfg, w, env, StepEffect(table[i].run, cfg, w, env));
    }
  }

  /**
   * A run that panics stops on a drawn line: either the prefix line of the
   * row after the last one that ran, or the stop line of the last one that ran.
   */
  lemma {:induction false} RunFromPanicsWhere(table: seq<Step>, i: nat, cfg: C.Config, w: World, env: Environment)
    requires i <= |table|
    ensures var r := RunFrom(table, i, cfg, w, env);
            var n := |r.ran|;
            r.panicked ==>
              || (i + n < |table| && PrefixPanics(table[i + n], env.width))
              || (0 < n && StopLinePanics(table[i + n - 1].title, env.spinner(i + n - 1), r.raw[n - 1], env.width))
    decreases |table| - i
  {
    if i < |table| {
      var e := StepEffect(table[i].run, cfg, w, env);
      var r := RunFrom(table, i, cfg, w, env);
      RunFromUnfold(table, i, cfg, w, env, e);
      if PrefixPanics(table[i], env.width) {
        assert r == Report(None, [], [], w, true);
      } else if StopLinePanics(table[i].title, env.spinner(i), e.err, env.width) {
        assert r == Report(None, [table[i].run], [e.err], e.world, true);
      } else if Spin(env.spinner(i), e.err).Some? {
        assert r == Report(e.err, [table[i].run], [e.err], e.world, false);
      } else {
        RunFromPanicsWhere(table, i + 1, cfg, e.world, env);
        var rest := RunFrom(table, i + 1, cfg, e.world, env);
        var n := |rest.ran|;
        assert r == Prefixed([table[i].run], [e.err], rest);
        assert r.raw == [e.err] + rest.raw && |r.ran| == n + 1 && r.panicked == rest.panicked;
        if 0 < n {
          assert r.raw[n] == rest.raw[n - 1];
        }
      }
    }
  }

  /** No row at or after the first whose prefix line panics ever runs. */
  lemma {:induction false} RunFromBeforePrefixPanic(table: seq<Step>, i: nat, cfg: C.Config, w: World, env: Environment)
    requires i <= FirstPanickingRow(table, env.width)
    ensures i + |RunFrom(table, i, cfg, w, env).ran| <= FirstPanickingRow(table, env.width)
    decreases |table| - i
  {
    var p := FirstPanickingRow(table, env.width);
    if i < p {
      var e := StepEffect(table[i].run, cfg, w, env);
      assert |table[i].title| + 2 != env.width;
      RunFromUnfold(table, i, cfg, w, env, e);
      if PassesRow(table, i, cfg, w, env) {
        RunFromBeforePrefixPanic(table, i + 1, cfg, e.world, env);
      }
    } else if i < |table| {
      RunFromUnfold(table, i, cfg, w, env, StepEffect(table[i].run, cfg, w, env));
    }
  }

  /** `rest` with rows that ran before it put in front. */
  function Prefixed(ran: seq<StepId>, raw: seq<Option<Error>>, rest: Report): Report
  {
    Report(rest.err, ran + rest.ran, raw + rest.raw, rest.world, rest.panicked)
  }

  // ---------------------------------------------------------------------
  // The steps as the program runs them, on the shared configuration

  method ConfigureCaddyStep(cfg: C.Config, host: HostState, env: Environment) returns (err: Option<Error>)
    modifies cfg`caddy
    ensures Effect(err, World(SectionsOf(cfg), host)) == ConfigureCaddyEffect(World(old(SectionsOf(cfg)), host), env)
  {
    if cfg.caddy.Some? {
      return Some(Skipped(ConfigurationDefined));
    }
    cfg.caddy := Some(D.NewDefaultCaddyConfig());
    cfg.caddy := Some(cfg.caddy.value.(tlsIssuer := env.tlsChoice));
    if env.promptError.Some? {
      return env.promptError;
    }
    err := env.caddySave;
  }

  method ConfigureMySqlStep(cfg: C.Config, host: HostState, env: Environment) returns (err: Option<Error>)
    modifies cfg`mysql
    ensures Effect(err, World(SectionsOf(cfg), host)) == ConfigureMySqlEffect(World(old(SectionsOf(cfg)), host), env)
  {
    if cfg.mysql.Some? {
      return Some(Skipped(ConfigurationDefined));
    }
    cfg.mysql := Some(D.NewDefaultMysqlConfig(env.mysqlRoot));
    err := env.mysqlSave;
  }

  method ConfigureModelStep(cfg: C.Config, host: HostState, env: Environment) returns (err: Option<Error>)
    modifies cfg`model
    ensures Effect(err, World(SectionsOf(cfg), host)) == ConfigureModelEffect(cfg, World(old(SectionsOf(cfg)), host), env)
  {
    if cfg.model.Some? {
      return Some(Skipped(ConfigurationDefined));
    }
    cfg.model := Some(D.NewDefaultModelConfig(cfg, env.modelDbPassword, env.modelPassword));
    err := env.modelSave;
  }

  /** Calls the step function of a table row. */
  method RunStep(id: StepId, cfg: C.Config, host: HostState, env: Environment)
    returns (err: Option<Error>, host': HostState)
    modifies cfg`caddy, cfg`mysql, cfg`model
    ensures Effect(err, World(SectionsOf(cfg), host')) == StepEffect(id, cfg, World(old(SectionsOf(cfg)), host), env)
  {
    host' := host;
    match id
    case CreateNetwork =>
      var e := NetworkEffect(cfg, World(SectionsOf(cfg), host), env);
      err, host' := e.err, e.world.host;
    case ConfigureCaddy =>
      err := ConfigureCaddyStep(cfg, host, env);
    case DeployCaddy =>
      err := env.deployCaddy;
    case ConfigureMySql =>
      err := ConfigureMySqlStep(cfg, host, env);
    case CreateVolumesDirectory =>
      var e := VolumeEffect(cfg.VolumePath(), cfg, World(SectionsOf(cfg), host), env);
      err, host' := e.err, e.world.host;
    case CreateMysqlVolume =>
      var e := VolumeEffect(cfg.MysqlVolumePath(), cfg, World(SectionsOf(cfg), host), env);
      err, host' := e.err, e.world.host;
    case DeployMysql =>
      err := env.deployMysql;
    case ConfigureModel =>
      err := ConfigureModelStep(cfg, host, env);
    case CreateModelVolume =>
      var e := VolumeEffect(cfg.ModelVolumePath(), cfg, World(SectionsOf(cfg), host), env);
      err, host' := e.err, e.world.host;
    case DeployModel =>
      err := env.deployModel;
  }

  /**
   * Running from row i: a panic on the prefix line before the step, a panic
   * on the stop line after it, the error `Spin` lets through, or on to the rest.
   */
  lemma RunFromUnfold(table: seq<Step>, i: nat, cfg: C.Config, w: World, env: Environment, e: Effect)
    requires i < |table|
    requires e == StepEffect(table[i].run, cfg, w, env)
    ensures PrefixPanics(table[i], env.width) ==> RunFrom(table, i, cfg, w, env) == Report(None, [], [], w, true)
    ensures !PrefixPanics(table[i], env.width) && StopLinePanics(table[i].title, env.spinner(i), e.err, env.width) ==>
              RunFrom(table, i, cfg, w, env) == Report(None, [table[i].run], [e.err], e.world, true)
    ensures !PrefixPanics(table[i], env.width) && !StopLinePanics(table[i].title, env.spinner(i), e.err, env.width) ==>
              && (Spin(env.spinner(i), e.err).Some? ==>
                    RunFrom(table, i, cfg, w, env) == Report(e.err, [table[i].run], [e.err], e.world, false))
              && (Spin(env.spinner(i), e.err).None? ==>
                    RunFrom(table, i, cfg, w, env) == Prefixed([table[i].run], [e.err], RunFrom(table, i + 1, cfg, e.world, env)))
  {
  }

  lemma PrefixedTwice(ran: seq<StepId>, raw: seq<Option<Error>>, id: StepId, stepErr: Option<Error>, rest: Report)
    ensures Prefixed(ran, raw, Prefixed([id], [stepErr], rest)) == Prefixed(ran + [id], raw + [stepErr], rest)
  {
    assert ran + ([id] + rest.ran) == ran + [id] + rest.ran;
    assert raw + ([stepErr] + rest.raw) == raw + [stepErr] + rest.raw;
  }

  /** How `action` ends: it returns an error or nil, or a `strings.Repeat` call panics. */
  datatype Exit = Returned(err: Option<Error>) | Panicked

  /** The first row whose prefix line panics, or |table| if none does. */
  function FirstPanickingRow(table: seq<Step>, width: int): (p: nat)
    ensures p <= |table|
    ensures forall k :: 0 <= k < p ==> |table[k].title| + 2 != width
    ensures p < |table| ==> |table[p].title| + 2 == width
    decreases |table|
  {
    if table == [] then 0
    else if PrefixPanics(table[0], width) then 0
    else 1 + FirstPanickingRow(table[1..], width)
  }

  /**
   * The `for _, step := range steps` loop of `action`, with the drawing that
   * `Spin` does around each step: the prefix line, the step, the stop line
   * of a started spinner; the loop returns at the first error that comes
   * through.
   */
  method RunTable(table: seq<Step>, cfg: C.Config, host: HostState, env: Environment)
    returns (exit: Exit, ran: seq<StepId>, host': HostState)
    modifies cfg`caddy, cfg`mysql, cfg`model
    ensures var r := RunFrom(table, 0, cfg, World(old(SectionsOf(cfg)), host), env);
            && ran == r.ran && World(SectionsOf(cfg), host') == r.world
            && exit == (if r.panicked then Panicked else Returned(r.err))
  {
    ghost var start := World(SectionsOf(cfg), host);
    assert start == World(old(SectionsOf(cfg)), host);
    ghost var raw: seq<Option<Error>> := [];
    ghost var total := RunFrom(table, 0, cfg, start, env);
    ran, host' := [], host;
    var i := 0;
    assert Prefixed([], [], total) == total;
    while i < |table|
      invariant 0 <= i <= |table|
      invariant total == RunFrom(table, 0, cfg, start, env)
      invariant total == Prefixed(ran, raw, RunFrom(table, i, cfg, World(SectionsOf(cfg), host'), env))
    {
      ghost var before := World(SectionsOf(cfg), host');
      PrefixPanicsAgrees(table[i], env.width);
      if GetFullLine(table[i].title, "", '─', 1, env.width).None? {
        RunFromUnfold(table, i, cfg, before, env, StepEffect(table[i].run, cfg, before, env));
        assert ran + [] == ran;
        return Panicked, ran, host';
      }
      var stepErr;
      stepErr, host' := RunStep(table[i].run, cfg, host', env);
      ghost var after := World(SectionsOf(cfg), host');
      RunFromUnfold(table, i, cfg, before, env, Effect(stepErr, after));
      var spinner := env.spinner(i);
      StopLinePanicsAgrees(table[i].title, spinner, stepErr, env.width);
      if spinner == Started && GetFullLine(table[i].title, StopText(StopOutcome(stepErr)), '─', 1, env.width).None? {
        return Panicked, ran + [table[i].run], host';
      }
      var shown := Spin(spinner, stepErr);
      PrefixedTwice(ran, raw, table[i].run, stepErr, RunFrom(table, i + 1, cfg, after, env));
      if shown.Some? {
        return Returned(shown), ran + [table[i].run], host';
      }
      ran, raw := ran + [table[i].run], raw + [stepErr];
      i := i + 1;
    }
    assert ran + [] == ran;
    exit := Returned(None);
  }

  /** Whether one of the two separators `action` prints after the last step panics. */
  predicate FinishPanics(width: int)
  {
    SeparatorLine("Deployment finished", '═', width).None? || SeparatorLine("", '═', width).None?
  }

  /**
   * `action`: a failed load returns its error before anything else; then the
   * "Deployment" separator is printed (it may panic), the table runs on the
   * loaded configuration in place, and after a run that returned nil the
   * closing separators are printed.
   */
  method Action(cfg: C.Config, loadError: Option<Error>, host: HostState, env: Environment)
    returns (exit: Exit, ran: seq<StepId>, host': HostState)
    modifies cfg`caddy, cfg`mysql, cfg`model
    ensures loadError.Some? ==>
              exit == Returned(loadError) && ran == [] && host' == host && SectionsOf(cfg) == old(SectionsOf(cfg))
    ensures loadError.None? && SeparatorLine("Deployment", '═', env.width).None? ==>
              exit == Panicked && ran == [] && host' == host && SectionsOf(cfg) == old(SectionsOf(cfg))
    ensures loadError.None? && SeparatorLine("Deployment", '═', env.width).Some? ==>
              var r := RunFrom(Steps, 0, cfg, World(old(SectionsOf(cfg)), host), env);
              && ran == r.ran && World(SectionsOf(cfg), host') == r.world
              && exit == (if r.panicked || (r.err.None? && FinishPanics(env.width)) then Panicked
                          else Returned(r.err))
  {
    if loadError.Some? {
      return Returned(loadError), [], host;
    }
    if SeparatorLine("Deployment", '═', env.width).None? {
      return Panicked, [], host;
    }
    exit, ran, host' := RunTable(Steps, cfg, host, env);
    if exit == Returned(None) && FinishPanics(env.width) {
      exit := Panicked;
    }
  }

  // ---------------------------------------------------------------------
  // Properties

  /** The table: ten rows, in this order, each step function once. */
  lemma StepTable()
    ensures |Steps| == 10
    ensures Steps[0].title == "Creating Docker network" && Steps[9].title == "Deploying Model"
    ensures forall a, b :: 0 <= a < b < |Steps| ==> Steps[a].run != Steps[b].run
  {
  }

  /** A configuration step whose section is already set skips and changes nothing. */
  lemma ConfigureSkipsWhenDefined(id: StepId, cfg: C.Config, w: World, env: Environment)
    requires (id == ConfigureCaddy && w.sections.caddy.Some?) || (id == ConfigureMySql && w.sections.mysql.Some?)
          || (id == ConfigureModel && w.sections.model.Some?)
    ensures StepEffect(id, cfg, w, env) == Effect(Some(Skipped(ConfigurationDefined)), w)
  {
  }

  /**
   * A configuration step whose section is missing installs the default
   * section, touches nothing else, and returns what saving returns (for
   * Caddy, the prompt's error first).
   */
  lemma ConfigureInstallsDefault(cfg: C.Config, w: World, env: Environment)
    ensures w.sections.mysql.None? ==>
              var e := StepEffect(ConfigureMySql, cfg, w, env);
              e.err == env.mysqlSave && e.world.host == w.host
              && e.world.sections == w.sections.(mysql := Some(D.NewDefaultMysqlConfig(env.mysqlRoot)))
    ensures w.sections.model.None? ==>
              var e := StepEffect(ConfigureModel, cfg, w, env);
              e.err == env.modelSave && e.world.host == w.host
              && e.world.sections == w.sections.(model := Some(D.NewDefaultModelConfig(cfg, env.modelDbPassword, env.modelPassword)))
    ensures w.sections.caddy.None? ==>
              var e := StepEffect(ConfigureCaddy, cfg, w, env);
              e.err == (if env.promptError.Some? then env.promptError else env.caddySave) && e.world.host == w.host
              && e.world.sections.mysql == w.sections.mysql && e.world.sections.model == w.sections.model
              && e.world.sections.caddy.Some? && e.world.sections.caddy.value.tlsIssuer == env.tlsChoice
              && e.world.sections.caddy.value.resources.memory == "256M"
  {
  }

  /** The four outcomes of a volume step, in the order the program checks them. */
  lemma VolumeStepCases(path: string, cfg: C.Config, w: World, env: Environment)
    ensures var f, e := env.volume(path), VolumeEffect(path, cfg, w, env);
            && e.world.sections == w.sections
            && (f.probe.Some? ==> e == Effect(f.probe, w))
            && (f.probe.None? && path in w.host.directories ==> e == Effect(Some(Skipped(VolumeExists)), w))
            && (f.probe.None? && path !in w.host.directories && f.mkdir.Some? ==> e == Effect(f.mkdir, w))
            && (f.probe.None? && path !in w.host.directories && f.mkdir.None? ==>
                  && e.world.host.directories == w.host.directories + {path}
                  && e.world.host.networks == w.host.networks
                  && (f.chown.Some? ==> e.err == Some(Plain(ChownContext + f.chown.value.Message())) && e.world.host.owners == w.host.owners)
                  && (f.chown.None? ==> e.err.None? && e.world.host.owners == w.host.owners[path := (cfg.uid, cfg.gid)]))
  {
  }

  /** The four outcomes of the network step, in the order the program checks them. */
  lemma NetworkStepCases(cfg: C.Config, w: World, env: Environment)
    ensures var e := StepEffect(CreateNetwork, cfg, w, env);
            && e.world.sections == w.sections
            && e.world.host.directories == w.host.directories && e.world.host.owners == w.host.owners
            && (env.networkList.Some? ==>
                  e.err == Some(Plain(NetworkCheckContext + env.networkList.value.Message())) && e.world == w)
            && (env.networkList.None? && cfg.NetworkName() in w.host.networks ==>
                  e.err == Some(Skipped(NetworkExists)) && e.world == w)
            && (env.networkList.None? && cfg.NetworkName() !in w.host.networks && env.networkCreate.Some? ==>
                  && e.world == w
                  && e.err.Some? && e.err.value.Message() == env.networkCreate.value.Message() + "\n" + env.networkCreateOutput
                  && (e.err.value.IsSkipped() <==> env.networkCreate.value.IsSkipped()))
            && (env.networkList.None? && cfg.NetworkName() !in w.host.networks && env.networkCreate.None? ==>
                  e.err.None? && e.world.host.networks == w.host.networks + {cfg.NetworkName()})
  {
  }

  /**
   * A step that skips, under a working spinner, is followed by the next row,
   * unless its prefix line or its SKIP line panics.
   */
  lemma SkipDoesNotAbort(table: seq<Step>, i: nat, cfg: C.Config, w: World, env: Environment)
    requires i < |table|
    requires env.spinner(i) == Started
    requires StepEffect(table[i].run, cfg, w, env).err.Some? && StepEffect(table[i].run, cfg, w, env).err.value.IsSkipped()
    ensures var e := StepEffect(table[i].run, cfg, w, env);
            !PrefixPanics(table[i], env.width) && |table[i].title| + |e.err.value.Message()| + 10 != env.width ==>
              RunFrom(table, i, cfg, w, env) == Prefixed([table[i].run], [e.err], RunFrom(table, i + 1, cfg, e.world, env))
  {
    StepEffect(table[i].run, cfg, w, env).err.value.MessageLengthIsLength();
  }

  /** Without a working spinner a skip is returned as an error and the run stops there. */
  lemma SkipAbortsWithoutSpinner(table: seq<Step>, i: nat, cfg: C.Config, w: World, env: Environment)
    requires i < |table|
    requires env.spinner(i) != Started
    requires StepEffect(table[i].run, cfg, w, env).err.Some? && StepEffect(table[i].run, cfg, w, env).err.value.IsSkipped()
    ensures !PrefixPanics(table[i], env.width) ==> RunFrom(table, i, cfg, w, env).err == StepEffect(table[i].run, cfg, w, env).err
    ensures !PrefixPanics(table[i], env.width) ==> RunFrom(table, i, cfg, w, env).ran == [table[i].run]
    ensures PrefixPanics(table[i], env.width) ==> RunFrom(table, i, cfg, w, env).panicked
  {
  }

  /** What a step guarantees about the world once it has succeeded or skipped. */
  ghost predicate Established(id: StepId, cfg: C.Config, w: World)
    reads cfg`project
  {
    match id
    case CreateNetwork => cfg.NetworkName() in w.host.networks
    case ConfigureCaddy => w.sections.caddy.Some?
    case ConfigureMySql => w.sections.mysql.Some?
    case ConfigureModel => w.sections.model.Some?
    case CreateVolumesDirectory => cfg.VolumePath() in w.host.directories
    case CreateMysqlVolume => cfg.MysqlVolumePath() in w.host.directories
    case CreateModelVolume => cfg.ModelVolumePath() in w.host.directories
    case _ => true
  }

  ghost predicate AllEstablished(table: seq<Step>, cfg: C.Config, w: World)
    reads cfg`project
  {
    forall k :: 0 <= k < |table| ==> Established(table[k].run, cfg, w)
  }

  /** Steps only add: a set section keeps its value, networks and paths are never removed. */
  ghost predicate Grows(w: World, w': World)
  {
    && (w.sections.caddy.Some? ==> w'.sections.caddy == w.sections.caddy)
    && (w.sections.mysql.Some? ==> w'.sections.mysql == w.sections.mysql)
    && (w.sections.model.Some? ==> w'.sections.model == w.sections.model)
    && w.host.networks <= w'.host.networks
    && w.host.directories <= w'.host.directories
  }

  /** The failures the host reports are real errors, never a SkippedError. */
  ghost predicate NoSkippedFaults(cfg: C.Config, env: Environment)
  {
    && (env.networkCreate.Some? ==> !env.networkCreate.value.IsSkipped())
    && forall path :: path in {cfg.VolumePath(), cfg.MysqlVolumePath(), cfg.ModelVolumePath()} ==>
         (env.volume(path).probe.Some? ==> !env.volume(path).probe.value.IsSkipped())
         && (env.volume(path).mkdir.Some? ==> !env.volume(path).mkdir.value.IsSkipped())
  }

  lemma StepGrows(id: StepId, cfg: C.Config, w: World, env: Environment)
    ensures Grows(w, StepEffect(id, cfg, w, env).world)
  {
  }

  lemma EstablishedPersists(id: StepId, cfg: C.Config, w: World, w': World)
    requires Established(id, cfg, w) && Grows(w, w')
    ensures Established(id, cfg, w')
  {
  }

  lemma {:induction false} RunFromGrows(table: seq<Step>, i: nat, cfg: C.Config, w: World, env: Environment)
    requires i <= |table|
    ensures Grows(w, RunFrom(table, i, cfg, w, env).world)
    decreases |table| - i
  {
    if i < |table| {
      var e := StepEffect(table[i].run, cfg, w, env);
      StepGrows(table[i].run, cfg, w, env);
      if PassesRow(table, i, cfg, w, env) {
        RunFromGrows(table, i + 1, cfg, e.world, env);
      }
    }
  }

  /** A step whose result `Spin` turns into nil has done its job (or found it done). */
  lemma StepEstablishes(id: StepId, spinner: SpinnerStatus, cfg: C.Config, w: World, env: Environment)
    requires NoSkippedFaults(cfg, env)
    requires Spin(spinner, StepEffect(id, cfg, w, env).err).None?
    ensures Established(id, cfg, StepEffect(id, cfg, w, env).world)
  {
    var paths := {cfg.VolumePath(), cfg.MysqlVolumePath(), cfg.ModelVolumePath()};
    match id
    case CreateNetwork =>
      assert !Plain(NetworkCheckContext).IsSkipped();
      if env.networkList.None? && cfg.NetworkName() !in w.host.networks && env.networkCreate.Some? {
        assert !Joined(env.networkCreate.value, Plain(env.networkCreateOutput)).IsSkipped();
      }
    case CreateVolumesDirectory =>
      assert cfg.VolumePath() in paths;
    case CreateMysqlVolume =>
      assert cfg.MysqlVolumePath() in paths;
    case CreateModelVolume =>
      assert cfg.ModelVolumePath() in paths;
    case _ =>
  }

  /**
   * A run that returns nil (and so has not panicked) leaves every row's work
   * in place: the network exists, the three sections are set and the three
   * volume directories exist.
   */
  lemma {:induction false} SuccessfulRunEstablishes(table: seq<Step>, i: nat, cfg: C.Config, w: World, env: Environment)
    requires i <= |table|
    requires NoSkippedFaults(cfg, env)
    requires RunFrom(table, i, cfg, w, env).err.None? && !RunFrom(table, i, cfg, w, env).panicked
    ensures forall k :: i <= k < |table| ==> Established(table[k].run, cfg, RunFrom(table, i, cfg, w, env).world)
    decreases |table| - i
  {
    if i < |table| {
      var e := StepEffect(table[i].run, cfg, w, env);
      var final := RunFrom(table, i, cfg, w, env).world;
      RunFromUnfold(table, i, cfg, w, env, e);
      assert PassesRow(table, i, cfg, w, env);
      StepEstablishes(table[i].run, env.spinner(i), cfg, w, env);
      RunFromGrows(table, i + 1, cfg, e.world, env);
      EstablishedPersists(table[i].run, cfg, e.world, final);
      SuccessfulRunEstablishes(table, i + 1, cfg, e.world, env);
    }
  }

  /**
   * Once every row's work is in place, a run in which the host answers its
   * probes, the deployments succeed and every label leaves room for the
   * longest SKIP line returns nil without panicking and leaves the sections,
   * networks, volume directories and owners as they were: every
   * configuration, network and volume step skips. The deployment steps'
   * own effects on the host are not part of `World`.
   */
  lemma {:induction false} RerunKeepsWorld(table: seq<Step>, i: nat, cfg: C.Config, w: World, env: Environment)
    requires i <= |table|
    requires AllEstablished(table, cfg, w)
    requires env.networkList.None?
    requires env.volume(cfg.VolumePath()).probe.None? && env.volume(cfg.MysqlVolumePath()).probe.None?
             && env.volume(cfg.ModelVolumePath()).probe.None?
    requires env.deployCaddy.None? && env.deployMysql.None? && env.deployModel.None?
    requires forall k :: i <= k < |table| ==> env.spinner(k) == Started
    requires forall k :: i <= k < |table| ==> |table[k].title| + 43 <= env.width
    ensures RunFrom(table, i, cfg, w, env).err.None? && !RunFrom(table, i, cfg, w, env).panicked
    ensures RunFrom(table, i, cfg, w, env).world == w
    decreases |table| - i
  {
    if i < |table| {
      var id := table[i].run;
      assert Established(id, cfg, w);
      var e := StepEffect(id, cfg, w, env);
      assert e.world == w;
      assert e.err == None || e.err == Some(Skipped(ConfigurationDefined))
          || e.err == Some(Skipped(NetworkExists)) || e.err == Some(Skipped(VolumeExists));
      assert |StopText(StopOutcome(e.err))| <= 40;
      RunFromUnfold(table, i, cfg, w, env, e);
      RerunKeepsWorld(table, i + 1, cfg, w, env);
    }
  }

  /**
   * After `deploy` returns nil the Docker network exists, the three sections
   * of the configuration are set and the three volume directories exist.
   */
  lemma SuccessfulDeployment(cfg: C.Config, w: World, env: Environment)
    requires NoSkippedFaults(cfg, env)
    requires RunFrom(Steps, 0, cfg, w, env).err.None? && !RunFrom(Steps, 0, cfg, w, env).panicked
    ensures var f := RunFrom(Steps, 0, cfg, w, env).world;
            && cfg.NetworkName() in f.host.networks
            && f.sections.caddy.Some? && f.sections.mysql.Some? && f.sections.model.Some?
            && cfg.VolumePath() in f.host.directories
            && cfg.MysqlVolumePath() in f.host.directories
            && cfg.ModelVolumePath() in f.host.directories
            && AllEstablished(Steps, cfg, f)
  {
    SuccessfulRunEstablishes(Steps, 0, cfg, w, env);
    var f := RunFrom(Steps, 0, cfg, w, env).world;
    assert Established(Steps[0].run, cfg, f) && Established(Steps[1].run, cfg, f);
    assert Established(Steps[3].run, cfg, f) && Established(Steps[4].run, cfg, f);
    assert Established(Steps[5].run, cfg, f) && Established(Steps[7].run, cfg, f);
    assert Established(Steps[8].run, cfg, f);
  }

  /**
   * Deploying a second time after a successful deployment, from the world the
   * first one left, with the host answering its probes, the deployments
   * succeeding, the spinner working and a terminal of at least 68 columns,
   * returns nil without panicking and leaves the sections, networks, volume
   * directories and owners unchanged.
   */
  lemma RedeployKeepsWorld(cfg: C.Config, w: World, first: Environment, second: Environment)
    requires NoSkippedFaults(cfg, first)
    requires RunFrom(Steps, 0, cfg, w, first).err.None? && !RunFrom(Steps, 0, cfg, w, first).panicked
    requires second.networkList.None?
    requires second.volume(cfg.VolumePath()).probe.None? && second.volume(cfg.MysqlVolumePath()).probe.None?
             && second.volume(cfg.ModelVolumePath()).probe.None?
    requires second.deployCaddy.None? && second.deployMysql.None? && second.deployModel.None?
    requires forall k :: 0 <= k < |Steps| ==> second.spinner(k) == Started
    requires second.width >= 68
    ensures var f := RunFrom(Steps, 0, cfg, w, first).world;
            && RunFrom(Steps, 0, cfg, f, second).err.None? && !RunFrom(Steps, 0, cfg, f, second).panicked
            && RunFrom(Steps, 0, cfg, f, second).world == f
  {
    SuccessfulDeployment(cfg, w, first);
    TitleLengths();
    RerunKeepsWorld(Steps, 0, cfg, RunFrom(Steps, 0, cfg, w, first).world, second);
  }

  /** The label lengths of the table's rows, in runes. */
  lemma TitleLengths()
    ensures forall k :: 0 <= k < |Steps| ==> |Steps[k].title| <= 25
    ensures |Steps[0].title| == 23 && |Steps[1].title| == 17 && |Steps[2].title| == 15
    ensures |Steps[3].title| == 17 && |Steps[4].title| == 25
  {
  }

  /** The byte length of the caption of the opening separator. */
  lemma OpeningCaptionLength()
    ensures Utf8Length("Deployment") == 10
  {
    var s := "Deployment";
    assert forall k :: 0 <= k < |s| ==> s[k] as int < 0x80;
    Utf8LengthAscii(s);
  }

  /** The byte length of the caption of the closing separator. */
  lemma ClosingCaptionLength()
    ensures Utf8Length("Deployment finished") == 19
  {
    var s := "Deployment finished";
    assert forall k :: 0 <= k < |s| ==> s[k] as int < 0x80;
    Utf8LengthAscii(s);
  }

  /** Every label is at most 25 runes, so from 28 columns on no prefix line panics. */
  lemma WideTerminalPrefixesFit(width: int)
    requires width >= 28
    ensures FirstPanickingRow(Steps, width) == |Steps|
  {
    TitleLengths();
  }

  /** From 21 columns on none of the three separators of `action` panics. */
  lemma WideTerminalSeparatorsFit(width: int)
    requires width >= 21
    ensures SeparatorLine("Deployment", '═', width).Some?
    ensures !FinishPanics(width)
  {
    OpeningCaptionLength();
    ClosingCaptionLength();
  }

  /**
   * The DONE line of a step that succeeds panics when the label is five runes
   * short of the width: on 30 columns a first step that creates the network
   * is the only one that runs, and `action` panics.
   */
  lemma DoneLinePanicsAfterFirstStep(cfg: C.Config, w: World, env: Environment)
    requires env.width == 30 && env.spinner(0) == Started
    requires StepEffect(CreateNetwork, cfg, w, env).err.None?
    ensures RunFrom(Steps, 0, cfg, w, env).panicked
    ensures RunFrom(Steps, 0, cfg, w, env).ran == [CreateNetwork]
  {
    TitleLengths();
    RunFromUnfold(Steps, 0, cfg, w, env, StepEffect(CreateNetwork, cfg, w, env));
  }

  /**
   * A SKIP line panics when label and message leave exactly nine columns: on
   * 56 columns "Configuring Caddy" skipping because its section is set.
   */
  lemma SkipLinePanicsOnRedeploy()
    ensures StopLinePanics(Steps[1].title, Started, Some(Skipped(ConfigurationDefined)), 56)
    ensures !StopLinePanics(Steps[1].title, Started, Some(Skipped(ConfigurationDefined)), 57)
  {
    TitleLengths();
  }

  /** The opening separator panics below 12 columns, the closing ones below 21. */
  lemma NarrowSeparatorsPanic()
    ensures SeparatorLine("Deployment", '═', 11).None? && SeparatorLine("Deployment", '═', 12).Some?
    ensures FinishPanics(20) && !FinishPanics(21)
  {
    OpeningCaptionLength();
    ClosingCaptionLength();
  }

  /**
   * On 27 columns the fifth row (a 25-rune label) is the first whose prefix
   * line panics, so at most four rows run.
   */
  lemma FifthRowPanicsAt27(cfg: C.Config, w: World, env: Environment)
    requires env.width == 27
    ensures FirstPanickingRow(Steps, 27) == 4
    ensures |RunFrom(Steps, 0, cfg, w, env).ran| <= 4
  {
    FirstPanickingRowAt27();
    RunFromBeforePrefixPanic(Steps, 0, cfg, w, env);
  }

  lemma FirstPanickingRowAt27()
    ensures FirstPanickingRow(Steps, 27) == 4
  {
    TitleLengths();
  }
}
