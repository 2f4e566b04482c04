/** The session fixture `deploy_infrastructure` of
    tests/test_aws_gcp/test_solution.py: it applies the stages site, backbone
    and (when Gatus is enabled) monitoring in that order, yields, and then
    destroys them in reverse order, each destroy on a best-effort basis.

    The environment variables it reads are fields of a `Config`; printing is
    not part of this model. */
module Deploy {
  import opened Base
  import opened Terraform

  const SiteDir: string := "site"
  const BackboneDir: string := "backbone"
  const MonitoringDir: string := "monitoring"

  /** `TF_SKIP_DEPLOY`, `AVX_NODESTROY` and `TF_VAR_enable_gatus`, each absent
      (`None`) or set to a string. */
  datatype Config = Config(skipDeploy: Option<string>, noDestroy: Option<string>, enableGatus: Option<string>)

  function LowerChar(c: char): char {
    if 'A' <= c <= 'Z' then (c as int - 'A' as int + 'a' as int) as char else c
  }

  /** `str.lower()` on ASCII letters. */
  function Lower(s: string): (t: string)
    ensures |t| == |s| && forall i :: 0 <= i < |s| ==> t[i] == LowerChar(s[i])
  {
    seq(|s|, i requires 0 <= i < |s| => LowerChar(s[i]))
  }

  /** `os.environ.get("TF_VAR_enable_gatus", "").lower() == "true"`. */
  predicate GatusEnabled(cfg: Config) {
    Lower(if cfg.enableGatus.Some? then cfg.enableGatus.value else "") == "true"
  }

  /** The switch accepts "true" in any letter case, and nothing else. */
  lemma GatusSwitch(cfg: Config)
    ensures GatusEnabled(cfg) <==>
              && cfg.enableGatus.Some?
              && |cfg.enableGatus.value| == 4
              && LowerChar(cfg.enableGatus.value[0]) == 't'
              && LowerChar(cfg.enableGatus.value[1]) == 'r'
              && LowerChar(cfg.enableGatus.value[2]) == 'u'
              && LowerChar(cfg.enableGatus.value[3]) == 'e'
  {
    var v := if cfg.enableGatus.Some? then cfg.enableGatus.value else "";
    if |v| == 4 && LowerChar(v[0]) == 't' && LowerChar(v[1]) == 'r' && LowerChar(v[2]) == 'u' && LowerChar(v[3]) == 'e' {
      assert Lower(v) == "true";
    }
  }

  /** The directories applied, in order. */
  function Stages(cfg: Config): seq<string> {
    [SiteDir, BackboneDir] + (if GatusEnabled(cfg) then [MonitoringDir] else [])
  }

  /** The events and the failure of applying some stages. */
  datatype StageRun = StageRun(events: seq<Event>, failure: Option<Raised>)

  /** Reference definition of the deploy half: each stage in order is
      initialised and then applied, and the first step that raises ends the
      run with its exception. */
  function ApplyStages(dirs: seq<string>, varFile: string, backend: Backend): StageRun
    decreases |dirs|
  {
    if dirs == [] then StageRun([], None)
    else
      var init := TerraformInit(dirs[0], true, backend);
      if init.Some? then StageRun([Init(dirs[0])], init)
      else
        var apply := TerraformApply(dirs[0], varFile, backend);
        if apply.Some? then StageRun([Init(dirs[0]), Apply(dirs[0])], apply)
        else
          var rest := ApplyStages(dirs[1..], varFile, backend);
          StageRun([Init(dirs[0]), Apply(dirs[0])] + rest.events, rest.failure)
  }

  /** Reference definition of the teardown half: the stages destroyed last
      first. */
  function Teardown(dirs: seq<string>): seq<Event>
    decreases |dirs|
  {
    if dirs == [] then [] else Teardown(dirs[1..]) + [Destroy(dirs[0])]
  }

  /** Init then apply for every stage. */
  function Deployed(dirs: seq<string>): seq<Event>
    decreases |dirs|
  {
    if dirs == [] then [] else [Init(dirs[0]), Apply(dirs[0])] + Deployed(dirs[1..])
  }

  /** Stage `dir` is initialised and applied with return code 0. */
  predicate StageSucceeds(dir: string, varFile: string, backend: Backend) {
    TerraformInit(dir, true, backend).None? && TerraformApply(dir, varFile, backend).None?
  }

  /** The run succeeds exactly when every stage does, and then every stage
      is initialised and applied, in order. */
  lemma {:induction false} ApplyStagesSucceed(dirs: seq<string>, varFile: string, backend: Backend)
    ensures ApplyStages(dirs, varFile, backend).failure.None? <==>
              forall i :: 0 <= i < |dirs| ==> StageSucceeds(dirs[i], varFile, backend)
    ensures ApplyStages(dirs, varFile, backend).failure.None? ==>
              ApplyStages(dirs, varFile, backend).events == Deployed(dirs)
    decreases |dirs|
  {
    if dirs != [] {
      ApplyStagesSucceed(dirs[1..], varFile, backend);
      assert forall i :: 0 < i < |dirs| ==> dirs[i] == dirs[1..][i - 1];
      if forall i :: 0 <= i < |dirs[1..]| ==> StageSucceeds(dirs[1..][i], varFile, backend) {
        assert forall i :: 0 < i < |dirs| ==> StageSucceeds(dirs[i], varFile, backend);
      }
    }
  }

  /** When stage `k` is the first that fails, the run applies the stages
      before it, stops inside stage `k` at the step that fails, raises that
      step's exception and touches no later stage. */
  lemma {:induction false} ApplyStagesStop(dirs: seq<string>, k: nat, varFile: string, backend: Backend)
    requires k < |dirs|
    requires forall i :: 0 <= i < k ==> StageSucceeds(dirs[i], varFile, backend)
    requires !StageSucceeds(dirs[k], varFile, backend)
    ensures ApplyStages(dirs, varFile, backend) ==
              StageRun(Deployed(dirs[..k]) + StageEvents(dirs[k], backend), StageFailure(dirs[k], varFile, backend))
    decreases k
  {
    if k > 0 {
      var tail := dirs[1..];
      assert StageSucceeds(dirs[0], varFile, backend);
      assert forall i :: 0 <= i < k - 1 ==> tail[i] == dirs[i + 1];
      ApplyStagesStop(tail, k - 1, varFile, backend);
      var head := [Init(dirs[0]), Apply(dirs[0])];
      var rest := ApplyStages(tail, varFile, backend);
      assert ApplyStages(dirs, varFile, backend) == StageRun(head + rest.events, rest.failure);
      assert dirs[..k][1..] == tail[..k - 1];
      assert Deployed(dirs[..k]) == head + Deployed(tail[..k - 1]);
      assert head + (Deployed(tail[..k - 1]) + StageEvents(dirs[k], backend))
             == (head + Deployed(tail[..k - 1])) + StageEvents(dirs[k], backend);
    } else {
      assert dirs[..k] == [];
    }
  }

  /** What the deploy half does and raises depends on the init and apply
      results alone: no destroy result can change it. */
  lemma {:induction false} ApplyStagesIgnoreDestroy(dirs: seq<string>, varFile: string, b1: Backend, b2: Backend)
    requires forall d :: b1(Init(d)) == b2(Init(d)) && b1(Apply(d)) == b2(Apply(d))
    ensures ApplyStages(dirs, varFile, b1) == ApplyStages(dirs, varFile, b2)
    decreases |dirs|
  {
    if dirs != [] {
      ApplyStagesIgnoreDestroy(dirs[1..], varFile, b1, b2);
      assert b1(Init(dirs[0])) == b2(Init(dirs[0])) && b1(Apply(dirs[0])) == b2(Apply(dirs[0]));
    }
  }

  /** The events of the stage that fails: its init, and its apply when init
      succeeded. */
  function StageEvents(dir: string, backend: Backend): seq<Event> {
    if TerraformInit(dir, true, backend).None? then [Init(dir), Apply(dir)] else [Init(dir)]
  }

  /** The exception of the stage that fails. */
  function StageFailure(dir: string, varFile: string, backend: Backend): Option<Raised> {
    var init := TerraformInit(dir, true, backend);
    if init.Some? then init else TerraformApply(dir, varFile, backend)
  }

  /** Teardown destroys the stages in exactly the reverse of their order. */
  lemma {:induction false} TeardownReverses(dirs: seq<string>)
    ensures |Teardown(dirs)| == |dirs|
    ensures forall i :: 0 <= i < |dirs| ==> Teardown(dirs)[i] == Destroy(dirs[|dirs| - 1 - i])
    decreases |dirs|
  {
    if dirs != [] {
      TeardownReverses(dirs[1..]);
      var t := Teardown(dirs);
      assert t == Teardown(dirs[1..]) + [Destroy(dirs[0])];
      forall i | 0 <= i < |dirs| ensures t[i] == Destroy(dirs[|dirs| - 1 - i]) {
        if i < |dirs| - 1 {
          assert t[i] == Teardown(dirs[1..])[i];
          assert dirs[1..][|dirs[1..]| - 1 - i] == dirs[|dirs| - 1 - i];
        }
      }
    }
  }

  lemma {:induction false} TeardownAppend(a: seq<string>, b: seq<string>)
    ensures Teardown(a + b) == Teardown(b) + Teardown(a)
    decreases |a|
  {
    if a == [] {
      assert a + b == b;
    } else {
      TeardownAppend(a[1..], b);
      assert (a + b)[1..] == a[1..] + b;
    }
  }

  lemma {:induction false} DeployedAppend(a: seq<string>, b: seq<string>)
    ensures Deployed(a + b) == Deployed(a) + Deployed(b)
    decreases |a|
  {
    if a == [] {
      assert a + b == b;
    } else {
      DeployedAppend(a[1..], b);
      assert (a + b)[1..] == a[1..] + b;
    }
  }

  lemma Single(dir: string)
    ensures Teardown([dir]) == [Destroy(dir)]
    ensures Deployed([dir]) == [Init(dir), Apply(dir)]
  {
    assert [dir][1..] == [];
  }

  /** The deploy order and the teardown order of the fixture, written out. */
  lemma StageOrder(cfg: Config)
    ensures Deployed(Stages(cfg)) ==
              [Init(SiteDir), Apply(SiteDir), Init(BackboneDir), Apply(BackboneDir)]
              + (if GatusEnabled(cfg) then [Init(MonitoringDir), Apply(MonitoringDir)] else [])
    ensures Teardown(Stages(cfg)) ==
              (if GatusEnabled(cfg) then [Destroy(MonitoringDir)] else [])
              + [Destroy(BackboneDir), Destroy(SiteDir)]
  {
    Single(SiteDir);
    Single(BackboneDir);
    Single(MonitoringDir);
    TeardownAppend([SiteDir], [BackboneDir]);
    DeployedAppend([SiteDir], [BackboneDir]);
    if GatusEnabled(cfg) {
      TeardownAppend([SiteDir, BackboneDir], [MonitoringDir]);
      DeployedAppend([SiteDir, BackboneDir], [MonitoringDir]);
    } else {
      assert Stages(cfg) == [SiteDir] + [BackboneDir];
    }
  }

  /** One stage: `terraform_init(dir)` then `terraform_apply(dir, var_file)`,
      the first exception ending it. */
  method DeployStage(dir: string, varFile: string, backend: Backend)
    returns (events: seq<Event>, failure: Option<Raised>)
    ensures StageRun(events, failure) == ApplyStages([dir], varFile, backend)
  {
    events := [Init(dir)];
    failure := TerraformInit(dir, true, backend);
    if failure.Some? {
      return;
    }
    events := events + [Apply(dir)];
    failure := TerraformApply(dir, varFile, backend);
  }

  /** Applying two lists of stages one after the other is applying the
      first, and then the second when the first succeeded. */
  lemma {:induction false} ApplyStagesAppend(a: seq<string>, b: seq<string>, varFile: string, backend: Backend)
    ensures var first := ApplyStages(a, varFile, backend);
            ApplyStages(a + b, varFile, backend) ==
              if first.failure.Some? then first
              else
                var second := ApplyStages(b, varFile, backend);
                StageRun(first.events + second.events, second.failure)
    decreases |a|
  {
    if a == [] {
      assert a + b == b;
    } else {
      ApplyStagesAppend(a[1..], b, varFile, backend);
      assert (a + b)[1..] == a[1..] + b;
    }
  }

  /** The deploy half of `deploy_infrastructure`: site, backbone, and
      monitoring when Gatus is enabled, the first exception ending it before
      the `yield`. */
  method DeployAll(cfg: Config, varFile: string, backend: Backend)
    returns (trace: seq<Event>, raised: Option<Raised>)
    ensures StageRun(trace, raised) == ApplyStages(Stages(cfg), varFile, backend)
  {
    var monitoring := if GatusEnabled(cfg) then [MonitoringDir] else [];
    assert Stages(cfg) == [SiteDir, BackboneDir] + monitoring;
    assert [SiteDir, BackboneDir] == [SiteDir] + [BackboneDir];
    ApplyStagesAppend([SiteDir, BackboneDir], monitoring, varFile, backend);
    ApplyStagesAppend([SiteDir], [BackboneDir], varFile, backend);
    var events;
    trace, raised := DeployStage(SiteDir, varFile, backend);
    if raised.Some? {
      return;
    }
    events, raised := DeployStage(BackboneDir, varFile, backend);
    trace := trace + events;
    if raised.Some? {
      return;
    }
    if GatusEnabled(cfg) {
      events, raised := DeployStage(MonitoringDir, varFile, backend);
      trace := trace + events;
    } else {
      assert ApplyStages(monitoring, varFile, backend) == StageRun([], None);
    }
  }

  /** The teardown half: monitoring when Gatus is enabled, then backbone,
      then site. Each destroy's exception is caught and printed, so the
      teardown raises nothing and every destroy is attempted. */
  method TeardownAll(cfg: Config) returns (trace: seq<Event>)
    ensures trace == Teardown(Stages(cfg))
  {
    StageOrder(cfg);
    trace := [];
    if GatusEnabled(cfg) {
      trace := trace + [Destroy(MonitoringDir)];
    }
    trace := trace + [Destroy(BackboneDir)];
    trace := trace + [Destroy(SiteDir)];
  }

  /** `deploy_infrastructure(var_file)`: the trace of Terraform commands it
      runs, in order, with `Yielded` where the tests run, and the exception
      it raises. */
  method DeployInfrastructure(cfg: Config, varFile: string, backend: Backend)
    returns (trace: seq<Event>, raised: Option<Raised>)
    ensures Truthy(cfg.skipDeploy) ==> trace == [Yielded] && raised.None?
    ensures !Truthy(cfg.skipDeploy) ==>
              var run := ApplyStages(Stages(cfg), varFile, backend);
              && raised == run.failure
              && trace == run.events
                          + (if run.failure.Some? then []
                             else [Yielded] + (if Truthy(cfg.noDestroy) then [] else Teardown(Stages(cfg))))
  {
    if Truthy(cfg.skipDeploy) {
      return [Yielded], None;
    }
    trace, raised := DeployAll(cfg, varFile, backend);
    if raised.Some? {
      return;
    }
    var deployed := trace;
    trace := trace + [Yielded];
    if Truthy(cfg.noDestroy) {
      return;
    }
    var teardown := TeardownAll(cfg);
    assert trace + teardown == deployed + ([Yielded] + teardown);
    trace := trace + teardown;
  }
}
