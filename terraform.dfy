/** The Terraform helpers and the `tf` fixture of tests/conftest.py.

    `subprocess.run` is not part of this model: what running a Terraform
    command in a directory does is an oracle, `backend`, indexed by the event
    that names the command and the directory. The state file that
    `terraform_output` reads is given as its parsed content. */
module Terraform {
  import opened Base

  /** Which helper raised: the subclass of `TerraformError`. */
  datatype Phase = InitPhase | ApplyPhase | DestroyPhase

  /** `TerraformError(message, returncode, cmd)` of the given subclass. */
  datatype TerraformError = TerraformError(phase: Phase, message: string, returncode: int, cmd: seq<string>)

  /** What `subprocess.run` does: the process exits with a return code and
      its stderr, or `run` itself raises (a timeout, a missing binary). */
  datatype RunResult = Exited(returncode: int, stderr: string) | RunRaised(reason: string)

  /** An exception in flight: a `TerraformError`, or any other exception. */
  datatype Raised = Tf(error: TerraformError) | Other(reason: string)

  /** An observable step: a Terraform command run in a directory, or the
      fixture handing its value to the tests. */
  datatype Event = Init(dir: string) | Apply(dir: string) | Destroy(dir: string) | Yielded

  type Backend = Event -> RunResult

  function Verb(phase: Phase): string {
    match phase
    case InitPhase => "init"
    case ApplyPhase => "apply"
    case DestroyPhase => "destroy"
  }

  /** The argument list of `terraform_init`: `-upgrade` is appended only
      when `upgrade` is set. */
  function InitCommand(upgrade: bool): (cmd: seq<string>)
    ensures |cmd| >= 2 && cmd[..2] == ["terraform", "init"]
    ensures "-upgrade" in cmd <==> upgrade
    ensures |cmd| == if upgrade then 3 else 2
  {
    var cmd := ["terraform", "init"];
    if upgrade then cmd + ["-upgrade"] else cmd
  }

  /** The argument list of `terraform_apply` and `terraform_destroy`. */
  function VarFileCommand(verb: string, varFile: string): (cmd: seq<string>)
    ensures |cmd| == 5 && cmd[1] == verb && cmd[|cmd| - 1] == varFile
    ensures "-auto-approve" in cmd
  {
    ["terraform", verb, "-auto-approve", "-var-file", varFile]
  }

  /** The message of the error a failing command raises:
      "terraform {verb} failed: {stderr}". */
  function FailureMessage(phase: Phase, stderr: string): (message: string)
    ensures |message| >= |stderr| && message[|message| - |stderr|..] == stderr
  {
    "terraform " + Verb(phase) + " failed: " + stderr
  }

  /** How a helper ends once its command has run: it returns exactly when the
      return code is 0, raises the error of its own phase carrying the return
      code and the command otherwise, and lets an exception of
      `subprocess.run` through unchanged. */
  function Finish(phase: Phase, cmd: seq<string>, result: RunResult): (r: Option<Raised>)
    ensures r.None? <==> result.Exited? && result.returncode == 0
    ensures (r.Some? && r.value.Tf?) <==> result.Exited? && result.returncode != 0
    ensures r.Some? && r.value.Tf? ==>
              r.value.error == TerraformError(phase, FailureMessage(phase, result.stderr), result.returncode, cmd)
    ensures result.RunRaised? ==> r == Some(Other(result.reason))
  {
    match result
    case RunRaised(reason) => Some(Other(reason))
    case Exited(rc, stderr) =>
      if rc != 0 then Some(Tf(TerraformError(phase, FailureMessage(phase, stderr), rc, cmd))) else None
  }

  /** `terraform_init(tf_dir, upgrade)`. */
  function TerraformInit(dir: string, upgrade: bool, backend: Backend): (r: Option<Raised>)
    ensures r.None? <==> backend(Init(dir)).Exited? && backend(Init(dir)).returncode == 0
    ensures r.Some? && r.value.Tf? ==>
              r.value.error.phase == InitPhase && r.value.error.cmd == InitCommand(upgrade)
  {
    Finish(InitPhase, InitCommand(upgrade), backend(Init(dir)))
  }

  /** `terraform_apply(tf_dir, var_file)`. */
  function TerraformApply(dir: string, varFile: string, backend: Backend): (r: Option<Raised>)
    ensures r.None? <==> backend(Apply(dir)).Exited? && backend(Apply(dir)).returncode == 0
    ensures r.Some? && r.value.Tf? ==>
              r.value.error.phase == ApplyPhase && r.value.error.cmd == VarFileCommand("apply", varFile)
  {
    Finish(ApplyPhase, VarFileCommand("apply", varFile), backend(Apply(dir)))
  }

  /** `terraform_destroy(tf_dir, var_file)`. */
  function TerraformDestroy(dir: string, varFile: string, backend: Backend): (r: Option<Raised>)
    ensures r.None? <==> backend(Destroy(dir)).Exited? && backend(Destroy(dir)).returncode == 0
    ensures r.Some? && r.value.Tf? ==>
              r.value.error.phase == DestroyPhase && r.value.error.cmd == VarFileCommand("destroy", varFile)
  {
    Finish(DestroyPhase, VarFileCommand("destroy", varFile), backend(Destroy(dir)))
  }

  /** The file `terraform.tfstate` of a directory: absent, not JSON, or
      parsed. */
  datatype StateFile = Missing | Unparsable(error: string) | Parsed(state: Json)

  /** What `terraform_output` returns, or the exception it raises. */
  datatype OutputResult = Outputs(outputs: map<string, Json>) | Malformed(reason: string)

  const NotAnObject: string := "AttributeError: object has no attribute 'get'"

  /** `state.get("outputs", {})`. */
  function StateOutputs(state: Json): Json
    requires state.JObject?
  {
    if "outputs" in state.fields then state.fields["outputs"] else JObject(map[])
  }

  /** `terraform_output` returns a value exactly for these states: the state,
      its outputs and every output are JSON objects (dicts). */
  predicate WellFormedState(state: Json) {
    && state.JObject?
    && StateOutputs(state).JObject?
    && forall key :: key in StateOutputs(state).fields ==> StateOutputs(state).fields[key].JObject?
  }

  /** `terraform_output` reads its state without raising. */
  predicate Readable(file: StateFile) {
    file.Missing? || (file.Parsed? && WellFormedState(file.state))
  }

  /** The exception `terraform_output` raises on an unreadable state. */
  function OutputError(file: StateFile): string {
    if file.Unparsable? then file.error else NotAnObject
  }

  /** `value.get("value")`: a missing key reads as `None`. */
  function ValueOf(output: Json): Json
    requires output.JObject?
  {
    if "value" in output.fields then output.fields["value"] else JNull
  }

  /** One entry of the result: `{"value": value.get("value")}`. */
  function Entry(output: Json): (entry: Json)
    requires output.JObject?
    ensures entry.JObject? && entry.fields.Keys == {"value"}
  {
    JObject(map["value" := ValueOf(output)])
  }

  /** `outputs` is what `terraform_output` returns for a readable state
      file: `{}` when there is no file, and otherwise exactly one entry
      `{"value": v}` per output of the state. */
  predicate OutputsOf(file: StateFile, outputs: map<string, Json>)
    requires Readable(file)
  {
    if file.Missing? then outputs == map[]
    else
      var entries := StateOutputs(file.state).fields;
      && outputs.Keys == entries.Keys
      && forall key :: key in outputs ==> outputs[key] == Entry(entries[key])
  }

  /** `terraform_output(tf_dir)`: `{}` when there is no state file, and
      otherwise exactly one entry `{"value": v}` per output of the state. */
  method TerraformOutput(file: StateFile) returns (r: OutputResult)
    ensures file.Missing? ==> r == Outputs(map[])
    ensures r.Outputs? <==> Readable(file)
    ensures r.Malformed? ==> r.reason == OutputError(file)
    ensures r.Outputs? ==> OutputsOf(file, r.outputs)
  {
    match file
    case Missing =>
      return Outputs(map[]);
    case Unparsable(error) =>
      // json.load raises
      return Malformed(error);
    case Parsed(state) =>
      if !state.JObject? {
        return Malformed(NotAnObject);
      }
      var entries := StateOutputs(state);
      if !entries.JObject? {
        return Malformed(NotAnObject);
      }
      var outputs: map<string, Json> := map[];
      var remaining := entries.fields.Keys;
      while remaining != {}
        invariant remaining <= entries.fields.Keys
        invariant outputs.Keys == entries.fields.Keys - remaining
        invariant forall key :: key in outputs ==>
                    entries.fields[key].JObject? && outputs[key] == Entry(entries.fields[key])
        decreases remaining
      {
        var key :| key in remaining;
        var output := entries.fields[key];
        if !output.JObject? {
          return Malformed(NotAnObject);
        }
        outputs := outputs[key := Entry(output)];
        remaining := remaining - {key};
      }
      return Outputs(outputs);
  }

  /** The value the `tf` fixture yields: `{"outputs": outputs}`. */
  function FixtureValue(outputs: map<string, Json>): Json {
    JObject(map["outputs" := JObject(outputs)])
  }

  /** The exception the `try` block of the `tf` fixture ends with: the first
      of init, apply and reading the outputs that raises. */
  function BodyError(dir: string, varFile: string, backend: Backend, file: StateFile): Option<Raised> {
    var init := TerraformInit(dir, true, backend);
    if init.Some? then init
    else
      var apply := TerraformApply(dir, varFile, backend);
      if apply.Some? then apply
      else if Readable(file) then None
      else Some(Other(OutputError(file)))
  }

  /** The exception the fixture raises, given the one its `try` block ended
      with and the one `terraform_destroy` raised (`None` when destroy was
      skipped or succeeded). An exception that is not a `TerraformError`
      escapes the `finally` clause and replaces everything; otherwise an
      earlier `TerraformError` wins over a destroy error. */
  function Surfaced(body: Option<Raised>, teardown: Option<Raised>): (r: Option<Raised>)
    ensures r.None? <==> body.None? && teardown.None?
    ensures r == body || r == teardown
    ensures body.Some? && body.value.Tf? && (teardown.None? || teardown.value.Tf?) ==> r == body
    ensures teardown.Some? && (body.None? || body.value.Other?) ==> r == teardown
    ensures teardown.Some? && teardown.value.Other? ==> r == teardown
  {
    if teardown.Some? && teardown.value.Other? then teardown
    else if body.Some? && body.value.Tf? then body
    else if teardown.Some? then teardown
    else body
  }

  /** The `tf` fixture: init, apply, yield the outputs, then destroy unless
      `AVX_NODESTROY` is set, and finally raise the recorded error. */
  method TfFixture(dir: string, varFile: string, noDestroy: Option<string>, backend: Backend, file: StateFile)
    returns (trace: seq<Event>, yielded: Option<Json>, raised: Option<Raised>)
    ensures var body := BodyError(dir, varFile, backend, file);
            && (yielded.Some? <==> body.None? || body.value.Tf?)
            && (body.None? ==>
                  Readable(file) && exists outputs :: OutputsOf(file, outputs) && yielded == Some(FixtureValue(outputs)))
            && (body.Some? && body.value.Tf? ==> yielded == Some(FixtureValue(map[])))
            && raised == Surfaced(body, if Truthy(noDestroy) then None else TerraformDestroy(dir, varFile, backend))
    ensures trace == [Init(dir)]
                     + (if TerraformInit(dir, true, backend).None? then [Apply(dir)] else [])
                     + (if yielded.Some? then [Yielded] else [])
                     + (if Truthy(noDestroy) then [] else [Destroy(dir)])
  {
    trace := [Init(dir)];
    yielded := None;
    var tfError: Option<TerraformError> := None;
    // an exception other than a TerraformError leaving the try block
    var escaping: Option<Raised> := None;
    var failure := TerraformInit(dir, true, backend);
    if failure.None? {
      trace := trace + [Apply(dir)];
      failure := TerraformApply(dir, varFile, backend);
    }
    if failure.None? {
      var outputs := TerraformOutput(file);
      match outputs
      case Outputs(m) =>
        yielded := Some(FixtureValue(m));
        trace := trace + [Yielded];
      case Malformed(reason) =>
        escaping := Some(Other(reason));
    } else if failure.value.Tf? {
      // except TerraformError
      tfError := Some(failure.value.error);
      yielded := Some(FixtureValue(map[]));
      trace := trace + [Yielded];
    } else {
      escaping := failure;
    }
    // finally
    if !Truthy(noDestroy) {
      trace := trace + [Destroy(dir)];
      var teardown := TerraformDestroy(dir, varFile, backend);
      if teardown.Some? {
        if teardown.value.Other? {
          // not a TerraformDestroyError: it propagates out of the finally clause
          return trace, yielded, teardown;
        }
        if tfError.None? {
          tfError := Some(teardown.value.error);
        }
      }
    }
    if tfError.Some? {
      return trace, yielded, Some(Tf(tfError.value));
    }
    raised := escaping;
  }

  /** A failing init or apply is the error the fixture raises, whatever
      destroy then does, unless destroy itself dies with a non-Terraform
      exception. */
  lemma FirstErrorWins(dir: string, varFile: string, noDestroy: Option<string>, backend: Backend, file: StateFile)
    requires || (backend(Init(dir)).Exited? && backend(Init(dir)).returncode != 0)
             || (&& backend(Init(dir)).Exited? && backend(Init(dir)).returncode == 0
                 && backend(Apply(dir)).Exited? && backend(Apply(dir)).returncode != 0)
    requires Truthy(noDestroy) || !backend(Destroy(dir)).RunRaised?
    ensures var body := BodyError(dir, varFile, backend, file);
            && body.Some? && body.value.Tf? && body.value.error.phase != DestroyPhase
            && Surfaced(body, if Truthy(noDestroy) then None else TerraformDestroy(dir, varFile, backend)) == body
  {
  }
}
