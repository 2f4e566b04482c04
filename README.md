# Multi-cloud E2E harness: a Dafny model of its control logic

The repository is a pytest harness for a multi-cloud (AWS and GCP) transit network. The harness:

- deploys Terraform stages (site, backbone and an optional Gatus monitoring stage), runs the tests, then destroys the stages;
- checks reachability by SSH-ing into VMs, directly or through a bastion, and pinging a target;
- polls a Gatus dashboard over HTTP.

This project models the sequential control logic the harness runs under its I/O. Each module covers one part:

- `Terraform` (terraform.dfy): `terraform_init`, `terraform_apply`, `terraform_destroy` and `terraform_output`, plus the `tf` fixture and its rule for which error is raised.
- `Remote` (remote.dfy): `VM.ping` and its two retry loops, `_ping_direct` and `_ping_via_bastion`, with a log of every SSH connect, tunnel, command and close.
- `Gatus` (gatus.dfy): `GatusHealthMonitor`, that is, URL and auth construction, the `check_health` retry loop and `get_status`.
- `Retry` (retry.dfy): the shape the three retry loops share: the first-success index, the per-attempt log, the sleep count and the failure report.
- `Deploy` (deploy.dfy): the `deploy_infrastructure` session fixture. Stage order, the stop at the first failure, and reverse-order best-effort teardown.
- `Topology` (topology.dfy): the `aws_site_outputs` and `gcp_site_outputs` reshaping, `_create_vms` and `_get_gatus_urls`.
- `Base` (base.dfy): option values, JSON values, Python truthiness of `str | None`, and `str(int)`.

## How the I/O is modelled

Every external effect is an oracle parameter:

- `subprocess.run` is a `Backend`, a function from an event to a `RunResult`. The event is `Init(dir)`, `Apply(dir)` or `Destroy(dir)`. The result is an exit code with its stderr, or `RunRaised` when `run` itself raises.
- Each SSH attempt is `sessions(i)` (direct) or `hops(i)` (through the bastion).
- Each HTTP request is `replies(i)`.
- The Terraform state file comes as its parsed content.

Environment variables are fields of a `Config` record or of a parameter, absent (`None`) or set to a string, with Python truthiness. `time.sleep` is the `slept` flag of a log entry. The timeouts of `VM.ping` and `check_health` are carried in their policy records but have no effect; the timeouts of the Terraform helpers and of `get_status` are not modelled.

## Teardown in `deploy_infrastructure`

- When an init or apply fails, `deploy_infrastructure` raises before its `yield` and destroys nothing, not even the stages already applied. `Deploy.DeployInfrastructure` states this: the trace ends at the failing step.
- Each destroy error during teardown is caught and printed, and teardown raises nothing. `Deploy.TeardownAll` states this.

## Model

| member | source | states |
|---|---|---|
| Base.NatToStringRoundTrip | tests/conftest.py:347 | the decimal text of an attempt count reads back as the same number (digits only, no leading zero) |
| Retry.FirstFromIsLeast | tests/conftest.py:312-334 | the returned index is a success below `max_retries` with no success before it; `None` means no attempt below `max_retries` succeeds |
| Retry.FirstSuccessCharacterized | tests/conftest.py:312-334 | both directions: `FirstSuccess` is `Some(k)` iff `k` is the least successful attempt below `max_retries`, and `None` iff no attempt succeeds |
| Retry.SleepCountBelow | tests/conftest.py:344-345 | when exactly the attempts below `m` sleep, the loop sleeps `min(attempts, max(0, m))` times |
| Retry.SleepCountAtMost | tests/conftest.py:422-423 | when only attempts below `m` may sleep, there are at most `max(0, m)` sleeps and at most one per attempt |
| Retry.Exhausted | tests/conftest.py:347 | the failure report ends with the last attempt's output |
| Terraform.InitCommand | tests/conftest.py:59-61 | the command starts `terraform init`; `-upgrade` is present iff `upgrade`; it has 3 arguments with `-upgrade` and 2 without |
| Terraform.VarFileCommand | tests/conftest.py:85 | five arguments: the verb second, `-auto-approve` present, and the var file last |
| Terraform.FailureMessage | tests/conftest.py:71 | the error message ends with the command's stderr |
| Terraform.Finish | tests/conftest.py:70-71 | a step returns iff the exit code is 0; it raises its phase's error, with that code and command, iff the code is non-zero; an exception of `subprocess.run` passes through |
| Terraform.TerraformInit | tests/conftest.py:48-71 | it succeeds iff init exits 0; a `TerraformInitError` carries the init command |
| Terraform.TerraformApply | tests/conftest.py:74-95 | it succeeds iff apply exits 0; a `TerraformApplyError` carries the apply command with the var file |
| Terraform.TerraformDestroy | tests/conftest.py:98-119 | it succeeds iff destroy exits 0; a `TerraformDestroyError` carries the destroy command with the var file |
| Terraform.Entry | tests/conftest.py:140 | each output entry is an object whose only key is `value` |
| Terraform.TerraformOutput | tests/conftest.py:122-141 | see the list after the table |
| Terraform.Surfaced | tests/conftest.py:201-214 | see the list after the table |
| Terraform.TfFixture | tests/conftest.py:186-214 | see the list after the table |
| Terraform.FirstErrorWins | tests/conftest.py:193-214 | a failing init or apply is the error raised, whatever destroy does, unless destroy dies with a non-Terraform exception |
| Remote.PingCommand | tests/conftest.py:326 | the command starts `ping -c ` and ends with the target address |
| Remote.DirectSleepCount | tests/conftest.py:344-345 | `_ping_direct` sleeps after every attempt before the successful one; if all fail, it sleeps `max(0, max_retries - 1)` times, never after the last |
| Remote.BastionSleepCount | tests/conftest.py:422-423 | the bastion loop sleeps at most `max(0, max_retries - 1)` times, because `continue` skips a sleep |
| Remote.FinallyClosesAll | tests/conftest.py:341-342 | an attempt whose `finally` closes every client its path can connect leaves no connection open |
| Remote.DirectAttemptClosesAll | tests/conftest.py:316-342 | every client a direct attempt connects is closed later in that attempt |
| Remote.BastionAttemptClosesAll | tests/conftest.py:370-420 | see the list after the table |
| Remote.DirectActionsShape | tests/conftest.py:316-342 | a direct attempt follows the direct path up to the step that raises: it is connected iff the connect succeeded, and it runs the ping iff `exec_command` returned (the exit status or output may still fail to read), then closes its client |
| Remote.BastionActionsShape | tests/conftest.py:370-420 | an attempt through the bastion follows the bastion path up to the step that raises: bastion connected iff its connect succeeded, tunnel opened iff the hop tunnelled, private VM connected iff its connect through the tunnel succeeded, ping run iff `exec_command` on the private VM returned |
| Remote.DirectLogClosesAll | tests/conftest.py:341-342 | no attempt of `_ping_direct` leaves its client open |
| Remote.BastionLogClosesAll | tests/conftest.py:418-420 | no attempt of `_ping_via_bastion` leaves a client open |
| Remote.DirectTry | tests/conftest.py:313-345 | see the list after the table |
| Remote.PingDirect | tests/conftest.py:300-347 | see the list after the table |
| Remote.BastionTry | tests/conftest.py:365-423 | see the list after the table |
| Remote.RetryThroughBastion | tests/conftest.py:364-425 | see the list after the table |
| Remote.PingViaBastion | tests/conftest.py:349-425 | see the list after the table |
| Remote.Ping | tests/conftest.py:293-298 | see the list after the table |
| Gatus.RStrip | tests/conftest.py:465 | the result is a prefix of the input that does not end with the character, and everything stripped is that character |
| Gatus.RStripAppend | tests/conftest.py:465 | appending any number of the stripped character does not change the result |
| Gatus.NewMonitor | tests/conftest.py:452-467 | the base URL is kept without trailing slashes (only slashes are removed); the credentials are kept as given |
| Gatus.Auth | tests/conftest.py:491-493 | credentials are sent iff both the username and the password are truthy, and then they are exactly those two |
| Gatus.TrailingSlashesIgnored | tests/conftest.py:488 | base URLs that differ only in trailing slashes give the same endpoint URLs |
| Gatus.HealthUrlShape | tests/conftest.py:488 | the health URL is the stripped base URL followed by exactly `/health` |
| Gatus.HealthTry | tests/conftest.py:496-513 | an attempt succeeds iff the reply is HTTP 200; it sleeps iff it is not the last and did not succeed; its message is `Gatus healthy: {text}`, `HTTP {code}: {text}` or the exception text |
| Gatus.HealthSleepCount | tests/conftest.py:512-513 | `check_health` sleeps after every attempt before the successful one; if all fail, it sleeps `max(0, max_retries - 1)` times |
| Gatus.CheckHealth | tests/conftest.py:472-515 | see the list after the table |
| Gatus.GetStatus | tests/conftest.py:517-549 | see the list after the table |
| Deploy.Lower | tests/test_aws_gcp/test_solution.py:80 | same length, each character lower-cased |
| Deploy.GatusSwitch | tests/test_aws_gcp/test_solution.py:80 | monitoring is enabled iff `TF_VAR_enable_gatus` is set to `true` in any letter case |
| Deploy.ApplyStagesSucceed | tests/test_aws_gcp/test_solution.py:68-83 | the deploy half raises nothing iff every stage's init and apply exit 0, and then it runs init then apply for each stage in order |
| Deploy.ApplyStagesStop | tests/test_aws_gcp/test_solution.py:68-87 | if stage `k` is the first to fail, the stages before it are applied, the run stops at the failing step and raises its exception, and no later stage is touched |
| Deploy.ApplyStagesIgnoreDestroy | tests/test_aws_gcp/test_solution.py:99-114 | what the deploy half does and raises depends only on the init and apply results |
| Deploy.TeardownReverses | tests/test_aws_gcp/test_solution.py:89-114 | teardown destroys each stage once, in exactly the reverse of the apply order |
| Deploy.TeardownAppend | tests/test_aws_gcp/test_solution.py:96-114 | the teardown of two stage lists in sequence is the second's teardown followed by the first's |
| Deploy.DeployedAppend | tests/test_aws_gcp/test_solution.py:68-83 | the deploy events of two stage lists in sequence are the first's followed by the second's |
| Deploy.StageOrder | tests/test_aws_gcp/test_solution.py:68-114 | the apply order is site, backbone, then monitoring if enabled; teardown is monitoring if enabled, then backbone, then site |
| Deploy.DeployStage | tests/test_aws_gcp/test_solution.py:70-71 | one stage agrees with the reference definition of applying stages |
| Deploy.ApplyStagesAppend | tests/test_aws_gcp/test_solution.py:68-83 | applying two stage lists in sequence stops after the first on failure, and otherwise continues with the second |
| Deploy.DeployAll | tests/test_aws_gcp/test_solution.py:68-83 | the deploy half's events and exception are those of the reference definition over the enabled stages |
| Deploy.TeardownAll | tests/test_aws_gcp/test_solution.py:89-114 | every enabled stage is destroyed once, in reverse order; destroy exceptions are swallowed |
| Deploy.DeployInfrastructure | tests/test_aws_gcp/test_solution.py:43-114 | see the list after the table |
| Topology.ReshapeSucceeds | tests/test_aws_gcp/test_solution.py:126-146 | a rename table succeeds iff every source output has a `value` |
| Topology.ReshapeContents | tests/test_aws_gcp/test_solution.py:126-146 | on success, the keys are exactly the new names, each wrapping `{"value": …}` of its own source output |
| Topology.RenamesDistinct | tests/test_aws_gcp/test_solution.py:129-146 | both fixtures' dict literals use pairwise distinct keys |
| Topology.AwsSiteOutputsShape | tests/test_aws_gcp/test_solution.py:126-134 | `aws_site_outputs` succeeds iff its four outputs are present, and then holds exactly the four renamed keys with their values |
| Topology.GcpSiteOutputsShape | tests/test_aws_gcp/test_solution.py:137-146 | `gcp_site_outputs` succeeds iff its five outputs are present, and then holds exactly the five renamed keys with their values |
| Topology.KeysDistinct | tests/test_aws_gcp/test_solution.py:273-293 | an AWS key identifies its site and kind, and never equals a GCP key |
| Topology.AwsKeysAdd | tests/test_aws_gcp/test_solution.py:273-274 | a new site adds exactly its two keys, neither present before |
| Topology.GcpKeysApart | tests/test_aws_gcp/test_solution.py:292-293 | the GCP keys are never AWS keys |
| Topology.AwsVmsBuiltAdd | tests/test_aws_gcp/test_solution.py:255-274 | a new site's pair leaves every earlier site's VMs in place |
| Topology.AddSite | tests/test_aws_gcp/test_solution.py:255-274 | one loop pass adds the site's two keys, two entries, and its bastion and private VM |
| Topology.CreateAwsVms | tests/test_aws_gcp/test_solution.py:249-274 | the AWS part has exactly two keys per site and two entries per site, each site with its own bastion and private VM |
| Topology.GcpPairAdded | tests/test_aws_gcp/test_solution.py:276-293 | the GCP pair adds exactly two more keys |
| Topology.AwsVmsBuiltGcp | tests/test_aws_gcp/test_solution.py:292-293 | the GCP pair leaves the AWS VMs in place |
| Topology.CreateVms | tests/test_aws_gcp/test_solution.py:244-295 | see the list after the table |
| Topology.PrivateVmsGoThroughBastion | tests/test_aws_gcp/test_solution.py:266-271 | a private VM has no public IP but has its bastion; `ping` accepts it iff the site's public VM has a public IP |
| Topology.GatusKeysDistinct | tests/test_aws_gcp/test_solution.py:385-391 | `aws_{site}` identifies its site and is never `gcp` |
| Topology.GetGatusUrls | tests/test_aws_gcp/test_solution.py:376-393 | keys `aws_{site}` exactly for sites with a truthy Gatus URL; `gcp` exactly when the GCP VM's URL is truthy; each maps to its URL |

The longer contracts, by member:

- **Terraform.TerraformOutput**:
  - no state file gives `{}`;
  - it raises iff the state is not valid JSON or is not a dict of dicts;
  - otherwise there is exactly one `{"value": v}` entry per output of the state (`OutputsOf`).
- **Terraform.Surfaced**:
  - a non-Terraform exception from destroy replaces everything;
  - otherwise an earlier init or apply `TerraformError` wins over a destroy error;
  - a destroy error replaces a non-Terraform exception from the body;
  - the fixture raises nothing iff neither part raised.
- **Terraform.TfFixture**:
  - the yield happens iff the body succeeded or failed with a `TerraformError`;
  - on success it yields `{"outputs": outputs}`, where `outputs` is what `terraform_output` reads from the state (`OutputsOf`);
  - after a `TerraformError` it yields `{"outputs": {}}`;
  - destroy is attempted unless `AVX_NODESTROY` is set, and always after the yield;
  - the exception raised follows `Surfaced`;
  - the trace is init, apply (when init succeeded), the yield, then destroy.
- **Remote.BastionAttemptClosesAll**:
  - every client connected is closed;
  - the private VM is connected to only after the bastion connect and the tunnel;
  - the attempt ends by closing the private client and then the bastion client.
- **Remote.DirectTry**:
  - its actions are exactly `DirectActions` of its session: the connect if it succeeded, the ping if `exec_command` returned, then the close;
  - the attempt succeeds iff the exit status is 0;
  - it sleeps iff it is not the last attempt and did not succeed;
  - its output is stdout on success, otherwise `stdout\nstderr` or the exception text.
- **Remote.PingDirect**:
  - it returns at the first attempt below `max_retries` with exit status 0, making no later attempt;
  - otherwise it makes exactly `max(0, max_retries)` attempts and reports the last attempt's output;
  - attempt `i` logs exactly `DirectActions` of `sessions(i)`, against the public IP (see `DirectActionsShape`, `DirectLogClosesAll`);
  - the sleep count is as in `DirectSleepCount`.
- **Remote.BastionTry**:
  - its actions are exactly `BastionActions` of its hop: the bastion, tunnel, private and command steps up to the one that raises, then the close of the private client and of the bastion client, in that order;
  - the attempt succeeds iff the exit status is 0;
  - a missing transport gives `Failed to get transport from bastion` and no sleep.
- **Remote.RetryThroughBastion**:
  - success is the last attempt, and every attempt before it failed;
  - otherwise it makes exactly `max(0, max_retries)` attempts and reports the last output;
  - attempt `i` logs exactly `BastionActions` of `hops(i)` (see `BastionActionsShape`, `BastionLogClosesAll`), and sleeps exactly per `BastionSleeps`.
- **Remote.PingViaBastion**:
  - a missing bastion, or a bastion without a public IP, raises `ValueError("Bastion must have a public IP")` with no attempt;
  - otherwise it returns at the first successful attempt, or reports the last output after `max(0, max_retries)` attempts;
  - it sleeps at most `max_retries - 1` times.
- **Remote.Ping**:
  - the `ValueError` is raised iff the VM has neither a public IP nor a bastion with one, and then no connection is made;
  - a VM with a public IP goes direct;
  - a VM without one goes through its bastion, with all the properties of the path taken.
- **Gatus.CheckHealth**:
  - it succeeds iff some attempt below `max_retries` gets HTTP 200, returning at the first one with `Gatus healthy: {text}`;
  - otherwise it makes `max(0, max_retries)` attempts and reports the last error;
  - every request goes to the health URL with the monitor's credentials;
  - the sleep count is as in `HealthSleepCount`.
- **Gatus.GetStatus**:
  - the one request goes to the statuses URL with the monitor's credentials;
  - it succeeds iff the reply is HTTP 200 with a JSON body, and returns that value;
  - any other status gives `HTTP {code}: {text}`;
  - a failed request gives its message, and so does a 200 reply whose body is not JSON.
- **Deploy.DeployInfrastructure**:
  - with `TF_SKIP_DEPLOY` set, it yields and runs no Terraform command;
  - otherwise it raises the first deploy failure, with trace the steps up to that failure and no teardown;
  - on success it yields, then destroys in reverse order unless `AVX_NODESTROY` is set.
- **Topology.CreateVms**:
  - two keys for every AWS site, plus `gcp_bastion` and `gcp_private`, with `2 * |sites| + 2` entries, so no VM overwrites another;
  - each site gets its bastion with the public VM's addresses and a private VM behind it;
  - the same pair for GCP.

## Left out

- The Terraform helpers' `subprocess.run` is an oracle result (`Backend`). The working directory, `capture_output` and the timeout are not modelled. The backend is indexed by event, not by the argument list (the argument list is kept in the error).
- Paramiko, meaning `SSHClient`, `connect`, `get_transport`, `open_channel` and `exec_command`, is represented by per-attempt oracle outcomes:
  - the username, the key and the host-key policy are not logged;
  - `paramiko.RSAKey.from_private_key_file`, which runs before the loop and can raise, is not modelled.
- `requests.get` and the TLS `verify=False` setting: oracle replies.
- A `response.json()` decode error in `get_status` is reported like a failed request, because that error is a `RequestException` subclass in current releases of `requests`.
- `time.sleep` is the `slept` flag of a log entry; the delay values are carried but have no effect.
- `json.load` of the state file: the file is given already parsed, or as unparsable with the exception text.
- Terraform.NotAnObject: the exact text of the `AttributeError` that `terraform_output` raises on a state, an `outputs` value or an output entry that is not a dict is not reproduced; only the fact that it raises is modelled.
- Gatus.Endpoint: `urljoin(base + "/", path)` is modelled as `base + "/" + path`. That is what `urljoin` returns for an http(s) base URL with no query, fragment, dot segments or empty path segments. Other base URLs are not modelled: `urljoin` drops empty path segments, and for a scheme it does not resolve relative to, it returns the path alone.
- Deploy.Lower: `str.lower()` is modelled on ASCII letters only; Unicode case mapping is not.
- Deploy.DeployInfrastructure: it reads `TF_VAR_enable_gatus` once for both the deploy and the teardown decision, while the source reads it twice. The environment is assumed not to change during the session.
- `print` output and the warning messages of swallowed destroy errors are not modelled.
- `_parse_provider_creds` and `ProviderCred`: HCL parsing through an external library.
- The fixture plumbing is not modelled: `var_file` and its `pytest.skip` calls, `change_test_dir`'s `os.chdir`, `site_outputs`' skip when the state is missing, and the `__repr__` methods.
- The test bodies that only assert on Terraform outputs, and tests/test_aws/test_transit.py.
- Topology.CreateVms and Topology.GetGatusUrls read each site's `vm` object given as a typed `SiteVm`. The `KeyError` or `TypeError` raised by a site without the expected fields is not modelled.
- Topology.CreateVms: `_create_vms` iterates the site names in sorted order. The model iterates them in any order, which yields the same dictionary contents; Python's dictionary insertion order is not modelled.
- Topology.ReshapeContents requires distinct new names, as both fixtures have (`RenamesDistinct`).
- Remote.PingDirect requires a public IP, which `VM.ping` checks before calling it.
- A bastion is reached only directly at its own public IP: chains of bastions are not followed, as in the source.
- Exceptions other than `Exception` (such as `KeyboardInterrupt`) escaping a retry loop are not modelled.
- A negative `retry_delay` makes `time.sleep` raise `ValueError` at the first sleep, outside the `try` (tests/conftest.py:345, 423, 513). The model treats every sleep as succeeding.
- `check_health` and `get_status` catch only `requests.exceptions.RequestException`. Any other exception from `requests.get` escapes them, and the model does not represent it: a reply is a response or a `RequestException`.
