/** The `VM` class of tests/conftest.py: a cloud VM that is reached over SSH,
    either directly at its public IP or through a bastion VM, and that pings a
    target address with a bounded number of attempts.

    Paramiko is not part of this model. What one SSH attempt does is an oracle
    indexed by the attempt number: `sessions(i)` for a direct attempt,
    `hops(i)` for an attempt through the bastion. Every SSH client the source
    creates is named by a `Client`; the log records when a client connects,
    when the tunnel through the bastion is opened, when the ping command runs
    and when each client is closed, so that the model can state that no
    connection outlives its attempt. */
module Remote {
  import opened Base
  import opened Retry

  const DefaultUsername: string := "ubuntu"

  /** The port of the tunnel opened from the bastion to the private VM. */
  const SshPort: int := 22

  /** `VM(name, private_ip, ssh_key_path, public_ip, bastion, username)`. */
  datatype Vm = Vm(
    name: string,
    privateIp: string,
    sshKeyPath: string,
    publicIp: Option<string>,
    bastion: Option<Vm>,
    username: string)

  /** The keyword arguments of `VM.ping`. */
  datatype PingPolicy = PingPolicy(maxRetries: int, retryDelay: int, timeout: int, pingCount: int)

  const DefaultPingPolicy: PingPolicy := PingPolicy(5, 10, 60, 3)

  const BastionNeedsPublicIp: string := "Bastion must have a public IP"
  const NoTransportMessage: string := "Failed to get transport from bastion"

  function NoRouteMessage(vm: Vm): string {
    "VM " + vm.name + " has no public IP and no bastion configured"
  }

  /** The command run on the VM: `ping -c {ping_count} -W 5 {target_ip}`. */
  function PingCommand(pingCount: int, targetIp: string): (command: string)
    ensures |command| >= 8 && command[..8] == "ping -c "
    ensures |command| >= |targetIp| && command[|command| - |targetIp|..] == targetIp
  {
    "ping -c " + IntToString(pingCount) + " -W 5 " + targetIp
  }

  datatype Client = DirectClient | BastionClient | PrivateClient

  datatype SshAction =
    | Connected(client: Client, host: string)
    | Tunnel(dest: string, port: int)
    | Ran(client: Client, command: string)
    | Closed(client: Client)

  type SshLog = seq<Attempt<SshAction>>

  /** What one SSH session does: the connect raises, `exec_command` raises
      before the command starts, reading the exit status or the output raises
      after it started, or the command completes. */
  datatype Session =
    | ConnectFailed(error: string)
    | ExecFailed(error: string)
    | ReadFailed(error: string)
    | Completed(exitStatus: int, stdout: string, stderr: string)
  {
    /** The session got as far as starting the ping command. */
    predicate Started() {
      ReadFailed? || Completed?
    }
  }

  /** What one attempt through the bastion does: the bastion connect raises,
      the bastion has no transport, opening the tunnel raises, or the tunnel is
      open and the session to the private VM runs through it. */
  datatype Hop =
    | BastionConnectFailed(error: string)
    | NoTransport
    | ChannelFailed(error: string)
    | Tunnelled(session: Session)

  predicate SessionSucceeds(s: Session) {
    s.Completed? && s.exitStatus == 0
  }

  predicate HopSucceeds(h: Hop) {
    h.Tunnelled? && SessionSucceeds(h.session)
  }

  function DirectSuccesses(sessions: nat -> Session): nat -> bool {
    (i: nat) => SessionSucceeds(sessions(i))
  }

  function HopSuccesses(hops: nat -> Hop): nat -> bool {
    (i: nat) => HopSucceeds(hops(i))
  }

  /** Attempt `i` of `_ping_via_bastion` sleeps unless it is the last, it
      succeeds or it leaves by `continue` (no transport). */
  function BastionSleeps(hops: nat -> Hop, maxRetries: int): nat -> bool {
    (i: nat) => i < maxRetries - 1 && !HopSucceeds(hops(i)) && !hops(i).NoTransport?
  }

  /** Attempt `i` of `_ping_direct` sleeps unless it is the last or it
      succeeds. */
  function DirectSleeps(sessions: nat -> Session, maxRetries: int): nat -> bool {
    (i: nat) => i < maxRetries - 1 && !SessionSucceeds(sessions(i))
  }

  /** `_ping_direct` sleeps after every attempt but the one that succeeds,
      and after every attempt but the last when none does. */
  lemma DirectSleepCount(log: SshLog, sessions: nat -> Session, maxRetries: int)
    requires SleptExactly(log, DirectSleeps(sessions, maxRetries))
    requires |log| <= Max0(maxRetries)
    requires forall j: nat :: j < |log| - 1 ==> !SessionSucceeds(sessions(j))
    ensures |log| >= 1 && SessionSucceeds(sessions(|log| - 1)) ==> SleepCount(log) == |log| - 1
    ensures |log| == Max0(maxRetries) && (|log| == 0 || !SessionSucceeds(sessions(|log| - 1))) ==>
              SleepCount(log) == Max0(maxRetries - 1)
  {
    if |log| >= 1 && SessionSucceeds(sessions(|log| - 1)) {
      SleepCountBelow(log, |log| - 1);
    } else if |log| == Max0(maxRetries) {
      SleepCountBelow(log, maxRetries - 1);
    }
  }

  /** `_ping_via_bastion` sleeps at most `max_retries - 1` times. */
  lemma BastionSleepCount(log: SshLog, hops: nat -> Hop, maxRetries: int)
    requires SleptExactly(log, BastionSleeps(hops, maxRetries))
    ensures SleepCount(log) <= Max0(maxRetries - 1)
  {
    SleepCountAtMost(log, maxRetries - 1);
  }

  /** `last_output` after a failed session: the exception text, or stdout and
      stderr joined by a newline. */
  function SessionOutput(s: Session): string {
    match s
    case ConnectFailed(e) => e
    case ExecFailed(e) => e
    case ReadFailed(e) => e
    case Completed(_, out, err) => out + "\n" + err
  }

  function HopOutput(h: Hop): string {
    match h
    case BastionConnectFailed(e) => e
    case NoTransport => NoTransportMessage
    case ChannelFailed(e) => e
    case Tunnelled(s) => SessionOutput(s)
  }

  /** The output the failure report carries: that of the last attempt, or
      the empty string when no attempt was made. */
  function LastSessionOutput(sessions: nat -> Session, maxRetries: int): string {
    if maxRetries <= 0 then "" else SessionOutput(sessions(maxRetries - 1))
  }

  function LastHopOutput(hops: nat -> Hop, maxRetries: int): string {
    if maxRetries <= 0 then "" else HopOutput(hops(maxRetries - 1))
  }

  /** `VM.ping` raises no ValueError exactly for these VMs: a public IP, or a
      bastion that has one. */
  predicate Reachable(vm: Vm) {
    Truthy(vm.publicIp) || (vm.bastion.Some? && Truthy(vm.bastion.value.publicIp))
  }

  datatype PingResult = ConfigError(message: string) | Pinged(success: bool, output: string)

  /** The steps of a direct attempt that gets as far as running the ping. */
  function DirectPath(host: string, command: string): seq<SshAction> {
    [Connected(DirectClient, host), Ran(DirectClient, command)]
  }

  /** The steps of an attempt through the bastion that gets as far as running
      the ping on the private VM. */
  function BastionPath(bastionHost: string, privateIp: string, command: string): seq<SshAction> {
    [ Connected(BastionClient, bastionHost),
      Tunnel(privateIp, SshPort),
      Connected(PrivateClient, privateIp),
      Ran(PrivateClient, command) ]
  }

  /** An attempt takes the steps of `path` in order until one of them raises
      (or the path ends), and then its `finally` clause closes `closes`. */
  predicate FollowsPath(actions: seq<SshAction>, path: seq<SshAction>, closes: seq<SshAction>) {
    && |closes| <= |actions|
    && actions[..|actions| - |closes|] <= path
    && actions[|actions| - |closes|..] == closes
  }

  predicate DirectAttempt(actions: seq<SshAction>, host: string, command: string) {
    FollowsPath(actions, DirectPath(host, command), [Closed(DirectClient)])
  }

  /** The `finally` clause closes the private client first, then the bastion. */
  predicate BastionAttempt(actions: seq<SshAction>, bastionHost: string, privateIp: string, command: string) {
    FollowsPath(actions, BastionPath(bastionHost, privateIp, command), [Closed(PrivateClient), Closed(BastionClient)])
  }

  /** The steps a direct attempt takes given what its session does: the
      connect when it succeeds, the command once `exec_command` returns, and
      always the close of the `finally` clause. */
  function DirectActions(host: string, command: string, session: Session): seq<SshAction> {
    match session
    case ConnectFailed(_) => [Closed(DirectClient)]
    case ExecFailed(_) => [Connected(DirectClient, host), Closed(DirectClient)]
    case ReadFailed(_) => DirectPath(host, command) + [Closed(DirectClient)]
    case Completed(_, _, _) => DirectPath(host, command) + [Closed(DirectClient)]
  }

  /** The steps an attempt through the bastion takes given what its hop
      does; the `finally` clause always closes both clients. */
  function BastionActions(bastionHost: string, privateIp: string, command: string, hop: Hop): seq<SshAction> {
    var bastion, tunnel := Connected(BastionClient, bastionHost), Tunnel(privateIp, SshPort);
    var closes := [Closed(PrivateClient), Closed(BastionClient)];
    match hop
    case BastionConnectFailed(_) => closes
    case NoTransport => [bastion] + closes
    case ChannelFailed(_) => [bastion] + closes
    case Tunnelled(session) =>
      match session
      case ConnectFailed(_) => [bastion, tunnel] + closes
      case ExecFailed(_) => [bastion, tunnel, Connected(PrivateClient, privateIp)] + closes
      case ReadFailed(_) => BastionPath(bastionHost, privateIp, command) + closes
      case Completed(_, _, _) => BastionPath(bastionHost, privateIp, command) + closes
  }

  /** A direct attempt follows the direct path up to the step its session
      fails at: it is connected iff the connect succeeded, and it runs the
      ping iff `exec_command` returned. */
  lemma DirectActionsShape(host: string, command: string, session: Session)
    ensures var actions := DirectActions(host, command, session);
            && DirectAttempt(actions, host, command)
            && (Connected(DirectClient, host) in actions <==> !session.ConnectFailed?)
            && (Ran(DirectClient, command) in actions <==> session.Started())
  {
  }

  /** An attempt through the bastion follows the bastion path up to the step
      its hop fails at. */
  lemma BastionActionsShape(bastionHost: string, privateIp: string, command: string, hop: Hop)
    ensures var actions := BastionActions(bastionHost, privateIp, command, hop);
            && BastionAttempt(actions, bastionHost, privateIp, command)
            && (Connected(BastionClient, bastionHost) in actions <==> !hop.BastionConnectFailed?)
            && (Tunnel(privateIp, SshPort) in actions <==> hop.Tunnelled?)
            && (Connected(PrivateClient, privateIp) in actions <==> hop.Tunnelled? && !hop.session.ConnectFailed?)
            && (Ran(PrivateClient, command) in actions <==> hop.Tunnelled? && hop.session.Started())
  {
    var actions := BastionActions(bastionHost, privateIp, command, hop);
    var bastion, tunnel := Connected(BastionClient, bastionHost), Tunnel(privateIp, SshPort);
    var closes := [Closed(PrivateClient), Closed(BastionClient)];
    match hop
    case BastionConnectFailed(_) =>
    case NoTransport =>
      assert actions == [bastion] + closes;
    case ChannelFailed(_) =>
      assert actions == [bastion] + closes;
    case Tunnelled(session) =>
      match session
      case ConnectFailed(_) =>
        assert actions == [bastion, tunnel] + closes;
      case ExecFailed(_) =>
        assert actions == [bastion, tunnel, Connected(PrivateClient, privateIp)] + closes;
      case ReadFailed(_) =>
      case Completed(_, _, _) =>
  }

  /** Attempt `i` of the log took the steps its session `sessions(i)` leads to. */
  predicate DirectLog(log: seq<Attempt<SshAction>>, host: string, command: string, sessions: nat -> Session) {
    forall i {:trigger log[i]} :: 0 <= i < |log| ==> log[i].actions == DirectActions(host, command, sessions(i))
  }

  lemma DirectLogAppend(log: seq<Attempt<SshAction>>, a: Attempt<SshAction>, host: string, command: string,
                        sessions: nat -> Session)
    requires DirectLog(log, host, command, sessions)
    requires a.actions == DirectActions(host, command, sessions(|log|))
    ensures DirectLog(log + [a], host, command, sessions)
  {
    assert forall i :: 0 <= i < |log| ==> (log + [a])[i] == log[i];
  }

  /** Attempt `i` of the log took the steps its hop `hops(i)` leads to. */
  predicate BastionLog(log: seq<Attempt<SshAction>>, bastionHost: string, privateIp: string, command: string,
                       hops: nat -> Hop) {
    forall i {:trigger log[i]} :: 0 <= i < |log| ==> log[i].actions == BastionActions(bastionHost, privateIp, command, hops(i))
  }

  lemma BastionLogAppend(log: seq<Attempt<SshAction>>, a: Attempt<SshAction>,
                         bastionHost: string, privateIp: string, command: string, hops: nat -> Hop)
    requires BastionLog(log, bastionHost, privateIp, command, hops)
    requires a.actions == BastionActions(bastionHost, privateIp, command, hops(|log|))
    ensures BastionLog(log + [a], bastionHost, privateIp, command, hops)
  {
    assert forall i :: 0 <= i < |log| ==> (log + [a])[i] == log[i];
  }

  /** Every client connected during an attempt is closed later in it. */
  predicate ClosesEveryConnection(actions: seq<SshAction>) {
    forall j :: 0 <= j < |actions| && actions[j].Connected? ==> Closed(actions[j].client) in actions[j + 1..]
  }

  /** An attempt whose `finally` clause closes every client its path can
      connect leaves no connection open. */
  lemma FinallyClosesAll(actions: seq<SshAction>, path: seq<SshAction>, closes: seq<SshAction>)
    requires FollowsPath(actions, path, closes)
    requires forall j :: 0 <= j < |path| && path[j].Connected? ==> Closed(path[j].client) in closes
    requires forall j :: 0 <= j < |closes| ==> closes[j].Closed?
    ensures ClosesEveryConnection(actions)
  {
    var n := |actions| - |closes|;
    assert actions == actions[..n] + closes;
    forall j | 0 <= j < |actions| && actions[j].Connected?
      ensures Closed(actions[j].client) in actions[j + 1..]
    {
      assert j < n && actions[j] == path[j];
      assert actions[j + 1..] == actions[j + 1..n] + closes;
    }
  }

  /** No attempt of `_ping_direct` leaks its client. */
  lemma DirectAttemptClosesAll(actions: seq<SshAction>, host: string, command: string)
    requires DirectAttempt(actions, host, command)
    ensures ClosesEveryConnection(actions)
  {
    FinallyClosesAll(actions, DirectPath(host, command), [Closed(DirectClient)]);
  }

  /** No attempt of `_ping_via_bastion` leaks a client, and the private VM is
      connected to only through an open tunnel from a connected bastion. */
  lemma BastionAttemptClosesAll(actions: seq<SshAction>, bastionHost: string, privateIp: string, command: string)
    requires BastionAttempt(actions, bastionHost, privateIp, command)
    ensures ClosesEveryConnection(actions)
    ensures |actions| >= 2 && actions[|actions| - 2..] == [Closed(PrivateClient), Closed(BastionClient)]
    ensures forall j :: 0 <= j < |actions| && actions[j].Connected? && actions[j].client == PrivateClient ==>
              j == 2 && actions[..j] == [Connected(BastionClient, bastionHost), Tunnel(privateIp, SshPort)]
  {
    var path := BastionPath(bastionHost, privateIp, command);
    FinallyClosesAll(actions, path, [Closed(PrivateClient), Closed(BastionClient)]);
    forall j | 0 <= j < |actions| && actions[j].Connected? && actions[j].client == PrivateClient
      ensures j == 2 && actions[..j] == [Connected(BastionClient, bastionHost), Tunnel(privateIp, SshPort)]
    {
      assert j < |actions| - 2 && actions[j] == path[j];
      assert actions[..j] == path[..j];
    }
  }

  /** No attempt of a direct log leaks its client. */
  lemma DirectLogClosesAll(log: SshLog, host: string, command: string, sessions: nat -> Session)
    requires DirectLog(log, host, command, sessions)
    ensures forall i :: 0 <= i < |log| ==> ClosesEveryConnection(log[i].actions)
  {
    forall i | 0 <= i < |log| ensures ClosesEveryConnection(log[i].actions) {
      DirectActionsShape(host, command, sessions(i));
      DirectAttemptClosesAll(log[i].actions, host, command);
    }
  }

  /** No attempt of a bastion log leaks a client. */
  lemma BastionLogClosesAll(log: SshLog, bastionHost: string, privateIp: string, command: string, hops: nat -> Hop)
    requires BastionLog(log, bastionHost, privateIp, command, hops)
    ensures forall i :: 0 <= i < |log| ==> ClosesEveryConnection(log[i].actions)
  {
    forall i | 0 <= i < |log| ensures ClosesEveryConnection(log[i].actions) {
      BastionActionsShape(bastionHost, privateIp, command, hops(i));
      BastionAttemptClosesAll(log[i].actions, bastionHost, privateIp, command);
    }
  }

  /** One pass of `_ping_direct`'s loop body: the `try` block, its `except`,
      its `finally` and the sleep that follows unless the pass returns or is
      the last. `succeeded` says whether it returns `(True, output)`;
      otherwise `output` is the new `last_output`. */
  method DirectTry(host: string, command: string, session: Session, isLast: bool)
    returns (entry: Attempt<SshAction>, succeeded: bool, output: string)
    ensures entry.actions == DirectActions(host, command, session)
    ensures succeeded == SessionSucceeds(session)
    ensures entry.slept <==> !isLast && !succeeded
    ensures output == if succeeded then session.stdout else SessionOutput(session)
  {
    var actions := [];
    match session {
      case ConnectFailed(e) =>
        succeeded, output := false, e;
      case ExecFailed(e) =>
        actions := [Connected(DirectClient, host)];
        succeeded, output := false, e;
      case ReadFailed(e) =>
        actions := [Connected(DirectClient, host), Ran(DirectClient, command)];
        succeeded, output := false, e;
      case Completed(status, out, err) =>
        actions := [Connected(DirectClient, host), Ran(DirectClient, command)];
        succeeded := status == 0;
        output := if succeeded then out else out + "\n" + err;
    }
    // finally: client.close()
    actions := actions + [Closed(DirectClient)];
    entry := Attempt(actions, !isLast && !succeeded);
  }

  /** Attempt `|log|` of `_ping_direct` with its entry appended to the
      log: the log keeps the exact steps and sleeps of every attempt. */
  method DirectStep(host: string, command: string, sessions: nat -> Session, maxRetries: int, log: SshLog)
    returns (next: SshLog, succeeded: bool, output: string)
    requires |log| < maxRetries
    requires DirectLog(log, host, command, sessions)
    requires SleptExactly(log, DirectSleeps(sessions, maxRetries))
    ensures |next| == |log| + 1
    ensures DirectLog(next, host, command, sessions)
    ensures SleptExactly(next, DirectSleeps(sessions, maxRetries))
    ensures succeeded == SessionSucceeds(sessions(|log|))
    ensures output == if succeeded then sessions(|log|).stdout else SessionOutput(sessions(|log|))
  {
    var entry;
    entry, succeeded, output := DirectTry(host, command, sessions(|log|), |log| == maxRetries - 1);
    DirectLogAppend(log, entry, host, command, sessions);
    SleptExactlyAppend(log, entry, DirectSleeps(sessions, maxRetries));
    next := log + [entry];
  }

  /** `_ping_direct` returning at attempt `|log| - 1`, after every earlier
      attempt failed, is its first success. */
  lemma DirectReturnsAtFirst(sessions: nat -> Session, maxRetries: int, log: SshLog, output: string)
    requires 1 <= |log| <= maxRetries
    requires forall j: nat :: j < |log| - 1 ==> !SessionSucceeds(sessions(j))
    requires SessionSucceeds(sessions(|log| - 1)) && output == sessions(|log| - 1).stdout
    ensures DirectOutcome(sessions, maxRetries, true, output, log)
  {
    FirstSuccessCharacterized(DirectSuccesses(sessions), maxRetries, |log| - 1);
  }

  /** `_ping_direct` leaving its loop after `max_retries` failed attempts
      reports the last one's output. */
  lemma DirectReportsLast(sessions: nat -> Session, maxRetries: int, log: SshLog, lastOutput: string)
    requires |log| == Max0(maxRetries)
    requires forall j: nat :: j < |log| ==> !SessionSucceeds(sessions(j))
    requires lastOutput == if |log| == 0 then "" else SessionOutput(sessions(|log| - 1))
    ensures DirectOutcome(sessions, maxRetries, false, Exhausted(maxRetries, "output", lastOutput), log)
  {
    FirstSuccessCharacterized(DirectSuccesses(sessions), maxRetries, 0);
  }

  /** `VM._ping_direct`: SSH into the VM's public IP and run the ping, up to
      `max_retries` times. */
  method PingDirect(vm: Vm, targetIp: string, policy: PingPolicy, sessions: nat -> Session)
    returns (success: bool, output: string, log: SshLog)
    requires vm.publicIp.Some?
    ensures DirectOutcome(sessions, policy.maxRetries, success, output, log)
    ensures DirectLog(log, vm.publicIp.value, PingCommand(policy.pingCount, targetIp), sessions)
    ensures SleptExactly(log, DirectSleeps(sessions, policy.maxRetries))
    ensures SleepCount(log) == if success then |log| - 1 else Max0(policy.maxRetries - 1)
  {
    var host := vm.publicIp.value;
    var command := PingCommand(policy.pingCount, targetIp);
    var lastOutput := "";
    log := [];
    var attempt: nat := 0;
    while attempt < policy.maxRetries
      invariant |log| == attempt
      invariant attempt == 0 || attempt <= policy.maxRetries
      invariant forall j: nat :: j < attempt ==> !SessionSucceeds(sessions(j))
      invariant lastOutput == if attempt == 0 then "" else SessionOutput(sessions(attempt - 1))
      invariant DirectLog(log, host, command, sessions)
      invariant SleptExactly(log, DirectSleeps(sessions, policy.maxRetries))
    {
      var succeeded, attemptOutput;
      log, succeeded, attemptOutput := DirectStep(host, command, sessions, policy.maxRetries, log);
      if succeeded {
        DirectReturnsAtFirst(sessions, policy.maxRetries, log, attemptOutput);
        DirectSleepCount(log, sessions, policy.maxRetries);
        return true, attemptOutput, log;
      }
      lastOutput := attemptOutput;
      attempt := attempt + 1;
    }
    DirectReportsLast(sessions, policy.maxRetries, log, lastOutput);
    DirectSleepCount(log, sessions, policy.maxRetries);
    success, output := false, Exhausted(policy.maxRetries, "output", lastOutput);
  }

  /** One pass of `_ping_via_bastion`'s loop body: the `try` block, its
      `except`, its `finally` and the sleep that follows unless the pass
      returns, leaves by `continue` or is the last. `succeeded` says whether it
      returns `(True, output)`; otherwise `output` is the new `last_output`. */
  method BastionTry(bastionHost: string, privateIp: string, command: string, hop: Hop, isLast: bool)
    returns (entry: Attempt<SshAction>, succeeded: bool, output: string)
    ensures entry.actions == BastionActions(bastionHost, privateIp, command, hop)
    ensures succeeded == HopSucceeds(hop)
    ensures entry.slept <==> !isLast && !succeeded && !hop.NoTransport?
    ensures output == if succeeded then hop.session.stdout else HopOutput(hop)
  {
    var actions := [];
    var skipsSleep;
    succeeded, skipsSleep := false, false;
    match hop {
      case BastionConnectFailed(e) =>
        output := e;
      case NoTransport =>
        actions := [Connected(BastionClient, bastionHost)];
        output, skipsSleep := NoTransportMessage, true;
      case ChannelFailed(e) =>
        actions := [Connected(BastionClient, bastionHost)];
        output := e;
      case Tunnelled(session) =>
        actions := [Connected(BastionClient, bastionHost), Tunnel(privateIp, SshPort)];
        match session {
          case ConnectFailed(e) =>
            output := e;
          case ExecFailed(e) =>
            actions := actions + [Connected(PrivateClient, privateIp)];
            output := e;
          case ReadFailed(e) =>
            actions := actions + [Connected(PrivateClient, privateIp), Ran(PrivateClient, command)];
            output := e;
          case Completed(status, out, err) =>
            actions := actions + [Connected(PrivateClient, privateIp), Ran(PrivateClient, command)];
            succeeded := status == 0;
            output := if succeeded then out else out + "\n" + err;
        }
    }
    // finally: private_client.close(); bastion_client.close()
    actions := actions + [Closed(PrivateClient), Closed(BastionClient)];
    entry := Attempt(actions, !isLast && !succeeded && !skipsSleep);
  }

  /** Attempt `|log|` of `_ping_via_bastion` with its entry appended to the
      log: the log keeps the exact steps and sleeps of every attempt. */
  method BastionStep(bastionHost: string, privateIp: string, command: string, hops: nat -> Hop,
                     maxRetries: int, log: SshLog)
    returns (next: SshLog, succeeded: bool, output: string)
    requires |log| < maxRetries
    requires BastionLog(log, bastionHost, privateIp, command, hops)
    requires SleptExactly(log, BastionSleeps(hops, maxRetries))
    ensures |next| == |log| + 1
    ensures BastionLog(next, bastionHost, privateIp, command, hops)
    ensures SleptExactly(next, BastionSleeps(hops, maxRetries))
    ensures succeeded == HopSucceeds(hops(|log|))
    ensures output == if succeeded then hops(|log|).session.stdout else HopOutput(hops(|log|))
  {
    var entry;
    entry, succeeded, output := BastionTry(bastionHost, privateIp, command, hops(|log|), |log| == maxRetries - 1);
    BastionLogAppend(log, entry, bastionHost, privateIp, command, hops);
    SleptExactlyAppend(log, entry, BastionSleeps(hops, maxRetries));
    next := log + [entry];
  }

  /** The outcome of the retry loop of `_ping_via_bastion`: it returns at
      the first attempt that succeeds, or reports the last output once every
      attempt failed. */
  predicate BastionOutcome(hops: nat -> Hop, maxRetries: int, success: bool, output: string, log: SshLog) {
    var first := FirstSuccess(HopSuccesses(hops), maxRetries);
    && success == first.Some?
    && (first.Some? ==>
          && |log| == first.value + 1
          && HopSucceeds(hops(first.value))
          && output == hops(first.value).session.stdout)
    && (first.None? ==>
          && |log| == Max0(maxRetries)
          && output == Exhausted(maxRetries, "output", LastHopOutput(hops, maxRetries)))
  }

  /** `_ping_via_bastion` returning at attempt `|log| - 1`, after every
      earlier attempt failed, is its first success. */
  lemma BastionReturnsAtFirst(hops: nat -> Hop, maxRetries: int, log: SshLog, output: string)
    requires 1 <= |log| <= maxRetries
    requires forall j: nat :: j < |log| - 1 ==> !HopSucceeds(hops(j))
    requires HopSucceeds(hops(|log| - 1)) && output == hops(|log| - 1).session.stdout
    ensures BastionOutcome(hops, maxRetries, true, output, log)
  {
    FirstSuccessCharacterized(HopSuccesses(hops), maxRetries, |log| - 1);
  }

  /** `_ping_via_bastion` leaving its loop after `max_retries` failed
      attempts reports the last one's output. */
  lemma BastionReportsLast(hops: nat -> Hop, maxRetries: int, log: SshLog, lastOutput: string)
    requires |log| == Max0(maxRetries)
    requires forall j: nat :: j < |log| ==> !HopSucceeds(hops(j))
    requires lastOutput == if |log| == 0 then "" else HopOutput(hops(|log| - 1))
    ensures BastionOutcome(hops, maxRetries, false, Exhausted(maxRetries, "output", lastOutput), log)
  {
    FirstSuccessCharacterized(HopSuccesses(hops), maxRetries, 0);
  }

  /** The retry loop of `VM._ping_via_bastion`, once the bastion's public IP
      is known. */
  method RetryThroughBastion(bastionHost: string, privateIp: string, command: string,
                             maxRetries: int, hops: nat -> Hop)
    returns (success: bool, output: string, log: SshLog)
    ensures BastionOutcome(hops, maxRetries, success, output, log)
    ensures BastionLog(log, bastionHost, privateIp, command, hops)
    ensures SleptExactly(log, BastionSleeps(hops, maxRetries))
  {
    log := [];
    var lastOutput := "";
    var attempt: nat := 0;
    while attempt < maxRetries
      invariant |log| == attempt
      invariant attempt == 0 || attempt <= maxRetries
      invariant forall j: nat :: j < attempt ==> !HopSucceeds(hops(j))
      invariant lastOutput == if attempt == 0 then "" else HopOutput(hops(attempt - 1))
      invariant BastionLog(log, bastionHost, privateIp, command, hops)
      invariant SleptExactly(log, BastionSleeps(hops, maxRetries))
    {
      var succeeded, attemptOutput;
      log, succeeded, attemptOutput := BastionStep(bastionHost, privateIp, command, hops, maxRetries, log);
      if succeeded {
        BastionReturnsAtFirst(hops, maxRetries, log, attemptOutput);
        return true, attemptOutput, log;
      }
      lastOutput := attemptOutput;
      attempt := attempt + 1;
    }
    BastionReportsLast(hops, maxRetries, log, lastOutput);
    success, output := false, Exhausted(maxRetries, "output", lastOutput);
  }

  /** The same for `_ping_direct`. */
  predicate DirectOutcome(sessions: nat -> Session, maxRetries: int, success: bool, output: string, log: SshLog) {
    var first := FirstSuccess(DirectSuccesses(sessions), maxRetries);
    && success == first.Some?
    && (first.Some? ==>
          && |log| == first.value + 1
          && SessionSucceeds(sessions(first.value))
          && output == sessions(first.value).stdout)
    && (first.None? ==>
          && |log| == Max0(maxRetries)
          && output == Exhausted(maxRetries, "output", LastSessionOutput(sessions, maxRetries)))
  }

  /** `VM._ping_via_bastion`: SSH into the bastion, open a tunnel from it to
      this VM's private IP, SSH into this VM through the tunnel and run the
      ping, up to `max_retries` times. A bastion without a public IP is a
      configuration error raised before any connection. */
  method PingViaBastion(vm: Vm, targetIp: string, policy: PingPolicy, hops: nat -> Hop)
    returns (r: PingResult, log: SshLog)
    ensures r.ConfigError? <==> vm.bastion.None? || !Truthy(vm.bastion.value.publicIp)
    ensures r.ConfigError? ==> r.message == BastionNeedsPublicIp && log == []
    ensures r.Pinged? ==>
              && BastionOutcome(hops, policy.maxRetries, r.success, r.output, log)
              && BastionLog(log, vm.bastion.value.publicIp.value, vm.privateIp, PingCommand(policy.pingCount, targetIp), hops)
              && SleptExactly(log, BastionSleeps(hops, policy.maxRetries))
              && SleepCount(log) <= Max0(policy.maxRetries - 1)
  {
    if vm.bastion.None? || !Truthy(vm.bastion.value.publicIp) {
      return ConfigError(BastionNeedsPublicIp), [];
    }
    var success, output;
    success, output, log := RetryThroughBastion(vm.bastion.value.publicIp.value, vm.privateIp,
                                                PingCommand(policy.pingCount, targetIp), policy.maxRetries, hops);
    BastionSleepCount(log, hops, policy.maxRetries);
    r := Pinged(success, output);
  }

  /** `VM.ping`: through the public IP when the VM has one, else through its
      bastion, else a configuration error before any connection is made. */
  method Ping(vm: Vm, targetIp: string, policy: PingPolicy, sessions: nat -> Session, hops: nat -> Hop)
    returns (r: PingResult, log: SshLog)
    ensures r.ConfigError? <==> !Reachable(vm)
    ensures r.ConfigError? ==>
              && log == []
              && r.message == if vm.bastion.None? then NoRouteMessage(vm) else BastionNeedsPublicIp
    ensures Truthy(vm.publicIp) ==>
              && r.Pinged?
              && DirectOutcome(sessions, policy.maxRetries, r.success, r.output, log)
              && DirectLog(log, vm.publicIp.value, PingCommand(policy.pingCount, targetIp), sessions)
              && SleptExactly(log, DirectSleeps(sessions, policy.maxRetries))
              && SleepCount(log) == if r.success then |log| - 1 else Max0(policy.maxRetries - 1)
    ensures !Truthy(vm.publicIp) && Reachable(vm) ==>
              && r.Pinged?
              && BastionOutcome(hops, policy.maxRetries, r.success, r.output, log)
              && BastionLog(log, vm.bastion.value.publicIp.value, vm.privateIp, PingCommand(policy.pingCount, targetIp), hops)
              && SleptExactly(log, BastionSleeps(hops, policy.maxRetries))
              && SleepCount(log) <= Max0(policy.maxRetries - 1)
  {
    if Truthy(vm.publicIp) {
      var success, output;
      success, output, log := PingDirect(vm, targetIp, policy, sessions);
      r := Pinged(success, output);
    } else if vm.bastion.Some? {
      r, log := PingViaBastion(vm, targetIp, policy, hops);
    } else {
      r, log := ConfigError(NoRouteMessage(vm)), [];
    }
  }
}
