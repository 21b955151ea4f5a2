/**
 * src/main.rs, the NetworkTables side: `nt_thread` (connect, announce the
 * `/watson/<name>` topic, then publish every pose sample the capture thread
 * hands over), the tokio task spawned on lift-off that restarts it, and the
 * shutdown hook that raises the stop flag and joins the capture thread.
 *
 * The NetworkTables client is not visible code: whether it connects, whether
 * the topic is created and how each publish ends are inputs.  A finite
 * script of attempts and rounds bounds the otherwise endless loops.
 */
module Network {
  import opened Outcomes
  import opened Wire
  import opened Config
  import opened Supervisor
  import opened Seqs
  import Capture

  /** `SocketAddrV4::new(.., 5810)`. */
  const NetworkTablesPort := 5810
  /** The `tokio::time::sleep(Duration::from_secs(1))` racing each publish. */
  const PublishTimeoutMs := 1000
  /** The pause after a failed `nt_thread`. */
  const RetryPauseMs := 500

  /** The topic name: `name` under the `/watson/` prefix. */
  function TopicName(name: string): (r: string)
    ensures |r| == |name| + 8 && r[8..] == name
  {
    "/watson/" + name
  }

  datatype Ipv4 = Ipv4(a: byte, b: byte, c: byte, d: byte)

  /** Why an `nt_thread` returned `Err`. */
  datatype NtError =
    | BadConfig        // `serde_json::from_str(..)?`
    | BadAddress       // `Ipv4Addr::from_str(..)?`
    | ConnectFailed    // `nt::Client::try_new(..).await?`
    | TopicRefused     // `publish_topic(..).await?`
    | ChannelClosed    // `data_recv.recv()?`: every sender is gone
    | PublishFailed    // `res?` on the publish future
    | TookTooLong      // the one-second sleep won the `select!`

  /** Which branch of the `select!` finishes first, and how. */
  datatype Publish = Published | PublishError | TimedOut

  /** One iteration of the publish loop: the flag reading, what `recv` gives, how the publish ends. */
  datatype NtRound = NtRound(flag: FlagRead, received: Option<seq<byte>>, publish: Publish)

  /** One call of `nt_thread`: how the client's two set-up calls end, then the rounds it would see. */
  datatype Attempt = Attempt(connects: bool, topicCreated: bool, rounds: seq<NtRound>)

  /** What every `nt_thread` call sees alike: the embedded configuration and the address parser. */
  datatype NtEnv = NtEnv(config: Option<Config>, parseIp: string -> Option<Ipv4>)

  datatype NtAction =
    | Connect(address: Ipv4, port: nat)
    | Announce(topic: string)          // raw type, neither persistent nor retained
    | PublishValue(data: seq<byte>)    // as `rmpv::Value::Binary`
    | Backoff(ms: nat)

  datatype NtOutcome = NtOk | NtErr(error: NtError) | NtScriptEnd

  datatype NtRun = NtRun(actions: seq<NtAction>, outcome: NtOutcome)

  // ---------------------------------------------------------------------
  // `nt_thread` (main.rs:60-94).

  /** The publish loop over the rounds still to come. */
  function Publishing(rounds: seq<NtRound>): (r: NtRun)
    ensures |r.actions| <= |rounds|
    decreases |rounds|
  {
    if rounds == [] then NtRun([], NtScriptEnd)
    else
      var round := rounds[0];
      if round.flag != Clear then NtRun([], NtOk)
      else if round.received.None? then NtRun([], NtErr(ChannelClosed))
      else
        var sent := PublishValue(round.received.value);
        match round.publish
        case PublishError => NtRun([sent], NtErr(PublishFailed))
        case TimedOut => NtRun([sent], NtErr(TookTooLong))
        case Published =>
          var more := Publishing(rounds[1..]);
          NtRun([sent] + more.actions, more.outcome)
  }

  /** The set-up before the loop: each `?` returns its error. */
  function Setup(env: NtEnv, attempt: Attempt): NtRun
  {
    if env.config.None? then NtRun([], NtErr(BadConfig))
    else
      var config := env.config.value;
      var address := env.parseIp(config.serverIp);
      if address.None? then NtRun([], NtErr(BadAddress))
      else if !attempt.connects then NtRun([Connect(address.value, NetworkTablesPort)], NtErr(ConnectFailed))
      else
        var actions := [Connect(address.value, NetworkTablesPort), Announce(TopicName(config.cameraName))];
        if !attempt.topicCreated then NtRun(actions, NtErr(TopicRefused))
        else NtRun(actions, NtOk)
  }

  function NtThread(env: NtEnv, attempt: Attempt): NtRun
  {
    var setup := Setup(env, attempt);
    if setup.outcome != NtOk then setup
    else
      var loop := Publishing(attempt.rounds);
      NtRun(setup.actions + loop.actions, loop.outcome)
  }

  /** A round the loop passes through: flag clear, a sample received, its publish finished in time. */
  predicate Passes(round: NtRound)
  {
    round.flag == Clear && round.received.Some? && round.publish == Published
  }

  /** The outcome of the round that stops the loop (or of running out of rounds). */
  function Verdict(rounds: seq<NtRound>, m: nat): NtOutcome
    requires m <= |rounds|
  {
    if m == |rounds| then NtScriptEnd
    else if rounds[m].flag != Clear then NtOk
    else if rounds[m].received.None? then NtErr(ChannelClosed)
    else match rounds[m].publish
      case PublishError => NtErr(PublishFailed)
      case TimedOut => NtErr(TookTooLong)
      case Published => NtScriptEnd
  }

  /** The publish of the stopping round, if it got as far as publishing. */
  function LastPublish(rounds: seq<NtRound>, m: nat): seq<NtAction>
    requires m <= |rounds|
  {
    if m < |rounds| && rounds[m].flag == Clear && rounds[m].received.Some?
    then [PublishValue(rounds[m].received.value)]
    else []
  }

  /**
   * The loop read from the first round that does not pass: every sample
   * received before it is published in order, the stopping round decides
   * the outcome, and it is published too when the publish itself failed or
   * timed out.  So the loop returns `Ok` exactly at a raised (or poisoned)
   * flag, and a publish that takes longer than a second is an error.
   */
  lemma {:induction false} PublishingStopsAt(rounds: seq<NtRound>, m: nat)
    requires m <= |rounds|
    requires forall k :: 0 <= k < m ==> Passes(rounds[k])
    requires m < |rounds| ==> !Passes(rounds[m])
    ensures var r := Publishing(rounds);
      && r.outcome == Verdict(rounds, m)
      && |r.actions| == m + |LastPublish(rounds, m)|
      && (forall k :: 0 <= k < m ==> Passes(rounds[k]) && r.actions[k] == PublishValue(rounds[k].received.value))
      && r.actions[m..] == LastPublish(rounds, m)
    decreases m
  {
    if m > 0 {
      var tail := rounds[1..];
      forall k | 0 <= k < m - 1
        ensures Passes(tail[k])
      {
        assert tail[k] == rounds[k + 1];
      }
      PublishingStopsAt(tail, m - 1);
      assert LastPublish(tail, m - 1) == LastPublish(rounds, m);
      var more := Publishing(tail);
      forall k | 0 <= k < m
        ensures Publishing(rounds).actions[k] == PublishValue(rounds[k].received.value)
      {
        if k > 0 {
          assert Publishing(rounds).actions[k] == more.actions[k - 1];
        }
      }
    }
  }

  /** The loop stops somewhere: the first round that does not pass, or the end of the script. */
  lemma {:induction false} FirstStop(rounds: seq<NtRound>) returns (m: nat)
    ensures m <= |rounds|
    ensures forall k :: 0 <= k < m ==> Passes(rounds[k])
    ensures m < |rounds| ==> !Passes(rounds[m])
    decreases |rounds|
  {
    if rounds == [] || !Passes(rounds[0]) {
      return 0;
    }
    var n := FirstStop(rounds[1..]);
    m := n + 1;
    forall k | 0 <= k < m
      ensures Passes(rounds[k])
    {
      if k > 0 {
        assert rounds[k] == rounds[1..][k - 1];
      }
    }
  }

  /**
   * The client's calls come in the program's order: connect to port 5810 of
   * the configured server, announce `/watson/<camera name>`, and only then
   * publish; nothing is published unless both set-up calls succeeded.
   */
  lemma NtThreadOrder(env: NtEnv, attempt: Attempt)
    ensures var r := NtThread(env, attempt);
      && (r.actions != [] ==>
            && env.config.Some? && env.parseIp(env.config.value.serverIp).Some?
            && r.actions[0] == Connect(env.parseIp(env.config.value.serverIp).value, NetworkTablesPort))
      && (|r.actions| >= 2 ==>
            && attempt.connects
            && r.actions[1] == Announce(TopicName(env.config.value.cameraName)))
      && (|r.actions| >= 3 ==> attempt.topicCreated)
      && forall k :: 2 <= k < |r.actions| ==> r.actions[k].PublishValue?
  {
    var setup := Setup(env, attempt);
    if setup.outcome == NtOk {
      var m := FirstStop(attempt.rounds);
      PublishingStopsAt(attempt.rounds, m);
      var loop := Publishing(attempt.rounds);
      forall k | 2 <= k < |setup.actions + loop.actions|
        ensures (setup.actions + loop.actions)[k].PublishValue?
      {
        assert (setup.actions + loop.actions)[k] == loop.actions[k - 2];
      }
    }
  }

  /** `nt_thread` never pauses: the back-off belongs to the network task around it. */
  lemma {:induction false} NtThreadNoBackoff(env: NtEnv, attempt: Attempt)
    ensures BackoffCount(NtThread(env, attempt).actions) == 0
  {
    var r := NtThread(env, attempt);
    NtThreadOrder(env, attempt);
    NoBackoffs(r.actions);
  }

  /** `nt_thread`, with the loop at main.rs:77-93. */
  method RunNtThread(env: NtEnv, attempt: Attempt) returns (r: NtRun)
    ensures r == NtThread(env, attempt)
  {
    if env.config.None? {
      return NtRun([], NtErr(BadConfig));
    }
    var config := env.config.value;
    var address := env.parseIp(config.serverIp);
    if address.None? {
      return NtRun([], NtErr(BadAddress));
    }
    var actions := [Connect(address.value, NetworkTablesPort)];
    if !attempt.connects {
      return NtRun(actions, NtErr(ConnectFailed));
    }
    actions := actions + [Announce(TopicName(config.cameraName))];
    if !attempt.topicCreated {
      return NtRun(actions, NtErr(TopicRefused));
    }
    var rounds := attempt.rounds;
    var i := 0;
    while true
      invariant 0 <= i <= |rounds|
      invariant NtThread(env, attempt)
        == NtRun(actions + Publishing(rounds[i..]).actions, Publishing(rounds[i..]).outcome)
      decreases |rounds| - i
    {
      if i == |rounds| {
        return NtRun(actions, NtScriptEnd);
      }
      var round := rounds[i];
      if round.flag != Clear {
        return NtRun(actions, NtOk);
      }
      if round.received.None? {
        return NtRun(actions, NtErr(ChannelClosed));
      }
      var sent := PublishValue(round.received.value);
      assert rounds[i..][1..] == rounds[i + 1..];
      AppendAssoc(actions, [sent], Publishing(rounds[i + 1..]).actions);
      actions := actions + [sent];
      match round.publish
      case PublishError =>
        return NtRun(actions, NtErr(PublishFailed));
      case TimedOut =>
        return NtRun(actions, NtErr(TookTooLong));
      case Published =>
        i := i + 1;
    }
  }

  // ---------------------------------------------------------------------
  // The tokio task spawned on lift-off (main.rs:160-173).

  /** What the network task did, and how many `nt_thread` calls returned. */
  datatype TaskRun = TaskRun(actions: seq<NtAction>, runs: nat)

  /** The endless restart loop over the scripted attempts; an attempt that runs out of script ends it. */
  function NetworkTask(env: NtEnv, attempts: seq<Attempt>): (r: TaskRun)
    ensures r.runs <= |attempts|
    decreases |attempts|
  {
    if attempts == [] then TaskRun([], 0)
    else
      var run := NtThread(env, attempts[0]);
      if run.outcome == NtScriptEnd then TaskRun(run.actions, 0)
      else
        var more := NetworkTask(env, attempts[1..]);
        TaskRun(run.actions + (if run.outcome.NtErr? then [Backoff(RetryPauseMs)] else []) + more.actions, more.runs + 1)
  }

  function BackoffCount(actions: seq<NtAction>): nat
  {
    if actions == [] then 0
    else (if actions[0].Backoff? then 1 else 0) + BackoffCount(actions[1..])
  }

  lemma {:induction false} BackoffCountAppend(a: seq<NtAction>, b: seq<NtAction>)
    ensures BackoffCount(a + b) == BackoffCount(a) + BackoffCount(b)
    decreases |a|
  {
    if a == [] {
      assert a + b == b;
    } else {
      assert (a + b)[0] == a[0];
      assert (a + b)[1..] == a[1..] + b;
      BackoffCountAppend(a[1..], b);
    }
  }

  lemma {:induction false} NoBackoffs(actions: seq<NtAction>)
    requires forall k :: 0 <= k < |actions| ==> !actions[k].Backoff?
    ensures BackoffCount(actions) == 0
    decreases |actions|
  {
    if actions != [] {
      assert forall k :: 0 <= k < |actions| - 1 ==> actions[1..][k] == actions[k + 1];
      NoBackoffs(actions[1..]);
    }
  }

  /** How many of the attempts end in an error. */
  function ErrorCount(env: NtEnv, attempts: seq<Attempt>): nat
  {
    if attempts == [] then 0
    else (if NtThread(env, attempts[0]).outcome.NtErr? then 1 else 0) + ErrorCount(env, attempts[1..])
  }

  /**
   * The network task pauses 500 ms once per failed `nt_thread` and never otherwise:
   * an `Ok` (the stop flag) is followed at once by the next attempt.
   */
  lemma {:induction false} BackoffOnlyAfterErrors(env: NtEnv, attempts: seq<Attempt>)
    ensures var r := NetworkTask(env, attempts);
      BackoffCount(r.actions) == ErrorCount(env, attempts[..r.runs])
    decreases |attempts|
  {
    if attempts != [] {
      var run := NtThread(env, attempts[0]);
      NtThreadNoBackoff(env, attempts[0]);
      if run.outcome != NtScriptEnd {
        var more := NetworkTask(env, attempts[1..]);
        BackoffOnlyAfterErrors(env, attempts[1..]);
        var pause: seq<NtAction> := if run.outcome.NtErr? then [Backoff(RetryPauseMs)] else [];
        BackoffCountAppend(run.actions, pause);
        BackoffCountAppend(run.actions + pause, more.actions);
        assert BackoffCount(pause) == if run.outcome.NtErr? then 1 else 0;
        var prefix := attempts[..more.runs + 1];
        assert prefix[0] == attempts[0];
        assert prefix[1..] == attempts[1..][..more.runs];
      }
    }
  }

  /**
   * The network task never leaves its loop: as long as the script lasts, every
   * attempt returns and the next one starts, whether it returned `Ok` or an
   * error.
   */
  lemma {:induction false} NetworkTaskNeverExits(env: NtEnv, attempts: seq<Attempt>)
    requires forall k :: 0 <= k < |attempts| ==> NtThread(env, attempts[k]).outcome != NtScriptEnd
    ensures NetworkTask(env, attempts).runs == |attempts|
    decreases |attempts|
  {
    if attempts != [] {
      assert NtThread(env, attempts[0]).outcome != NtScriptEnd;
      forall k | 0 <= k < |attempts| - 1
        ensures NtThread(env, attempts[1..][k]).outcome != NtScriptEnd
      {
        assert attempts[1..][k] == attempts[k + 1];
      }
      NetworkTaskNeverExits(env, attempts[1..]);
    }
  }

  /** The network task, as the loop at main.rs:165-170. */
  method RunNetworkTask(env: NtEnv, attempts: seq<Attempt>) returns (r: TaskRun)
    ensures r == NetworkTask(env, attempts)
  {
    var actions: seq<NtAction> := [];
    var i := 0;
    while true
      invariant 0 <= i <= |attempts|
      invariant var later := NetworkTask(env, attempts[i..]);
        NetworkTask(env, attempts) == TaskRun(actions + later.actions, i + later.runs)
      decreases |attempts| - i
    {
      if i == |attempts| {
        return TaskRun(actions, i);
      }
      var run := RunNtThread(env, attempts[i]);
      if run.outcome == NtScriptEnd {
        return TaskRun(actions + run.actions, i);
      }
      assert attempts[i..][1..] == attempts[i + 1..];
      var logged := run.actions + (if run.outcome.NtErr? then [Backoff(RetryPauseMs)] else []);
      AppendAssoc(actions, logged, NetworkTask(env, attempts[i + 1..]).actions);
      actions := actions + logged;
      i := i + 1;
    }
  }

  // ---------------------------------------------------------------------
  // The shared stop flag and join handle (main.rs:56-58, 100, 174-181).

  /** A thread handle; only its identity matters. */
  type ThreadId = nat

  datatype LifeState = LifeState(stop: bool, poisoned: bool, handle: Option<ThreadId>, joined: seq<ThreadId>)

  /** A reading of the stop flag (its value, or a poisoned lock) in a given state. */
  function FlagOf(s: LifeState): (r: FlagRead)
    ensures r == Clear <==> !s.stop && !s.poisoned
    ensures r == Poisoned <==> s.poisoned
  {
    if s.poisoned then Poisoned else if s.stop then Raised else Clear
  }

  /**
   * The shutdown hook: `lock().unwrap()` panics on a poisoned lock;
   * otherwise the flag is set, the handle taken and, if there was one,
   * joined (its `unwrap` panics when the joined thread had panicked).
   */
  function ShutdownStep(s: LifeState, joinOk: bool): (LifeState, Outcome<()>)
  {
    if s.poisoned then (s, Panicked)
    else
      var raised := s.(stop := true, handle := None);
      match s.handle
      case None => (raised, Returned(()))
      case Some(t) => (raised.(joined := s.joined + [t]), if joinOk then Returned(()) else Panicked)
  }

  /**
   * After the hook the flag never reads `Ok(false)` again, so both loops of
   * the capture thread and the publish loop stop at their next check; the
   * handle is gone, and the thread it held is the one joined.
   */
  lemma ShutdownRaisesFlag(s: LifeState, joinOk: bool)
    ensures var (t, r) := ShutdownStep(s, joinOk);
      && FlagOf(t) != Clear
      && (r.Returned? ==> FlagOf(t) == Raised && t.handle.None?)
      && (s.handle.Some? && !s.poisoned ==> t.joined == s.joined + [s.handle.value])
      && (s.handle.None? || s.poisoned ==> t.joined == s.joined)
  {
  }

  /** A second shutdown joins nothing more. */
  lemma ShutdownJoinsOnce(s: LifeState, first: bool, second: bool)
    requires !s.poisoned
    ensures var t := ShutdownStep(s, first).0;
      ShutdownStep(t, second) == (t, Returned(()))
  {
  }

  /**
   * Tied to the supervisor: once the hook has run, readings of the flag
   * from then on are Raised (or Poisoned), and two of them end the capture
   * thread's outer loop, which is what the join waits for.
   */
  lemma ShutdownEndsCaptureThread(env: Environment, config: Option<Config>, history: seq<Capture.Event>, s: LifeState, joinOk: bool,
                                  before: seq<FlagRead>, after: nat)
    requires after >= 2
    ensures var t := ShutdownStep(s, joinOk).0;
      Supervise(env, config, history, before + seq(after, _ => FlagOf(t))).exited
  {
    var t := ShutdownStep(s, joinOk).0;
    var flags := before + seq(after, _ => FlagOf(t));
    ShutdownRaisesFlag(s, joinOk);
    assert forall j :: |flags| - after <= j < |flags| ==> flags[j] == FlagOf(t);
    SuperviseExitsOnStop(env, config, history, flags, after);
  }

  /** The two lazily initialised globals and the handle stored at spawn. */
  class Lifecycle {
    var stop: bool
    var poisoned: bool
    var handle: Option<ThreadId>
    var joined: seq<ThreadId>

    function State(): LifeState
      reads this
    {
      LifeState(stop, poisoned, handle, joined)
    }

    /** `Mutex::new(false)` and `Mutex::new(None)`. */
    constructor ()
      ensures State() == LifeState(false, false, None, [])
    {
      stop, poisoned, handle, joined := false, false, None, [];
    }

    /** Reading the stop flag through its lock. */
    function Flag(): (r: FlagRead)
      reads this
      ensures r == Clear <==> !stop && !poisoned
      ensures r == Poisoned <==> poisoned
    {
      FlagOf(State())
    }

    /** Spawning the capture thread and storing its handle in the join-handle global. */
    method Spawn(thread: ThreadId)
      modifies this
      ensures State() == old(State()).(handle := Some(thread))
    {
      handle := Some(thread);
    }

    /** The `on_shutdown` fairing. */
    method Shutdown(joinOk: bool) returns (r: Outcome<()>)
      modifies this
      ensures (State(), r) == ShutdownStep(old(State()), joinOk)
    {
      if poisoned {
        return Panicked;
      }
      stop := true;
      var taken := handle;
      handle := None;
      if taken.None? {
        return Returned(());
      }
      joined := joined + [taken.value];
      if !joinOk {
        return Panicked;
      }
      return Returned(());
    }
  }
}
