/**
 * The process-wide client of `GetSecretClient`, as a sequential state machine:
 * each call is one step. The first call runs the construction; no later call
 * runs it again. Concurrent first calls are not modelled.
 */
module Singleton {
  import opened Wrappers
  import opened Errors
  import opened KsmClient
  import opened PackerClient

  /** The package-level state: whether the construction ran, and how it ended. */
  datatype Singleton = Uninitialised | Ready(client: PackerKeeperClient) | Failed

  /** Go's pair `(*PackerKeeperClient, error)`; None stands for nil. */
  datatype Reply = Reply(client: Option<PackerKeeperClient>, err: Option<Error>)

  /**
   * One call of `GetSecretClient`, as written: the construction error lives
   * in a variable local to the call, so only the call that ran the
   * construction reports it, and later calls answer (nil, nil).
   */
  function GetSecretClient(s: Singleton, env: Environment): (out: (Singleton, Reply))
    ensures !out.0.Uninitialised?
    ensures !s.Uninitialised? ==> out.0 == s
    ensures out.0.Ready? ==> out.1 == Reply(Some(out.0.client), None)
    ensures s.Uninitialised? && out.0.Failed? ==> out.1.client.None? && out.1.err.Some?
    ensures s.Failed? ==> out.1 == Reply(None, None)
  {
    match s
    case Ready(c) => (s, Reply(Some(c), None))
    case Failed => (s, Reply(None, None))
    case Uninitialised =>
      match NewKeeperSecretClient(env)
      case Err(e) => (Failed, Reply(None, Some(e)))
      case Ok(k) =>
        var c := PackerKeeperClient(k);
        (Ready(c), Reply(Some(c), None))
  }

  /** A sequence of calls, each seeing the environment of its own moment. */
  function Run(s: Singleton, envs: seq<Environment>): (out: (Singleton, seq<Reply>))
    ensures |out.1| == |envs|
    decreases |envs|
  {
    if |envs| == 0 then (s, [])
    else
      var (s1, reply) := GetSecretClient(s, envs[0]);
      var (s2, replies) := Run(s1, envs[1..]);
      (s2, [reply] + replies)
  }

  /** How many calls in a run execute the construction. */
  function Constructions(s: Singleton, envs: seq<Environment>): nat
    decreases |envs|
  {
    if |envs| == 0 then 0
    else (if s.Uninitialised? then 1 else 0) + Constructions(GetSecretClient(s, envs[0]).0, envs[1..])
  }

  lemma {:induction false} NoConstructionOnceDone(s: Singleton, envs: seq<Environment>)
    requires !s.Uninitialised?
    ensures Constructions(s, envs) == 0
    decreases |envs|
  {
    if |envs| > 0 {
      NoConstructionOnceDone(GetSecretClient(s, envs[0]).0, envs[1..]);
    }
  }

  /** Across any number of calls, the client is constructed at most once. */
  lemma AtMostOneConstruction(s: Singleton, envs: seq<Environment>)
    ensures Constructions(s, envs) <= 1
    ensures !s.Uninitialised? ==> Constructions(s, envs) == 0
  {
    if |envs| > 0 {
      NoConstructionOnceDone(GetSecretClient(s, envs[0]).0, envs[1..]);
    }
    if !s.Uninitialised? {
      NoConstructionOnceDone(s, envs);
    }
  }

  /** From a settled state, every call answers alike, whatever its environment. */
  lemma {:induction false} SettledRun(s: Singleton, envs: seq<Environment>)
    requires !s.Uninitialised?
    ensures Run(s, envs).0 == s
    ensures forall i :: 0 <= i < |envs| ==>
      Run(s, envs).1[i] == (if s.Ready? then Reply(Some(s.client), None) else Reply(None, None))
    decreases |envs|
  {
    if |envs| > 0 {
      SettledRun(s, envs[1..]);
    }
  }

  /** After a successful construction, every call returns that same client and no error. */
  lemma {:induction false} SuccessShared(envs: seq<Environment>)
    requires |envs| > 0 && NewKeeperSecretClient(envs[0]).Ok?
    ensures forall i :: 0 <= i < |envs| ==>
      Run(Uninitialised, envs).1[i] == Reply(Some(PackerKeeperClient(NewKeeperSecretClient(envs[0]).value)), None)
  {
    var s1 := GetSecretClient(Uninitialised, envs[0]).0;
    SettledRun(s1, envs[1..]);
  }

  /**
   * As written, a failed construction is reported only to the first call;
   * every later call gets neither a client nor an error.
   */
  lemma {:induction false} FailureNotReplayed(envs: seq<Environment>)
    requires |envs| > 0 && NewKeeperSecretClient(envs[0]).Err?
    ensures Run(Uninitialised, envs).1[0] == Reply(None, Some(NewKeeperSecretClient(envs[0]).error))
    ensures forall i :: 1 <= i < |envs| ==> Run(Uninitialised, envs).1[i] == Reply(None, None)
  {
    SettledRun(Failed, envs[1..]);
  }

  /** The intended state: a failed construction keeps its error. */
  datatype CachingSingleton = NotBuilt | Built(client: PackerKeeperClient) | BuildFailed(error: Error)

  /** `GetSecretClient` with its error variable at package level: every call after a failure reports it. */
  function GetSecretClientCaching(s: CachingSingleton, env: Environment): (out: (CachingSingleton, Reply))
    ensures !out.0.NotBuilt?
    ensures !s.NotBuilt? ==> out.0 == s
    ensures out.0.Built? ==> out.1 == Reply(Some(out.0.client), None)
    ensures out.0.BuildFailed? ==> out.1 == Reply(None, Some(out.0.error))
    ensures out.1.client.Some? != out.1.err.Some?
  {
    match s
    case Built(c) => (s, Reply(Some(c), None))
    case BuildFailed(e) => (s, Reply(None, Some(e)))
    case NotBuilt =>
      match NewKeeperSecretClient(env)
      case Err(e) => (BuildFailed(e), Reply(None, Some(e)))
      case Ok(k) =>
        var c := PackerKeeperClient(k);
        (Built(c), Reply(Some(c), None))
  }

  function RunCaching(s: CachingSingleton, envs: seq<Environment>): (out: (CachingSingleton, seq<Reply>))
    ensures |out.1| == |envs|
    decreases |envs|
  {
    if |envs| == 0 then (s, [])
    else
      var (s1, reply) := GetSecretClientCaching(s, envs[0]);
      var (s2, replies) := RunCaching(s1, envs[1..]);
      (s2, [reply] + replies)
  }

  lemma {:induction false} SettledCachingRun(s: CachingSingleton, envs: seq<Environment>)
    requires !s.NotBuilt?
    ensures forall i :: 0 <= i < |envs| ==>
      RunCaching(s, envs).1[i] == (if s.Built? then Reply(Some(s.client), None) else Reply(None, Some(s.error)))
    decreases |envs|
  {
    if |envs| > 0 {
      SettledCachingRun(s, envs[1..]);
    }
  }

  /** Every call answers either a client or an error, and after a failure every call sees that same error. */
  lemma {:induction false} FailureReplayed(envs: seq<Environment>)
    requires |envs| > 0 && NewKeeperSecretClient(envs[0]).Err?
    ensures forall i :: 0 <= i < |envs| ==>
      RunCaching(NotBuilt, envs).1[i] == Reply(None, Some(NewKeeperSecretClient(envs[0]).error))
  {
    var e := NewKeeperSecretClient(envs[0]).error;
    var step := GetSecretClientCaching(NotBuilt, envs[0]);
    assert step.0 == BuildFailed(e);
    SettledCachingRun(step.0, envs[1..]);
  }
}
