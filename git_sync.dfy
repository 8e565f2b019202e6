/** The self-update routine `git()` of DeadlineTech/core/git.py:36-73.
    Every GitPython call is a step whose outcome the environment decides: it
    returns, or it raises one of the exceptions of `Python.Exception`. A run
    yields the ordered trace of calls and log lines, the repository state
    those calls leave behind, and the exception that escapes, if any. */
module GitSync {
  import opened Python
  import RemoteUrl

  const ORIGIN := "origin"
  const INSTALL_COMMAND := "pip3 install --no-cache-dir -r requirements.txt"

  /** The three settings the routine reads from `config`. */
  datatype Config = Config(upstreamRepo: string, upstreamBranch: string, gitToken: Option<string>)

  /** What one library call does: return, or raise. */
  datatype Outcome = Returns | Raises(error: Exception)

  /** The calls the routine makes, in source order. */
  datatype Op =
    | Open                        // Repo()
    | Init                        // Repo.init()
    | ReuseOrigin                 // repo.remotes.origin
    | CreateOrigin(url: string)   // repo.create_remote("origin", url)
    | FetchAll                    // origin.fetch()
    | CreateHead(branch: string)  // repo.create_head(branch, origin.refs[branch])
    | SetTracking(branch: string) // repo.heads[branch].set_tracking_branch(origin.refs[branch])
    | Checkout(branch: string)    // repo.heads[branch].checkout(True)
    | FetchBranch(branch: string) // origin.fetch(branch)
    | Pull(branch: string)        // origin.pull(branch)
    | ResetHard                   // repo.git.reset("--hard", "FETCH_HEAD")
    | Install(command: string)    // install_req(command)

  /** The informational log lines. */
  datatype Note = GitNotFound | ClientFound | InvalidGitCommand | FetchingUpdates

  /** One entry of a run's trace: a call, an info line, or a warning line. */
  datatype Action = Call(op: Op) | Info(note: Note) | Warning(error: Exception)

  /** The environment of one run: whether the `git` executable is on the path
      and GitPython imported, and the outcome each call would have. */
  datatype Env = Env(
    gitOnPath: bool,
    gitPythonImported: bool,
    open: Outcome,
    init: Outcome,
    createRemote: Outcome,
    fetchAll: Outcome,
    createHead: Outcome,
    setTracking: Outcome,
    checkout: Outcome,
    fetchBranch: Outcome,
    pull: Outcome,
    reset: Outcome,
    install: Outcome)
  {
    predicate HasTooling() {
      gitOnPath && gitPythonImported
    }

    function OutcomeOf(op: Op): Outcome {
      match op
      case Open => open
      case Init => init
      case ReuseOrigin => Returns
      case CreateOrigin(_) => createRemote
      case FetchAll => fetchAll
      case CreateHead(_) => createHead
      case SetTracking(_) => setTracking
      case Checkout(_) => checkout
      case FetchBranch(_) => fetchBranch
      case Pull(_) => pull
      case ResetHard => reset
      case Install(_) => install
    }
  }

  /** The remote branch a local branch tracks. */
  datatype Upstream = Upstream(remote: string, branch: string)

  /** What the working tree holds, as far as the routine changes it. */
  datatype Tree = Untouched | AtBranch(branch: string) | Pulled(branch: string) | AtFetchHead

  /** The local repository: remotes by name with their URLs, local branches
      with the branch each tracks, the checked-out branch, the working tree. */
  datatype RepoState = RepoState(
    remotes: map<string, string>,
    heads: map<string, Option<Upstream>>,
    active: Option<string>,
    tree: Tree)

  /** What a call that returns does to the repository. */
  function Effect(op: Op, st: RepoState): RepoState {
    match op
    case CreateOrigin(url) => st.(remotes := st.remotes[ORIGIN := url])
    case CreateHead(b) => st.(heads := st.heads[b := None])
    case SetTracking(b) => st.(heads := st.heads[b := Some(Upstream(ORIGIN, b))])
    case Checkout(b) => st.(active := Some(b), tree := AtBranch(b))
    case Pull(b) => st.(tree := Pulled(b))
    case ResetHard => st.(tree := AtFetchHead)
    case _ => st
  }

  /** The effects of calls that all returned, in order. */
  function EffectAll(ops: seq<Op>, st: RepoState): RepoState
    decreases |ops|
  {
    if ops == [] then st else EffectAll(ops[1..], Effect(ops[0], st))
  }

  /** The result of a stretch of the routine: its trace, the repository it
      leaves, and the exception it raises, if any. */
  datatype Stage = Stage(trace: seq<Action>, state: RepoState, raised: Option<Exception>)

  function Calls(ops: seq<Op>): (r: seq<Action>)
    ensures |r| == |ops| && forall i :: 0 <= i < |ops| ==> r[i] == Call(ops[i])
  {
    seq(|ops|, i requires 0 <= i < |ops| => Call(ops[i]))
  }

  /** Statements run one after another with no handler between them: each
      call is made only when every call before it returned. */
  function Perform(env: Env, ops: seq<Op>, st: RepoState): Stage
    decreases |ops|
  {
    if ops == [] then Stage([], st, None)
    else
      match env.OutcomeOf(ops[0])
      case Raises(e) => Stage([Call(ops[0])], st, Some(e))
      case Returns =>
        var rest := Perform(env, ops[1..], Effect(ops[0], st));
        Stage([Call(ops[0])] + rest.trace, rest.state, rest.raised)
  }

  /** A `Perform` stage records the calls it made, a prefix of `ops`: all of
      them when it raises nothing, and otherwise up to the one whose
      exception it raises; every call before that one returned. */
  lemma {:induction false} PerformCalls(env: Env, ops: seq<Op>, st: RepoState)
    ensures var r := Perform(env, ops, st);
      && |r.trace| <= |ops| && r.trace == Calls(ops[..|r.trace|])
      && (r.raised.None? ==> |r.trace| == |ops|)
      && (r.raised.Some? ==> |r.trace| > 0 && env.OutcomeOf(ops[|r.trace| - 1]) == Raises(r.raised.value))
      && (forall i :: 0 <= i < |r.trace| && (r.raised.None? || i < |r.trace| - 1) ==> env.OutcomeOf(ops[i]).Returns?)
    decreases |ops|
  {
    if ops != [] && env.OutcomeOf(ops[0]).Returns? {
      var rest := Perform(env, ops[1..], Effect(ops[0], st));
      PerformCalls(env, ops[1..], Effect(ops[0], st));
      assert ops[..|rest.trace| + 1] == [ops[0]] + ops[1..][..|rest.trace|];
    }
  }

  /** A `Perform` stage whose call `k` is the first to raise records the
      calls up to `k`, keeps the effects of those before it, and raises
      that call's exception. */
  lemma PerformStopsAt(env: Env, ops: seq<Op>, st: RepoState, k: nat)
    requires k < |ops|
    requires forall j :: 0 <= j < k ==> env.OutcomeOf(ops[j]).Returns?
    requires env.OutcomeOf(ops[k]).Raises?
    ensures Perform(env, ops, st) == Stage(Calls(ops[..k + 1]), EffectAll(ops[..k], st), Some(env.OutcomeOf(ops[k]).error))
  {
    var r := Perform(env, ops, st);
    PerformState(env, ops, st);
    PerformCalls(env, ops, st);
    assert r.raised.Some? && |r.trace| == k + 1;
  }

  /** A `Perform` stage whose calls all return records them all, keeps all
      their effects and raises nothing. */
  lemma PerformAllReturn(env: Env, ops: seq<Op>, st: RepoState)
    requires forall j :: 0 <= j < |ops| ==> env.OutcomeOf(ops[j]).Returns?
    ensures Perform(env, ops, st) == Stage(Calls(ops), EffectAll(ops, st), None)
  {
    var r := Perform(env, ops, st);
    PerformCalls(env, ops, st);
    PerformState(env, ops, st);
    assert r.raised.None?;
    assert ops[..|ops|] == ops;
  }

  /** One more call of a `Perform` stage whose earlier calls returned: the
      trace and the effects grow by that call, and if it raises, the stage
      ends there. */
  lemma Advance(env: Env, ops: seq<Op>, k: nat, st: RepoState)
    requires k < |ops|
    requires forall j :: 0 <= j < k ==> env.OutcomeOf(ops[j]).Returns?
    ensures Calls(ops[..k + 1]) == Calls(ops[..k]) + [Call(ops[k])]
    ensures EffectAll(ops[..k + 1], st) == Effect(ops[k], EffectAll(ops[..k], st))
    ensures env.OutcomeOf(ops[k]).Raises? ==>
      Perform(env, ops, st) == Stage(Calls(ops[..k + 1]), EffectAll(ops[..k], st), Some(env.OutcomeOf(ops[k]).error))
  {
    EffectAllSnoc(ops, k, st);
    if env.OutcomeOf(ops[k]).Raises? {
      PerformStopsAt(env, ops, st, k);
    }
  }

  /** Applying the first `k + 1` calls is applying the first `k`, then call `k`. */
  lemma {:induction false} EffectAllSnoc(ops: seq<Op>, k: nat, st: RepoState)
    requires k < |ops|
    ensures EffectAll(ops[..k + 1], st) == Effect(ops[k], EffectAll(ops[..k], st))
    decreases k
  {
    if k > 0 {
      EffectAllSnoc(ops[1..], k - 1, Effect(ops[0], st));
      assert ops[..k + 1][1..] == ops[1..][..k];
      assert ops[..k][1..] == ops[1..][..k - 1];
    }
  }

  /** Two stretches of statements with no handler between them run as one:
      the second runs only when the first raised nothing. */
  lemma {:induction false} PerformAppend(env: Env, xs: seq<Op>, ys: seq<Op>, st: RepoState)
    ensures Perform(env, xs + ys, st) ==
      var a := Perform(env, xs, st);
      if a.raised.Some? then a
      else
        var b := Perform(env, ys, a.state);
        Stage(a.trace + b.trace, b.state, b.raised)
    decreases |xs|
  {
    if xs == [] {
      assert xs + ys == ys;
    } else {
      assert (xs + ys)[0] == xs[0];
      assert (xs + ys)[1..] == xs[1..] + ys;
      if env.OutcomeOf(xs[0]).Returns? {
        PerformAppend(env, xs[1..], ys, Effect(xs[0], st));
        var a := Perform(env, xs[1..], Effect(xs[0], st));
        if a.raised.None? {
          var b := Perform(env, ys, a.state);
          assert [Call(xs[0])] + (a.trace + b.trace) == ([Call(xs[0])] + a.trace) + b.trace;
        }
      }
    }
  }

  /** Lines 59-61: init, the `origin` remote, fetch. */
  function PrepareOps(url: string, remotes: map<string, string>): seq<Op> {
    [Init, if ORIGIN in remotes then ReuseOrigin else CreateOrigin(url), FetchAll]
  }

  /** Lines 62-64: branch, tracking, checkout. */
  function BranchOps(branch: string): seq<Op> {
    [CreateHead(branch), SetTracking(branch), Checkout(branch)]
  }

  /** Lines 59-64: init, the `origin` remote, fetch, branch, tracking, checkout. */
  function SetupOps(branch: string, url: string, remotes: map<string, string>): seq<Op> {
    PrepareOps(url, remotes) + BranchOps(branch)
  }

  /** Lines 65-69: fetch and pull the branch; on `GitCommandError` only,
      hard-reset to FETCH_HEAD. */
  function PullStage(env: Env, branch: string, st: RepoState): Stage {
    var pulled := Perform(env, [FetchBranch(branch), Pull(branch)], st);
    if pulled.raised == Some(GitCommandError) then
      var reset := Perform(env, [ResetHard], pulled.state);
      Stage(pulled.trace + reset.trace, reset.state, reset.raised)
    else pulled
  }

  /** Lines 65-71: the pull or the reset, then `install_req`, then the
      closing log line. */
  function UpdateStage(env: Env, branch: string, st: RepoState): Stage {
    var synced := PullStage(env, branch, st);
    if synced.raised.Some? then synced
    else
      var installed := Perform(env, [Install(INSTALL_COMMAND)], synced.state);
      Stage(synced.trace + installed.trace
              + (if installed.raised.None? then [Info(FetchingUpdates)] else []),
            installed.state, installed.raised)
  }

  /** Lines 59-71, the body of the inner `try`. */
  function InitStage(env: Env, branch: string, url: string, st: RepoState): Stage {
    var setup := Perform(env, SetupOps(branch, url, st.remotes), st);
    if setup.raised.Some? then setup
    else
      var update := UpdateStage(env, branch, setup.state);
      Stage(setup.trace + update.trace, update.state, update.raised)
  }

  /** Lines 51-73: open the repository, or initialise it and update it from
      `url`; only an exception from `Repo()` that no handler names escapes. */
  function OpenStage(env: Env, branch: string, url: string, st: RepoState): Stage {
    match env.open
    case Returns => Stage([Call(Open), Info(ClientFound)], st, None)
    case Raises(GitCommandError) => Stage([Call(Open), Info(InvalidGitCommand)], st, None)
    case Raises(InvalidGitRepositoryError) =>
      var handled := HandledInit(env, branch, url, st);
      Stage([Call(Open)] + handled.trace, handled.state, None)
    case Raises(e) => Stage([Call(Open)], st, Some(e))
  }

  /** Lines 58-73: the inner `try`, whose exception is logged as a warning. */
  function HandledInit(env: Env, branch: string, url: string, st: RepoState): Stage {
    var init := InitStage(env, branch, url, st);
    Stage(init.trace + (if init.raised.Some? then [Warning(init.raised.value)] else []), init.state, None)
  }

  /** Lines 36-73: one run of `git()`; `raised` is the exception that
      escapes the routine. */
  function GitRun(env: Env, cfg: Config, st: RepoState): Stage {
    if !env.HasTooling() then Stage([Info(GitNotFound)], st, None)
    else
      match RemoteUrl.CredentialedUrlAsWritten(cfg.upstreamRepo, cfg.gitToken)
      case Err(e) => Stage([], st, Some(e))
      case Ok(url) => OpenStage(env, cfg.upstreamBranch, url, st)
  }

  // Conditions on the environment, named after the branch of the source they decide.

  /** The run gets past line 49 and into `except InvalidGitRepositoryError`. */
  predicate ReachesInit(env: Env, cfg: Config) {
    && env.HasTooling()
    && RemoteUrl.CredentialedUrlAsWritten(cfg.upstreamRepo, cfg.gitToken).Ok?
    && env.open == Raises(InvalidGitRepositoryError)
  }

  /** Every call of lines 59-64 returns. */
  predicate SetupReturns(env: Env, remotes: map<string, string>) {
    && env.init.Returns?
    && (ORIGIN in remotes || env.createRemote.Returns?)
    && env.fetchAll.Returns?
    && env.createHead.Returns?
    && env.setTracking.Returns?
    && env.checkout.Returns?
  }

  /** The targeted fetch, or the pull after it, raises `GitCommandError`. */
  predicate PullRaisesCommandError(env: Env) {
    env.fetchBranch == Raises(GitCommandError) || (env.fetchBranch.Returns? && env.pull == Raises(GitCommandError))
  }

  /** Lines 65-69 end without an exception. */
  predicate PullStageReturns(env: Env) {
    (env.fetchBranch.Returns? && env.pull.Returns?) || (PullRaisesCommandError(env) && env.reset.Returns?)
  }

  /** The number of calls of a `Perform` stage that returned. */
  function Returned(r: Stage): nat {
    if r.raised.None? then |r.trace| else if |r.trace| > 0 then |r.trace| - 1 else 0
  }

  /** A `Perform` stage leaves the effects of exactly the calls that returned. */
  lemma {:induction false} PerformState(env: Env, ops: seq<Op>, st: RepoState)
    ensures var r := Perform(env, ops, st);
      Returned(r) <= |ops| && r.state == EffectAll(ops[..Returned(r)], st)
    decreases |ops|
  {
    PerformCalls(env, ops, st);
    if ops != [] && env.OutcomeOf(ops[0]).Returns? {
      var rest := Perform(env, ops[1..], Effect(ops[0], st));
      PerformCalls(env, ops[1..], Effect(ops[0], st));
      PerformState(env, ops[1..], Effect(ops[0], st));
      var n := Returned(rest);
      assert ops[..n + 1][0] == ops[0];
      assert ops[..n + 1][1..] == ops[1..][..n];
    }
  }

  /** Applying the calls from index `k` on is applying call `k`, then the rest. */
  lemma EffectAllStep(ops: seq<Op>, k: nat, st: RepoState)
    requires k < |ops|
    ensures EffectAll(ops[k..], st) == EffectAll(ops[k + 1..], Effect(ops[k], st))
  {
    assert ops[k..][0] == ops[k];
    assert ops[k..][1..] == ops[k + 1..];
  }

  /** Lines 59-64 raise nothing exactly when each of their calls returns. */
  lemma SetupRaisesIff(env: Env, branch: string, url: string, st: RepoState)
    ensures Perform(env, SetupOps(branch, url, st.remotes), st).raised.None? <==> SetupReturns(env, st.remotes)
  {
    var ops := SetupOps(branch, url, st.remotes);
    var r := Perform(env, ops, st);
    PerformCalls(env, ops, st);
    if r.raised.None? {
      assert env.OutcomeOf(ops[0]).Returns? && env.OutcomeOf(ops[1]).Returns?;
      assert env.OutcomeOf(ops[2]).Returns? && env.OutcomeOf(ops[3]).Returns?;
      assert env.OutcomeOf(ops[4]).Returns? && env.OutcomeOf(ops[5]).Returns?;
      assert SetupReturns(env, st.remotes);
    }
    if SetupReturns(env, st.remotes) {
      forall i | 0 <= i < 6
        ensures env.OutcomeOf(ops[i]).Returns?
      {
      }
      assert |ops| == 6;
    }
  }

  /** Applying two runs of calls one after the other. */
  lemma {:induction false} EffectAllAppend(xs: seq<Op>, ys: seq<Op>, st: RepoState)
    ensures EffectAll(xs + ys, st) == EffectAll(ys, EffectAll(xs, st))
    decreases |xs|
  {
    if xs != [] {
      assert (xs + ys)[0] == xs[0];
      assert (xs + ys)[1..] == xs[1..] + ys;
      EffectAllAppend(xs[1..], ys, Effect(xs[0], st));
    } else {
      assert xs + ys == ys;
    }
  }

  /** Applying a single call. */
  lemma EffectAllOne(op: Op, st: RepoState)
    ensures EffectAll([op], st) == Effect(op, st)
  {
    assert [op][1..] == [];
  }

  /** Applying calls is applying the first, then the rest. */
  lemma EffectAllCons(op: Op, ops: seq<Op>, st: RepoState)
    ensures EffectAll([op] + ops, st) == EffectAll(ops, Effect(op, st))
  {
    assert ([op] + ops)[1..] == ops;
  }

  /** Lines 59-61 change only the remotes, and only through `origin`. */
  lemma PrepareEffects(originOp: Op, st: RepoState)
    ensures EffectAll([Init, originOp, FetchAll], st) == Effect(originOp, st)
  {
    assert [Init, originOp, FetchAll] == [Init] + ([originOp] + [FetchAll]);
    EffectAllCons(Init, [originOp] + [FetchAll], st);
    EffectAllCons(originOp, [FetchAll], st);
    EffectAllOne(FetchAll, Effect(originOp, st));
  }

  /** Lines 62-64 leave the branch tracking origin's branch of that name,
      checked out. */
  lemma BranchEffects(branch: string, st: RepoState)
    ensures EffectAll([CreateHead(branch), SetTracking(branch), Checkout(branch)], st) ==
      st.(heads := st.heads[branch := Some(Upstream(ORIGIN, branch))], active := Some(branch), tree := AtBranch(branch))
  {
    var tracked := Some(Upstream(ORIGIN, branch));
    var s1 := st.(heads := st.heads[branch := None]);
    var s2 := st.(heads := st.heads[branch := tracked]);
    assert [CreateHead(branch), SetTracking(branch), Checkout(branch)]
        == [CreateHead(branch)] + ([SetTracking(branch)] + [Checkout(branch)]);
    EffectAllCons(CreateHead(branch), [SetTracking(branch)] + [Checkout(branch)], st);
    EffectAllCons(SetTracking(branch), [Checkout(branch)], s1);
    assert st.heads[branch := None][branch := tracked] == st.heads[branch := tracked];
    assert Effect(SetTracking(branch), s1) == s2;
    EffectAllOne(Checkout(branch), s2);
  }

  /** The calls of lines 59-64, when each returns, create `origin` with
      `url` unless it exists, create the branch, make it track origin's
      branch of that name, and check it out. */
  lemma SetupEffects(branch: string, url: string, st: RepoState)
    ensures EffectAll(SetupOps(branch, url, st.remotes), st) == RepoState(
      if ORIGIN in st.remotes then st.remotes else st.remotes[ORIGIN := url],
      st.heads[branch := Some(Upstream(ORIGIN, branch))],
      Some(branch),
      AtBranch(branch))
  {
    var originOp := if ORIGIN in st.remotes then ReuseOrigin else CreateOrigin(url);
    var branchOps := [CreateHead(branch), SetTracking(branch), Checkout(branch)];
    EffectAllAppend([Init, originOp, FetchAll], branchOps, st);
    PrepareEffects(originOp, st);
    BranchEffects(branch, Effect(originOp, st));
  }

  /** When lines 59-64 raise nothing, `origin` exists (the existing one
      untouched, else a new one with `url`), the branch exists and tracks
      origin's branch of that name, and it is checked out. */
  lemma SetupState(env: Env, branch: string, url: string, st: RepoState)
    requires SetupReturns(env, st.remotes)
    ensures Perform(env, SetupOps(branch, url, st.remotes), st).state == RepoState(
      if ORIGIN in st.remotes then st.remotes else st.remotes[ORIGIN := url],
      st.heads[branch := Some(Upstream(ORIGIN, branch))],
      Some(branch),
      AtBranch(branch))
  {
    var ops := SetupOps(branch, url, st.remotes);
    forall j | 0 <= j < |ops|
      ensures env.OutcomeOf(ops[j]).Returns?
    {
    }
    PerformAllReturn(env, ops, st);
    SetupEffects(branch, url, st);
  }

  /** A single call is recorded, and applied if it returns. */
  lemma PerformOne(env: Env, op: Op, st: RepoState)
    ensures Perform(env, [op], st) ==
      if env.OutcomeOf(op).Returns? then Stage([Call(op)], Effect(op, st), None)
      else Stage([Call(op)], st, Some(env.OutcomeOf(op).error))
  {
    assert [op][1..] == [];
  }

  /** The fetch and the pull of lines 66-67, before any handler. */
  lemma PulledCases(env: Env, branch: string, st: RepoState)
    ensures Perform(env, [FetchBranch(branch), Pull(branch)], st) ==
      if env.fetchBranch.Raises? then Stage([Call(FetchBranch(branch))], st, Some(env.fetchBranch.error))
      else if env.pull.Raises? then Stage([Call(FetchBranch(branch)), Call(Pull(branch))], st, Some(env.pull.error))
      else Stage([Call(FetchBranch(branch)), Call(Pull(branch))], st.(tree := Pulled(branch)), None)
  {
    assert [FetchBranch(branch), Pull(branch)][1..] == [Pull(branch)];
    PerformOne(env, Pull(branch), st);
  }

  /** Lines 65-69 raise nothing exactly when the fetch and the pull return,
      or one of them raises `GitCommandError` and the reset returns; the
      reset is called exactly when one of them raises `GitCommandError`.
      Afterwards the tree holds the pulled branch, or FETCH_HEAD after a
      reset, and nothing else has changed. No log line is written. */
  lemma PullResult(env: Env, branch: string, st: RepoState)
    ensures var r := PullStage(env, branch, st);
      && (r.raised.None? <==> PullStageReturns(env))
      && (Call(ResetHard) in r.trace <==> PullRaisesCommandError(env))
      && (r.raised.None? ==> r.state == st.(tree := if PullRaisesCommandError(env) then AtFetchHead else Pulled(branch)))
      && (forall i :: 0 <= i < |r.trace| ==> r.trace[i].Call?)
  {
    var pulled := Perform(env, [FetchBranch(branch), Pull(branch)], st);
    PulledCases(env, branch, st);
    if pulled.raised == Some(GitCommandError) {
      PerformOne(env, ResetHard, pulled.state);
    }
  }

  /** Lines 65-71 raise nothing exactly when the pull stage and
      `install_req` return; `install_req` is called exactly when the pull
      stage returned; the closing info line is written exactly when nothing
      raised; and only the working tree changes. */
  lemma UpdateResult(env: Env, branch: string, st: RepoState)
    ensures var r := UpdateStage(env, branch, st);
      && (r.raised.None? <==> PullStageReturns(env) && env.install.Returns?)
      && (Call(Install(INSTALL_COMMAND)) in r.trace <==> PullStageReturns(env))
      && (Call(ResetHard) in r.trace <==> PullRaisesCommandError(env))
      && (Info(FetchingUpdates) in r.trace <==> r.raised.None?)
      && r.state.(tree := st.tree) == st
      && (PullStageReturns(env) ==> r.state.tree == if PullRaisesCommandError(env) then AtFetchHead else Pulled(branch))
  {
    var synced := PullStage(env, branch, st);
    PullResult(env, branch, st);
    PullStageState(env, branch, st);
    PullTrace(env, branch, st);
    if synced.raised.None? {
      var installed := Perform(env, [Install(INSTALL_COMMAND)], synced.state);
      PerformOne(env, Install(INSTALL_COMMAND), synced.state);
      var log: seq<Action> := if installed.raised.None? then [Info(FetchingUpdates)] else [];
      var t := synced.trace + installed.trace + log;
      assert t[|synced.trace|] == Call(Install(INSTALL_COMMAND));
      assert Call(ResetHard) in t <==> Call(ResetHard) in synced.trace;
      if installed.raised.None? {
        assert t[|t| - 1] == Info(FetchingUpdates);
      }
    }
  }

  /** The pull stage changes only the working tree. */
  lemma PullStageState(env: Env, branch: string, st: RepoState)
    ensures PullStage(env, branch, st).state.(tree := st.tree) == st
  {
    var pulled := Perform(env, [FetchBranch(branch), Pull(branch)], st);
    PulledCases(env, branch, st);
    if pulled.raised == Some(GitCommandError) {
      PerformOne(env, ResetHard, pulled.state);
    }
  }

  /** Lines 59-64 write no log line and make none of the calls of lines 65-71. */
  lemma SetupTrace(env: Env, branch: string, url: string, st: RepoState)
    ensures var t := Perform(env, SetupOps(branch, url, st.remotes), st).trace;
      forall i :: 0 <= i < |t| ==> t[i].Call? && Rank(t[i].op) <= 6
  {
    var ops := SetupOps(branch, url, st.remotes);
    SetupAscending(branch, url, st.remotes);
    PerformOrdered(env, ops, st, 1, 6);
    PerformCalls(env, ops, st);
  }

  /** Lines 59-71 raise nothing exactly when every call returns (the
      targeted fetch or pull may raise `GitCommandError` if the reset then
      returns); the reset and `install_req` are called exactly when the
      setup returned and the pull stage called for them or returned. */
  lemma InitResult(env: Env, branch: string, url: string, st: RepoState)
    ensures var r := InitStage(env, branch, url, st);
      && (r.raised.None? <==> SetupReturns(env, st.remotes) && PullStageReturns(env) && env.install.Returns?)
      && (Call(ResetHard) in r.trace <==> SetupReturns(env, st.remotes) && PullRaisesCommandError(env))
      && (Call(Install(INSTALL_COMMAND)) in r.trace <==> SetupReturns(env, st.remotes) && PullStageReturns(env))
      && (Info(FetchingUpdates) in r.trace <==> r.raised.None?)
  {
    var setup := Perform(env, SetupOps(branch, url, st.remotes), st);
    SetupRaisesIff(env, branch, url, st);
    SetupTrace(env, branch, url, st);
    if setup.raised.None? {
      var update := UpdateStage(env, branch, setup.state);
      UpdateResult(env, branch, setup.state);
      var t := setup.trace + update.trace;
      assert Call(ResetHard) in t <==> Call(ResetHard) in update.trace;
      assert Call(Install(INSTALL_COMMAND)) in t <==> Call(Install(INSTALL_COMMAND)) in update.trace;
      assert Info(FetchingUpdates) in t <==> Info(FetchingUpdates) in update.trace;
    }
  }

  /** When lines 59-69 raise nothing, `origin` exists (the existing one
      untouched, else a new one with `url`), the branch tracks origin's
      branch of that name and is checked out, and the tree holds the pulled
      branch, or FETCH_HEAD after a reset; whatever `install_req` does. */
  lemma InitState(env: Env, branch: string, url: string, st: RepoState)
    requires SetupReturns(env, st.remotes) && PullStageReturns(env)
    ensures InitStage(env, branch, url, st).state == RepoState(
      if ORIGIN in st.remotes then st.remotes else st.remotes[ORIGIN := url],
      st.heads[branch := Some(Upstream(ORIGIN, branch))],
      Some(branch),
      if PullRaisesCommandError(env) then AtFetchHead else Pulled(branch))
  {
    SetupRaisesIff(env, branch, url, st);
    SetupState(env, branch, url, st);
    var setup := Perform(env, SetupOps(branch, url, st.remotes), st);
    UpdateResult(env, branch, setup.state);
  }

  /** `create_head` and `set_tracking_branch` are separate calls: when the
      second raises, the branch exists without an upstream, and the run stops
      with that exception. */
  lemma TrackingFailure(env: Env, branch: string, url: string, st: RepoState)
    requires env.init.Returns? && (ORIGIN in st.remotes || env.createRemote.Returns?)
    requires env.fetchAll.Returns? && env.createHead.Returns? && env.setTracking.Raises?
    ensures var r := InitStage(env, branch, url, st);
      && r.raised == Some(env.setTracking.error)
      && branch in r.state.heads && r.state.heads[branch] == None
  {
    var ops := SetupOps(branch, url, st.remotes);
    var r := Perform(env, ops, st);
    assert env.OutcomeOf(ops[0]).Returns? && env.OutcomeOf(ops[1]).Returns?;
    assert env.OutcomeOf(ops[2]).Returns? && env.OutcomeOf(ops[3]).Returns?;
    assert env.OutcomeOf(ops[4]).Raises?;
    PerformCalls(env, ops, st);
    assert |r.trace| == 5;
    PerformState(env, ops, st);
    var p := ops[..4];
    var s1 := Effect(p[0], st);
    var s2 := Effect(p[1], s1);
    var s3 := Effect(p[2], s2);
    EffectAllStep(p, 0, st);
    EffectAllStep(p, 1, s1);
    EffectAllStep(p, 2, s2);
    EffectAllStep(p, 3, s3);
    assert p[0..] == p && p[4..] == [];
  }

  /** A stage that raises ends with the call that raised its exception. */
  predicate RaisedByLast(env: Env, r: Stage) {
    r.raised.Some? ==>
      |r.trace| > 0 && r.trace[|r.trace| - 1].Call?
      && env.OutcomeOf(r.trace[|r.trace| - 1].op) == Raises(r.raised.value)
  }

  /** The exception lines 59-71 raise is the one of the last call made. */
  lemma InitRaisedByLast(env: Env, branch: string, url: string, st: RepoState)
    ensures RaisedByLast(env, InitStage(env, branch, url, st))
  {
    var setup := Perform(env, SetupOps(branch, url, st.remotes), st);
    PerformCalls(env, SetupOps(branch, url, st.remotes), st);
    if setup.raised.None? {
      var synced := PullStage(env, branch, setup.state);
      var pulled := Perform(env, [FetchBranch(branch), Pull(branch)], setup.state);
      PulledCases(env, branch, setup.state);
      if pulled.raised == Some(GitCommandError) {
        PerformOne(env, ResetHard, pulled.state);
      }
      if synced.raised.None? {
        PerformOne(env, Install(INSTALL_COMMAND), synced.state);
      }
    }
  }

  // One run of `git()`.

  /** Lines 39-41: without the `git` executable or GitPython the routine
      logs one line and returns, before it reads the configuration, so even
      a malformed URL does no harm. */
  lemma WithoutTooling(env: Env, cfg: Config, st: RepoState)
    requires !env.HasTooling()
    ensures GitRun(env, cfg, st) == Stage([Info(GitNotFound)], st, None)
  {
  }

  /** An exception escapes `git()` exactly when the tooling is there and
      either the URL rewrite of lines 45-46 fails, or `Repo()` raises an
      exception no handler of lines 53-57 names; then nothing has changed,
      and the exception is the `IndexError` of the rewrite or that of `Repo()`. */
  lemma Escapes(env: Env, cfg: Config, st: RepoState)
    ensures var r := GitRun(env, cfg, st);
      var url := RemoteUrl.CredentialedUrlAsWritten(cfg.upstreamRepo, cfg.gitToken);
      && (r.raised.Some? <==>
            env.HasTooling()
            && (url.Err? || (env.open.Raises? && env.open.error != GitCommandError && env.open.error != InvalidGitRepositoryError)))
      && (r.raised.Some? ==> r.state == st)
      && (env.HasTooling() && url.Err? ==> r == Stage([], st, Some(IndexError)))
  {
  }

  /** Lines 51-55: when `Repo()` opens a repository, or raises
      `GitCommandError`, the routine only logs a line: no other call is made
      and the repository is left as it was. */
  lemma ExistingRepository(env: Env, cfg: Config, st: RepoState)
    requires env.HasTooling() && RemoteUrl.CredentialedUrlAsWritten(cfg.upstreamRepo, cfg.gitToken).Ok?
    requires env.open == Returns || env.open == Raises(GitCommandError)
    ensures GitRun(env, cfg, st) ==
      Stage([Call(Open), Info(if env.open == Returns then ClientFound else InvalidGitCommand)], st, None)
  {
  }

  /** Lines 56-73: once `Repo()` reports no repository, nothing escapes;
      the reset happens exactly when the setup returned and the targeted
      fetch or pull raised `GitCommandError`; `install_req` runs exactly when
      the setup and the pull stage returned. */
  lemma InitPathCalls(env: Env, cfg: Config, st: RepoState)
    requires ReachesInit(env, cfg)
    ensures var r := GitRun(env, cfg, st);
      && r.raised.None?
      && (Call(ResetHard) in r.trace <==> SetupReturns(env, st.remotes) && PullRaisesCommandError(env))
      && (Call(Install(INSTALL_COMMAND)) in r.trace <==> SetupReturns(env, st.remotes) && PullStageReturns(env))
  {
    var url := RemoteUrl.CredentialedUrlAsWritten(cfg.upstreamRepo, cfg.gitToken).value;
    var init := InitStage(env, cfg.upstreamBranch, url, st);
    InitResult(env, cfg.upstreamBranch, url, st);
    var log: seq<Action> := if init.raised.Some? then [Warning(init.raised.value)] else [];
    var t := [Call(Open)] + init.trace + log;
    assert Call(ResetHard) in t <==> Call(ResetHard) in init.trace;
    assert Call(Install(INSTALL_COMMAND)) in t <==> Call(Install(INSTALL_COMMAND)) in init.trace;
  }

  /** Lines 71-73: a run down the init path ends with the info line when
      every call returned, and otherwise with a warning that logs the
      exception of the call just before it. */
  lemma InitPathLog(env: Env, cfg: Config, st: RepoState)
    requires ReachesInit(env, cfg)
    ensures var t := GitRun(env, cfg, st).trace;
      && |t| >= 2
      && (t[|t| - 1] == Info(FetchingUpdates) <==>
            SetupReturns(env, st.remotes) && PullStageReturns(env) && env.install.Returns?)
      && (t[|t| - 1] != Info(FetchingUpdates) ==>
            t[|t| - 1].Warning? && t[|t| - 2].Call? && env.OutcomeOf(t[|t| - 2].op) == Raises(t[|t| - 1].error))
  {
    var url := RemoteUrl.CredentialedUrlAsWritten(cfg.upstreamRepo, cfg.gitToken).value;
    var init := InitStage(env, cfg.upstreamBranch, url, st);
    InitResult(env, cfg.upstreamBranch, url, st);
    InitRaisedByLast(env, cfg.upstreamBranch, url, st);
    var t := GitRun(env, cfg, st).trace;
    if init.raised.None? {
      var setup := Perform(env, SetupOps(cfg.upstreamBranch, url, st.remotes), st);
      var update := UpdateStage(env, cfg.upstreamBranch, setup.state);
      assert init.trace[|init.trace| - 1] == Info(FetchingUpdates);
      assert t[|t| - 1] == init.trace[|init.trace| - 1];
    } else {
      assert t[|t| - 2] == init.trace[|init.trace| - 1];
    }
  }

  /** Lines 56-70: when the setup and the pull stage return, the configured
      branch exists, tracks origin's branch of that name and is checked out,
      the tree holds it pulled or reset to FETCH_HEAD, and `origin` is the
      existing remote, untouched, or a new one with the credentialed URL. */
  lemma SyncedBranch(env: Env, cfg: Config, st: RepoState)
    requires ReachesInit(env, cfg) && SetupReturns(env, st.remotes) && PullStageReturns(env)
    ensures var url := RemoteUrl.CredentialedUrlAsWritten(cfg.upstreamRepo, cfg.gitToken).value;
      var b := cfg.upstreamBranch;
      GitRun(env, cfg, st).state == RepoState(
        if ORIGIN in st.remotes then st.remotes else st.remotes[ORIGIN := url],
        st.heads[b := Some(Upstream(ORIGIN, b))],
        Some(b),
        if PullRaisesCommandError(env) then AtFetchHead else Pulled(b))
  {
    var url := RemoteUrl.CredentialedUrlAsWritten(cfg.upstreamRepo, cfg.gitToken).value;
    InitState(env, cfg.upstreamBranch, url, st);
  }

  /** Lines 62-63 and 72-73: when `set_tracking_branch` raises after
      `create_head` returned, the run logs that exception and returns,
      leaving the branch created but tracking nothing. */
  lemma HalfCreatedBranch(env: Env, cfg: Config, st: RepoState)
    requires ReachesInit(env, cfg)
    requires env.init.Returns? && (ORIGIN in st.remotes || env.createRemote.Returns?)
    requires env.fetchAll.Returns? && env.createHead.Returns? && env.setTracking.Raises?
    ensures var r := GitRun(env, cfg, st);
      && r.raised.None?
      && r.trace[|r.trace| - 1] == Warning(env.setTracking.error)
      && cfg.upstreamBranch in r.state.heads && r.state.heads[cfg.upstreamBranch] == None
  {
    var url := RemoteUrl.CredentialedUrlAsWritten(cfg.upstreamRepo, cfg.gitToken).value;
    TrackingFailure(env, cfg.upstreamBranch, url, st);
  }

  // What a run may change.

  /** Between `st` and `st2` only `origin` (set to `url`), the local branch
      `branch`, the checked-out branch (now `branch`) and the tree changed. */
  predicate Confined(st: RepoState, st2: RepoState, branch: string, url: string) {
    && (st2.remotes == st.remotes || st2.remotes == st.remotes[ORIGIN := url])
    && st2.heads.Keys <= st.heads.Keys + {branch}
    && (forall b :: b in st.heads && b != branch ==> b in st2.heads && st2.heads[b] == st.heads[b])
    && (st2.active == st.active || st2.active == Some(branch))
  }

  /** `op` creates no remote other than `origin` with `url` and touches no
      branch other than `branch`. */
  predicate ConcernsOnly(op: Op, branch: string, url: string) {
    match op
    case CreateOrigin(u) => u == url
    case CreateHead(b) => b == branch
    case SetTracking(b) => b == branch
    case Checkout(b) => b == branch
    case _ => true
  }

  lemma ConfinedTrans(st1: RepoState, st2: RepoState, st3: RepoState, branch: string, url: string)
    requires Confined(st1, st2, branch, url) && Confined(st2, st3, branch, url)
    ensures Confined(st1, st3, branch, url)
  {
    if st2.remotes == st1.remotes[ORIGIN := url] && st3.remotes == st2.remotes[ORIGIN := url] {
      assert st3.remotes == st1.remotes[ORIGIN := url];
    }
  }

  /** Calls that concern only `branch` and `url` leave the repository
      confined to them, and without a `create_remote` the remotes as they were. */
  lemma {:induction false} EffectAllConfined(ops: seq<Op>, st: RepoState, branch: string, url: string)
    requires forall i :: 0 <= i < |ops| ==> ConcernsOnly(ops[i], branch, url)
    ensures Confined(st, EffectAll(ops, st), branch, url)
    ensures (forall i :: 0 <= i < |ops| ==> !ops[i].CreateOrigin?) ==> EffectAll(ops, st).remotes == st.remotes
    decreases |ops|
  {
    if ops != [] {
      var st1 := Effect(ops[0], st);
      assert ConcernsOnly(ops[0], branch, url);
      assert Confined(st, st1, branch, url);
      assert forall i :: 0 <= i < |ops[1..]| ==> ops[1..][i] == ops[i + 1];
      EffectAllConfined(ops[1..], st1, branch, url);
      ConfinedTrans(st, st1, EffectAll(ops[1..], st1), branch, url);
    }
  }

  /** A `Perform` stage over such calls is confined the same way. */
  lemma PerformConfined(env: Env, ops: seq<Op>, st: RepoState, branch: string, url: string)
    requires forall i :: 0 <= i < |ops| ==> ConcernsOnly(ops[i], branch, url)
    ensures Confined(st, Perform(env, ops, st).state, branch, url)
    ensures (forall i :: 0 <= i < |ops| ==> !ops[i].CreateOrigin?) ==> Perform(env, ops, st).state.remotes == st.remotes
  {
    var r := Perform(env, ops, st);
    PerformState(env, ops, st);
    EffectAllConfined(ops[..Returned(r)], st, branch, url);
  }

  /** Lines 59-71 change nothing but `origin`, the configured branch, the
      checked-out branch and the tree, and keep an existing `origin` as it was. */
  lemma InitConfined(env: Env, branch: string, url: string, st: RepoState)
    ensures Confined(st, InitStage(env, branch, url, st).state, branch, url)
    ensures ORIGIN in st.remotes ==> InitStage(env, branch, url, st).state.remotes == st.remotes
  {
    var ops := SetupOps(branch, url, st.remotes);
    var setup := Perform(env, ops, st);
    PerformConfined(env, ops, st, branch, url);
    if setup.raised.None? {
      var update := UpdateStage(env, branch, setup.state);
      UpdateResult(env, branch, setup.state);
      assert Confined(setup.state, update.state, branch, url);
      ConfinedTrans(st, setup.state, update.state, branch, url);
    }
  }

  /** A run changes nothing but `origin`, the configured branch, the
      checked-out branch and the tree: `origin` only by creating it with the
      credentialed URL where it did not exist (line 60), so an existing
      `origin` keeps its URL; and with a malformed URL, nothing at all. */
  lemma RunConfined(env: Env, cfg: Config, st: RepoState)
    ensures var r := GitRun(env, cfg, st);
      var url := RemoteUrl.CredentialedUrlAsWritten(cfg.upstreamRepo, cfg.gitToken);
      && (url.Ok? ==> Confined(st, r.state, cfg.upstreamBranch, url.value))
      && (url.Err? ==> r.state == st)
      && (ORIGIN in st.remotes ==> r.state.remotes == st.remotes)
  {
    var url := RemoteUrl.CredentialedUrlAsWritten(cfg.upstreamRepo, cfg.gitToken);
    if env.HasTooling() && url.Ok? {
      OpenConfined(env, cfg.upstreamBranch, url.value, st);
    }
  }

  /** Lines 51-73 are confined the same way. */
  lemma OpenConfined(env: Env, branch: string, url: string, st: RepoState)
    ensures Confined(st, OpenStage(env, branch, url, st).state, branch, url)
    ensures ORIGIN in st.remotes ==> OpenStage(env, branch, url, st).state.remotes == st.remotes
  {
    if env.open == Raises(InvalidGitRepositoryError) {
      InitConfined(env, branch, url, st);
    }
  }

  // The order of the calls in a trace.

  /** The position of each call in the source, lines 52-70. */
  function Rank(op: Op): nat {
    match op
    case Open => 0
    case Init => 1
    case ReuseOrigin => 2
    case CreateOrigin(_) => 2
    case FetchAll => 3
    case CreateHead(_) => 4
    case SetTracking(_) => 5
    case Checkout(_) => 6
    case FetchBranch(_) => 7
    case Pull(_) => 8
    case ResetHard => 9
    case Install(_) => 10
  }

  /** The calls in `t` follow the source order, so none is made twice. */
  predicate InSourceOrder(t: seq<Action>) {
    forall i, j :: 0 <= i < j < |t| && t[i].Call? && t[j].Call? ==> Rank(t[i].op) < Rank(t[j].op)
  }

  /** Every call in `t` has a rank between `lo` and `hi`. */
  predicate RankedWithin(t: seq<Action>, lo: nat, hi: nat) {
    forall i :: 0 <= i < |t| && t[i].Call? ==> lo <= Rank(t[i].op) <= hi
  }

  /** Control goes on past a call that returned, past `Repo()` raising
      `InvalidGitRepositoryError` (the handler at line 56), and past a
      targeted fetch or pull raising `GitCommandError` (the handler at line 68). */
  predicate Continues(env: Env, op: Op) {
    || env.OutcomeOf(op).Returns?
    || (op.Open? && env.OutcomeOf(op) == Raises(InvalidGitRepositoryError))
    || ((op.FetchBranch? || op.Pull?) && env.OutcomeOf(op) == Raises(GitCommandError))
  }

  /** No call in `t` follows one after which control does not go on. */
  predicate StopsAtFailure(env: Env, t: seq<Action>) {
    forall i, j :: 0 <= i < j < |t| && t[i].Call? && t[j].Call? ==> Continues(env, t[i].op)
  }

  /** Control goes on past every call in `t`. */
  predicate AllContinue(env: Env, t: seq<Action>) {
    forall i :: 0 <= i < |t| && t[i].Call? ==> Continues(env, t[i].op)
  }

  /** `t` makes no call. */
  predicate NoCalls(t: seq<Action>) {
    forall i :: 0 <= i < |t| ==> !t[i].Call?
  }

  /** A trace of one call. */
  lemma OneCall(env: Env, op: Op)
    ensures var t := [Call(op)];
      && InSourceOrder(t) && RankedWithin(t, Rank(op), Rank(op)) && StopsAtFailure(env, t)
      && (Continues(env, op) ==> AllContinue(env, t))
  {
  }

  /** Two stretches of trace, the second ranked after the first, make one
      ordered stretch; and one that stops at a failure as long as no call
      follows a failure in the first. */
  lemma Append(env: Env, a: seq<Action>, b: seq<Action>, lo: nat, mid: nat, hi: nat)
    requires lo <= mid <= hi
    requires InSourceOrder(a) && InSourceOrder(b)
    requires RankedWithin(a, lo, mid) && RankedWithin(b, mid + 1, hi)
    requires StopsAtFailure(env, a) && StopsAtFailure(env, b)
    requires AllContinue(env, a) || NoCalls(b)
    ensures InSourceOrder(a + b) && RankedWithin(a + b, lo, hi) && StopsAtFailure(env, a + b)
    ensures AllContinue(env, a) && AllContinue(env, b) ==> AllContinue(env, a + b)
  {
    var t := a + b;
    forall i, j | 0 <= i < j < |t| && t[i].Call? && t[j].Call?
      ensures Rank(t[i].op) < Rank(t[j].op) && Continues(env, t[i].op)
    {
      if j < |a| {
        assert t[i] == a[i] && t[j] == a[j];
      } else if i < |a| {
        assert t[i] == a[i] && t[j] == b[j - |a|];
      } else {
        assert t[i] == b[i - |a|] && t[j] == b[j - |a|];
      }
    }
    forall i | 0 <= i < |t| && t[i].Call?
      ensures lo <= Rank(t[i].op) <= hi
    {
      if i < |a| {
        assert t[i] == a[i];
      } else {
        assert t[i] == b[i - |a|];
      }
    }
  }

  /** The ops of `ops` are in strictly increasing rank between `lo` and `hi`. */
  predicate Ascending(ops: seq<Op>, lo: nat, hi: nat) {
    && (forall i, j :: 0 <= i < j < |ops| ==> Rank(ops[i]) < Rank(ops[j]))
    && (forall i :: 0 <= i < |ops| ==> lo <= Rank(ops[i]) <= hi)
  }

  /** The calls of lines 59-64 appear in source order. */
  lemma SetupAscending(branch: string, url: string, remotes: map<string, string>)
    ensures Ascending(SetupOps(branch, url, remotes), 1, 6)
  {
    var ops := SetupOps(branch, url, remotes);
    forall i | 0 <= i < |ops|
      ensures Rank(ops[i]) == i + 1
    {
    }
  }

  /** A `Perform` stage over ascending calls is ordered, stops at its
      failure, and lets control go on past every call when it raises nothing. */
  lemma PerformOrdered(env: Env, ops: seq<Op>, st: RepoState, lo: nat, hi: nat)
    requires Ascending(ops, lo, hi)
    ensures var t := Perform(env, ops, st).trace;
      InSourceOrder(t) && RankedWithin(t, lo, hi) && StopsAtFailure(env, t)
    ensures var r := Perform(env, ops, st);
      r.raised.None? ==> AllContinue(env, r.trace)
  {
    PerformCalls(env, ops, st);
  }

  /** Lines 65-69 make their calls in order and stop at a failure that no
      handler catches. */
  lemma PullStageOrdered(env: Env, branch: string, st: RepoState)
    ensures var r := PullStage(env, branch, st);
      && InSourceOrder(r.trace) && RankedWithin(r.trace, 7, 9) && StopsAtFailure(env, r.trace)
      && (r.raised.None? ==> AllContinue(env, r.trace))
  {
    var r := PullStage(env, branch, st);
    PullTrace(env, branch, st);
    PullResult(env, branch, st);
    var fetch, pull, reset := [Call(FetchBranch(branch))], [Call(Pull(branch))], [Call(ResetHard)];
    var pulled := fetch + (if env.fetchBranch.Returns? then pull else []);
    OneCall(env, FetchBranch(branch));
    OneCall(env, Pull(branch));
    OneCall(env, ResetHard);
    if env.fetchBranch.Returns? {
      Append(env, fetch, pull, 7, 7, 8);
    } else {
      assert pulled == fetch;
    }
    if PullRaisesCommandError(env) {
      Append(env, pulled, reset, 7, 8, 9);
    } else {
      assert r.trace == pulled;
    }
  }

  /** The calls lines 65-69 make: the fetch, the pull unless the fetch
      raised, and the reset when one of them raised `GitCommandError`. */
  lemma PullTrace(env: Env, branch: string, st: RepoState)
    ensures PullStage(env, branch, st).trace ==
      [Call(FetchBranch(branch))]
      + (if env.fetchBranch.Returns? then [Call(Pull(branch))] else [])
      + (if PullRaisesCommandError(env) then [Call(ResetHard)] else [])
  {
    var pulled := Perform(env, [FetchBranch(branch), Pull(branch)], st);
    PulledCases(env, branch, st);
    if pulled.raised == Some(GitCommandError) {
      PerformOne(env, ResetHard, pulled.state);
    }
  }

  /** Lines 65-71 make their calls in order and stop at the first failure
      that no handler catches. */
  lemma UpdateStageOrdered(env: Env, branch: string, st: RepoState)
    ensures var t := UpdateStage(env, branch, st).trace;
      InSourceOrder(t) && RankedWithin(t, 7, 10) && StopsAtFailure(env, t)
  {
    var synced := PullStage(env, branch, st);
    PullStageOrdered(env, branch, st);
    if synced.raised.None? {
      var installed := Perform(env, [Install(INSTALL_COMMAND)], synced.state);
      PerformOrdered(env, [Install(INSTALL_COMMAND)], synced.state, 10, 10);
      Append(env, synced.trace, installed.trace, 7, 9, 10);
      var log: seq<Action> := if installed.raised.None? then [Info(FetchingUpdates)] else [];
      Append(env, synced.trace + installed.trace, log, 7, 10, 10);
    }
  }

  /** Lines 59-71 make their calls in order and stop at the first failure
      that no handler catches. */
  lemma InitStageOrdered(env: Env, branch: string, url: string, st: RepoState)
    ensures var t := InitStage(env, branch, url, st).trace;
      InSourceOrder(t) && RankedWithin(t, 1, 10) && StopsAtFailure(env, t)
  {
    var ops := SetupOps(branch, url, st.remotes);
    var setup := Perform(env, ops, st);
    SetupAscending(branch, url, st.remotes);
    PerformOrdered(env, ops, st, 1, 6);
    if setup.raised.None? {
      UpdateStageOrdered(env, branch, setup.state);
      Append(env, setup.trace, UpdateStage(env, branch, setup.state).trace, 1, 6, 10);
    }
  }

  /** Lines 58-73 make their calls in order, and the warning makes none. */
  lemma HandledInitOrdered(env: Env, branch: string, url: string, st: RepoState)
    ensures var t := HandledInit(env, branch, url, st).trace;
      InSourceOrder(t) && RankedWithin(t, 1, 10) && StopsAtFailure(env, t)
  {
    var init := InitStage(env, branch, url, st);
    InitStageOrdered(env, branch, url, st);
    var log: seq<Action> := if init.raised.Some? then [Warning(init.raised.value)] else [];
    Append(env, init.trace, log, 1, 10, 10);
  }

  /** Whatever the environment does, the calls of a run follow the source
      order, so each is made at most once and `install_req` runs only after
      the pull or the reset; and no call follows one that raised, except
      where a handler catches the exception and goes on. */
  lemma GitRunOrdered(env: Env, cfg: Config, st: RepoState)
    ensures InSourceOrder(GitRun(env, cfg, st).trace)
    ensures StopsAtFailure(env, GitRun(env, cfg, st).trace)
  {
    var url := RemoteUrl.CredentialedUrlAsWritten(cfg.upstreamRepo, cfg.gitToken);
    if env.HasTooling() && url.Ok? {
      OpenStageOrdered(env, cfg.upstreamBranch, url.value, st);
    }
  }

  /** Lines 51-73 make their calls in order and stop at a failure no
      handler catches. */
  lemma OpenStageOrdered(env: Env, branch: string, url: string, st: RepoState)
    ensures InSourceOrder(OpenStage(env, branch, url, st).trace)
    ensures StopsAtFailure(env, OpenStage(env, branch, url, st).trace)
  {
    if env.open == Raises(InvalidGitRepositoryError) {
      var handled := HandledInit(env, branch, url, st);
      HandledInitOrdered(env, branch, url, st);
      Append(env, [Call(Open)], handled.trace, 0, 0, 10);
    }
  }

  // The routine itself, step by step on a repository object.

  /** The repository `git()` works on, and the trace of the run so far. */
  class Workspace {
    var remotes: map<string, string>
    var heads: map<string, Option<Upstream>>
    var active: Option<string>
    var tree: Tree
    var trace: seq<Action>

    constructor(st: RepoState)
      ensures State() == st && trace == []
    {
      remotes := st.remotes;
      heads := st.heads;
      active := st.active;
      tree := st.tree;
      trace := [];
    }

    function State(): RepoState
      reads this`remotes, this`heads, this`active, this`tree
    {
      RepoState(remotes, heads, active, tree)
    }

    /** Makes one library call: records it and, if it returns, applies its effect. */
    method Attempt(env: Env, op: Op) returns (raised: Option<Exception>)
      modifies this
      ensures trace == old(trace) + [Call(op)]
      ensures raised == if env.OutcomeOf(op).Raises? then Some(env.OutcomeOf(op).error) else None
      ensures State() == if raised.None? then Effect(op, old(State())) else old(State())
    {
      trace := trace + [Call(op)];
      match env.OutcomeOf(op)
      case Raises(e) =>
        raised := Some(e);
      case Returns =>
        raised := None;
        match op {
          case CreateOrigin(url) => remotes := remotes[ORIGIN := url];
          case CreateHead(b) => heads := heads[b := None];
          case SetTracking(b) => heads := heads[b := Some(Upstream(ORIGIN, b))];
          case Checkout(b) => active := Some(b); tree := AtBranch(b);
          case Pull(b) => tree := Pulled(b);
          case ResetHard => tree := AtFetchHead;
          case _ =>
        }
    }

    /** The first `k` calls of `ops` returned, starting from state `st0`
        and trace `t0`. */
    ghost predicate Progressed(env: Env, ops: seq<Op>, k: nat, st0: RepoState, t0: seq<Action>)
      reads this
    {
      && k <= |ops|
      && (forall j :: 0 <= j < k ==> env.OutcomeOf(ops[j]).Returns?)
      && trace == t0 + Calls(ops[..k])
      && State() == EffectAll(ops[..k], st0)
    }

    /** The calls of `ops`, made from state `st0` and trace `t0`, have ended
        as `Perform` says, with `raised` escaping. */
    ghost predicate Performed(env: Env, ops: seq<Op>, st0: RepoState, t0: seq<Action>, raised: Option<Exception>)
      reads this
    {
      var r := Perform(env, ops, st0);
      trace == t0 + r.trace && State() == r.state && raised == r.raised
    }

    /** Makes call `k` of a stretch of statements with no handler between
        them: if it raises, the stretch has ended. */
    method Step(env: Env, ghost ops: seq<Op>, ghost k: nat, ghost st0: RepoState, ghost t0: seq<Action>, op: Op)
      returns (raised: Option<Exception>)
      requires k < |ops| && ops[k] == op && Progressed(env, ops, k, st0, t0)
      modifies this
      ensures raised.None? ==> Progressed(env, ops, k + 1, st0, t0)
      ensures raised.Some? ==> Performed(env, ops, st0, t0, raised)
      ensures raised.None? && k + 1 == |ops| ==> Performed(env, ops, st0, t0, raised)
    {
      raised := Attempt(env, op);
      Advance(env, ops, k, st0);
      if raised.None? && k + 1 == |ops| {
        PerformAllReturn(env, ops, st0);
        assert ops[..k + 1] == ops;
      }
    }

    /** Lines 59-61, stopping at the first call that raises. */
    method Prepare(env: Env, url: string) returns (raised: Option<Exception>)
      modifies this
      ensures Performed(env, PrepareOps(url, old(remotes)), old(State()), old(trace), raised)
    {
      ghost var ops := PrepareOps(url, remotes);
      ghost var st0 := State();
      ghost var t0 := trace;
      assert Progressed(env, ops, 0, st0, t0);
      raised := Step(env, ops, 0, st0, t0, Init);
      if raised.Some? { return; }
      assert ops[..1] == [Init] && [Init][1..] == [];
      assert remotes == st0.remotes;
      var originOp := if ORIGIN in remotes then ReuseOrigin else CreateOrigin(url);
      raised := Step(env, ops, 1, st0, t0, originOp);
      if raised.Some? { return; }
      raised := Step(env, ops, 2, st0, t0, FetchAll);
    }

    /** Lines 62-64, stopping at the first call that raises. */
    method Branch(env: Env, branch: string) returns (raised: Option<Exception>)
      modifies this
      ensures Performed(env, BranchOps(branch), old(State()), old(trace), raised)
    {
      ghost var ops := BranchOps(branch);
      ghost var st0 := State();
      ghost var t0 := trace;
      assert Progressed(env, ops, 0, st0, t0);
      raised := Step(env, ops, 0, st0, t0, CreateHead(branch));
      if raised.Some? { return; }
      raised := Step(env, ops, 1, st0, t0, SetTracking(branch));
      if raised.Some? { return; }
      raised := Step(env, ops, 2, st0, t0, Checkout(branch));
    }

    /** Lines 59-64, stopping at the first call that raises. */
    method SetUp(env: Env, branch: string, url: string) returns (raised: Option<Exception>)
      modifies this
      ensures Performed(env, SetupOps(branch, url, old(remotes)), old(State()), old(trace), raised)
    {
      PerformAppend(env, PrepareOps(url, remotes), BranchOps(branch), State());
      raised := Prepare(env, url);
      if raised.Some? { return; }
      raised := Branch(env, branch);
    }

    /** Lines 65-69: fetch and pull the branch; on `GitCommandError` only,
        hard-reset to FETCH_HEAD. */
    method PullOrReset(env: Env, branch: string) returns (raised: Option<Exception>)
      modifies this
      ensures var r := PullStage(env, branch, old(State()));
        trace == old(trace) + r.trace && State() == r.state && raised == r.raised
    {
      PulledCases(env, branch, State());
      raised := Attempt(env, FetchBranch(branch));
      if raised.None? {
        raised := Attempt(env, Pull(branch));
      }
      if raised == Some(GitCommandError) {
        PerformOne(env, ResetHard, State());
        raised := Attempt(env, ResetHard);
      }
    }

    /** Lines 59-71, the body of the inner `try`. */
    method InitRepository(env: Env, branch: string, url: string) returns (raised: Option<Exception>)
      modifies this
      ensures var r := InitStage(env, branch, url, old(State()));
        trace == old(trace) + r.trace && State() == r.state && raised == r.raised
    {
      raised := SetUp(env, branch, url);
      if raised.Some? { return; }
      raised := PullOrReset(env, branch);
      if raised.Some? { return; }
      PerformOne(env, Install(INSTALL_COMMAND), State());
      raised := Attempt(env, Install(INSTALL_COMMAND));
      if raised.None? {
        trace := trace + [Info(FetchingUpdates)];
      }
    }

    /** Lines 58-73: the inner `try`, whose exception is logged as a warning. */
    method InitOrWarn(env: Env, branch: string, url: string)
      modifies this
      ensures var r := HandledInit(env, branch, url, old(State()));
        trace == old(trace) + r.trace && State() == r.state
    {
      var failure := InitRepository(env, branch, url);
      if failure.Some? {
        trace := trace + [Warning(failure.value)];
      }
    }

    /** Lines 36-73: one run of `git()`; `escaped` is the exception that
        leaves the routine. */
    method Git(env: Env, cfg: Config) returns (escaped: Option<Exception>)
      modifies this
      ensures var r := GitRun(env, cfg, old(State()));
        trace == old(trace) + r.trace && State() == r.state && escaped == r.raised
    {
      if !env.HasTooling() {
        trace := trace + [Info(GitNotFound)];
        return None;
      }
      var url := RemoteUrl.CredentialedUrlAsWritten(cfg.upstreamRepo, cfg.gitToken);
      if url.Err? {
        return Some(url.error);
      }
      escaped := OpenRepository(env, cfg.upstreamBranch, url.value);
    }

    /** Lines 53-55 and 73: the handlers that only log, and an exception of
        `Repo()` that no handler names, which leaves the routine. */
    method Report(opening: Option<Exception>) returns (escaped: Option<Exception>)
      requires opening != Some(InvalidGitRepositoryError)
      modifies this`trace
      ensures opening.None? ==> trace == old(trace) + [Info(ClientFound)] && escaped.None?
      ensures opening == Some(GitCommandError) ==> trace == old(trace) + [Info(InvalidGitCommand)] && escaped.None?
      ensures opening.Some? && opening.value != GitCommandError ==> trace == old(trace) && escaped == opening
    {
      if opening.None? {
        trace := trace + [Info(ClientFound)];
        escaped := None;
      } else if opening.value == GitCommandError {
        trace := trace + [Info(InvalidGitCommand)];
        escaped := None;
      } else {
        escaped := opening;
      }
    }

    /** Lines 51-73: the outer `try` and its handlers. */
    method OpenRepository(env: Env, branch: string, url: string) returns (escaped: Option<Exception>)
      modifies this
      ensures var r := OpenStage(env, branch, url, old(State()));
        trace == old(trace) + r.trace && State() == r.state && escaped == r.raised
    {
      ghost var st0 := State();
      ghost var t0 := trace;
      var opening := Attempt(env, Open);
      assert State() == st0 && trace == t0 + [Call(Open)];
      if opening == Some(InvalidGitRepositoryError) {
        ghost var handled := HandledInit(env, branch, url, st0);
        InitOrWarn(env, branch, url);
        escaped := None;
        assert trace == t0 + ([Call(Open)] + handled.trace);
      } else {
        escaped := Report(opening);
      }
    }
  }
}
