/** What each success of the channel gate stands for: the edit that was asked for, the message that was routed. */
module GateHistory {
  import opened GateKeys
  import opened ChannelGate
  import opened GateDeadlock

  // ---------------------------------------------------------------------------------------------
  // Jobs come from the actions that began them

  /** What a router has read of the channels, one reading for each time it routed into one. */
  function Readings(lockOf: ChannelGateKey -> LockId, init: map<ChannelGateKey, ChannelRow>, actions: seq<Action>, r: nat): seq<Intent>
    decreases |actions|
  {
    if actions == [] then []
    else
      var front, a := actions[..|actions| - 1], actions[|actions| - 1];
      var before, channels := Readings(lockOf, init, front, r), Run(lockOf, Start(init), front).channels;
      if a.Route? && a.router == r && a.key in channels then before + [Intent(a.key, channels[a.key])] else before
  }

  function ReadBy(s: System, r: nat): seq<Intent> {
    if r in s.routers then s.routers[r] else []
  }

  lemma StepReads(lockOf: ChannelGateKey -> LockId, s: System, a: Action, r: nat)
    ensures ReadBy(Step(lockOf, s, a), r)
         == if a.Route? && a.router == r && a.key in s.channels then ReadBy(s, r) + [Intent(a.key, s.channels[a.key])] else ReadBy(s, r)
  {
  }

  lemma {:induction false} RoutersHoldTheirReadings(
    lockOf: ChannelGateKey -> LockId, init: map<ChannelGateKey, ChannelRow>, actions: seq<Action>, r: nat)
    ensures ReadBy(Run(lockOf, Start(init), actions), r) == Readings(lockOf, init, actions, r)
    decreases |actions|
  {
    if actions != [] {
      RoutersHoldTheirReadings(lockOf, init, actions[..|actions| - 1], r);
      StepReads(lockOf, Run(lockOf, Start(init), actions[..|actions| - 1]), actions[|actions| - 1], r);
    }
  }

  /** The action begins the transaction with this job. */
  ghost predicate Begins(lockOf: ChannelGateKey -> LockId, init: map<ChannelGateKey, ChannelRow>, before: seq<Action>, a: Action, t: TxnId, job: Job) {
    || (a.BeginEdit? && a.txn == t && job == ChangeSettings(a.key, a.settings))
    || (a.BeginCommit? && a.txn == t && job == Admit(Readings(lockOf, init, before, a.router)))
  }

  lemma NewJobs(lockOf: ChannelGateKey -> LockId, s: System, a: Action, t: TxnId)
    requires t !in s.txns && t in Step(lockOf, s, a).txns
    ensures a.BeginEdit? || a.BeginCommit?
    ensures a.txn == t
    ensures Step(lockOf, s, a).txns[t].job == if a.BeginEdit? then ChangeSettings(a.key, a.settings) else Admit(ReadBy(s, a.router))
  {
  }

  lemma {:induction false} JobsComeFromTheirActions(
    lockOf: ChannelGateKey -> LockId, init: map<ChannelGateKey, ChannelRow>, actions: seq<Action>, t: TxnId) returns (j: nat)
    requires t in Run(lockOf, Start(init), actions).txns
    ensures j < |actions| && Begins(lockOf, init, actions[..j], actions[j], t, Run(lockOf, Start(init), actions).txns[t].job)
    decreases |actions|
  {
    var front, a := actions[..|actions| - 1], actions[|actions| - 1];
    var s := Run(lockOf, Start(init), front);
    if t in s.txns {
      j := JobsComeFromTheirActions(lockOf, init, front, t);
      StepKeepsJobs(lockOf, s, t, a);
      assert front[..j] == actions[..j];
    } else {
      j := |actions| - 1;
      NewJobs(lockOf, s, a, t);
      if a.BeginCommit? {
        RoutersHoldTheirReadings(lockOf, init, front, a.router);
      }
    }
  }

  // ---------------------------------------------------------------------------------------------
  // Successes are of those jobs

  /** The job an event of the log is the success of. */
  function JobOf(e: Event): Job {
    match e
    case SettingsSaved(_, key, settings) => ChangeSettings(key, settings)
    case MessageStored(_, intents) => Admit(intents)
  }

  ghost predicate LogFollowsJobs(s: System) {
    forall i | 0 <= i < |s.log| :: s.log[i].txn in s.txns && s.txns[s.log[i].txn].job == JobOf(s.log[i])
  }

  lemma StepLogs(lockOf: ChannelGateKey -> LockId, s: System, a: Action)
    ensures var s' := Step(lockOf, s, a);
      || s'.log == s.log
      || exists e :: s'.log == s.log + [e] && e.txn in s.txns && s.txns[e.txn].job == JobOf(e)
  {
    var s' := Step(lockOf, s, a);
    if s'.log != s.log {
      var e := s'.log[|s.log|];
      assert s'.log == s.log + [e] && e.txn in s.txns && s.txns[e.txn].job == JobOf(e);
    }
  }

  lemma StepKeepsLogFollowing(lockOf: ChannelGateKey -> LockId, s: System, a: Action)
    requires LogFollowsJobs(s)
    ensures LogFollowsJobs(Step(lockOf, s, a))
  {
    var s' := Step(lockOf, s, a);
    StepLogs(lockOf, s, a);
    forall i | 0 <= i < |s'.log| ensures s'.log[i].txn in s'.txns && s'.txns[s'.log[i].txn].job == JobOf(s'.log[i]) {
      StepKeepsJobs(lockOf, s, s'.log[i].txn, a);
    }
  }

  lemma {:induction false} EveryEventIsItsJobs(lockOf: ChannelGateKey -> LockId, init: map<ChannelGateKey, ChannelRow>, actions: seq<Action>)
    ensures LogFollowsJobs(Run(lockOf, Start(init), actions))
    decreases |actions|
  {
    if actions != [] {
      EveryEventIsItsJobs(lockOf, init, actions[..|actions| - 1]);
      StepKeepsLogFollowing(lockOf, Run(lockOf, Start(init), actions[..|actions| - 1]), actions[|actions| - 1]);
    }
  }

  /**
   In every run, a transaction that says it succeeded is in the log once, with exactly what the action
   that began it asked for: the channel and settings of the edit, or every reading its router had made.
   */
  lemma SuccessIsWhatWasAsked(
    lockOf: ChannelGateKey -> LockId, init: map<ChannelGateKey, ChannelRow>, actions: seq<Action>, t: TxnId)
    returns (i: nat, j: nat)
    requires var s := Run(lockOf, Start(init), actions); In(s, t, Ended(Saved)) || In(s, t, Ended(Stored))
    ensures var s := Run(lockOf, Start(init), actions);
      && i < |s.log| && s.log[i].txn == t && (forall k | 0 <= k < |s.log| && s.log[k].txn == t :: k == i)
      && j < |actions| && Begins(lockOf, init, actions[..j], actions[j], t, JobOf(s.log[i]))
      && (s.log[i].SettingsSaved? <==> In(s, t, Ended(Saved)))
  {
    var s := Run(lockOf, Start(init), actions);
    RunIsValid(lockOf, init, actions);
    EveryEventIsItsJobs(lockOf, init, actions);
    var m :| 0 <= m < |s.log| && s.log[m].txn == t;
    i := m;
    assert In(s, s.log[i].txn, OutcomeOf(s.log[i]));
    j := JobsComeFromTheirActions(lockOf, init, actions, t);
  }

  // ---------------------------------------------------------------------------------------------
  // The channels are what the saved edits say

  /** The settings of the last saved edit of a channel. */
  function LastSaved(log: seq<Event>, key: ChannelGateKey, first: ChannelSettings): ChannelSettings {
    if log == [] then first
    else
      var e := log[|log| - 1];
      if e.SettingsSaved? && e.key == key then e.settings else LastSaved(log[..|log| - 1], key, first)
  }

  function TimesSaved(log: seq<Event>, key: ChannelGateKey): nat {
    if log == [] then 0
    else
      var e := log[|log| - 1];
      TimesSaved(log[..|log| - 1], key) + (if e.SettingsSaved? && e.key == key then 1 else 0)
  }

  lemma {:induction false} ReplayIsTheLastSaved(init: map<ChannelGateKey, ChannelRow>, log: seq<Event>, key: ChannelGateKey)
    requires key in init
    ensures key in Replay(init, log)
    ensures Replay(init, log)[key] == ChannelRow(LastSaved(log, key, init[key].settings), init[key].revision + TimesSaved(log, key))
  {
    if log != [] {
      ReplayIsTheLastSaved(init, log[..|log| - 1], key);
    }
  }

  /** In every run a channel has the settings of its last saved edit, or its first ones, and one revision for each saved edit. */
  lemma ChannelsAreAsLastSaved(
    lockOf: ChannelGateKey -> LockId, init: map<ChannelGateKey, ChannelRow>, actions: seq<Action>, key: ChannelGateKey)
    ensures var s := Run(lockOf, Start(init), actions);
      && (key in s.channels <==> key in init)
      && (key in init ==>
            s.channels[key] == ChannelRow(LastSaved(s.log, key, init[key].settings), init[key].revision + TimesSaved(s.log, key)))
  {
    var s := Run(lockOf, Start(init), actions);
    RunIsValid(lockOf, init, actions);
    ReplayKeepsKeys(init, s.log);
    if key in init {
      ReplayIsTheLastSaved(init, s.log, key);
    }
  }

  // ---------------------------------------------------------------------------------------------
  // Failures have causes

  /** A channel the message was routed into has been edited since. */
  ghost predicate IsStale(channels: map<ChannelGateKey, ChannelRow>, intents: seq<Intent>) {
    exists i :: 0 <= i < |intents| && intents[i].key in channels && intents[i].seen.revision < channels[intents[i].key].revision
  }

  /** Why a transaction ended without success. */
  ghost predicate HasCause(s: System, txn: Txn, aborted: bool) {
    match txn.phase
    case Ended(Superseded) => txn.job.Admit? && IsStale(s.channels, txn.job.intents)
    case Ended(NotFound) => txn.job.ChangeSettings? && txn.job.key !in s.channels
    case Ended(RolledBack) => aborted
    case Ended(Stored) => txn.job.Admit?
    case Ended(Saved) => txn.job.ChangeSettings?
    case _ => true
  }

  ghost predicate Grew(before: map<ChannelGateKey, ChannelRow>, after: map<ChannelGateKey, ChannelRow>) {
    before.Keys == after.Keys && forall k | k in before :: before[k].revision <= after[k].revision
  }

  lemma ChannelsOnlyGrow(lockOf: ChannelGateKey -> LockId, s: System, a: Action)
    requires DataValid(s)
    ensures Grew(s.channels, Step(lockOf, s, a).channels)
  {
    if a.Save? && Enabled(lockOf, s, a) {
      assert Honest(s.channels, s.txns[a.txn]);
    }
  }

  lemma CauseStands(s: System, s': System, txn: Txn, aborted: bool, later: bool)
    requires HasCause(s, txn, aborted) && Grew(s.channels, s'.channels) && (aborted ==> later)
    ensures HasCause(s', txn, later)
  {
  }

  /** A transaction that this step ends without success. */
  lemma StepHasCause(lockOf: ChannelGateKey -> LockId, s: System, a: Action, t: TxnId)
    requires DataValid(s) && t in Step(lockOf, s, a).txns && (t in s.txns ==> Step(lockOf, s, a).txns[t] != s.txns[t])
    ensures HasCause(Step(lockOf, s, a), Step(lockOf, s, a).txns[t], a == Abort(t))
  {
    var s' := Step(lockOf, s, a);
    if a == Verify(t) && s'.txns[t].phase == Ended(Superseded) {
      var intents := s.txns[t].job.intents;
      assert Honest(s.channels, s.txns[t]) && Fair(s.channels, intents) && !Current(s.channels, intents);
      var i :| 0 <= i < |intents| && !(intents[i].key in s.channels && s.channels[intents[i].key].revision == intents[i].seen.revision);
      assert intents[i].seen.revision < s'.channels[intents[i].key].revision;
    }
  }

  lemma NextHasCause(lockOf: ChannelGateKey -> LockId, s: System, a: Action, t: TxnId, aborted: bool, later: bool)
    requires DataValid(s) && t in Step(lockOf, s, a).txns && (t in s.txns ==> HasCause(s, s.txns[t], aborted))
    requires (aborted ==> later) && (a == Abort(t) ==> later)
    ensures HasCause(Step(lockOf, s, a), Step(lockOf, s, a).txns[t], later)
  {
    var s' := Step(lockOf, s, a);
    if t in s.txns && s'.txns[t] == s.txns[t] {
      ChannelsOnlyGrow(lockOf, s, a);
      CauseStands(s, s', s.txns[t], aborted, later);
    } else {
      StepHasCause(lockOf, s, a, t);
      CauseStands(s', s', s'.txns[t], a == Abort(t), later);
    }
  }

  lemma LastStepHasCause(lockOf: ChannelGateKey -> LockId, init: map<ChannelGateKey, ChannelRow>, actions: seq<Action>, t: TxnId)
    requires actions != [] && t in Run(lockOf, Start(init), actions).txns
    requires var s := Run(lockOf, Start(init), actions[..|actions| - 1]);
      t in s.txns ==> HasCause(s, s.txns[t], Abort(t) in actions[..|actions| - 1])
    ensures var s := Run(lockOf, Start(init), actions); HasCause(s, s.txns[t], Abort(t) in actions)
  {
    var front, a := actions[..|actions| - 1], actions[|actions| - 1];
    assert DataValid(Run(lockOf, Start(init), front)) by { RunIsValid(lockOf, init, front); }
    assert Abort(t) in actions <==> Abort(t) in front || a == Abort(t) by { assert actions == front + [a]; }
    NextHasCause(lockOf, Run(lockOf, Start(init), front), a, t, Abort(t) in front, Abort(t) in actions);
  }

  /**
   In every run a transaction fails only for cause: a message is superseded only if a channel it was
   routed into has been edited since, an edit finds no channel only where there is none, and nothing
   is rolled back that was not aborted.
   */
  lemma {:induction false} FailuresHaveCauses(
    lockOf: ChannelGateKey -> LockId, init: map<ChannelGateKey, ChannelRow>, actions: seq<Action>, t: TxnId)
    requires t in Run(lockOf, Start(init), actions).txns
    ensures var s := Run(lockOf, Start(init), actions); HasCause(s, s.txns[t], Abort(t) in actions)
    decreases |actions|
  {
    var front := actions[..|actions| - 1];
    if t in Run(lockOf, Start(init), front).txns {
      FailuresHaveCauses(lockOf, init, front, t);
    }
    LastStepHasCause(lockOf, init, actions, t);
  }
}
