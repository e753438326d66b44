/**
 The worker that owns one MCP session: a command loop that ends in one close.

 What becomes ready at each wait is given from outside, as one turn after another; where several
 things are ready at once the waits prefer the shutdown, then a caller who has gone, then the result.
 */
module McpWorker {
  import opened Rows

  type Caller = nat

  datatype Reply = Reply(ok: bool, body: nat)

  datatype Operation = Discover | CallTool(name: nat, arguments: nat)

  /** A command with where its answer goes; a command channel that has ended yields none. */
  datatype Command = Ask(operation: Operation, caller: Caller) | Close(caller: Caller)

  /** What is ready while an operation runs. The wait goes on until something is. */
  datatype Ready = Ready(shutdown: bool, callerGone: bool, result: Option<Reply>)

  /** One round of the loop: what is ready at its first wait, and while it carries a command out. */
  datatype Turn = Turn(shutdown: bool, received: Option<Command>, running: Ready)

  datatype Effect =
    | Answered(caller: Caller, reply: Reply)
    | Closed(result: Reply)
    | CloseAnswered(caller: Caller, result: Reply)
    | FailureNoted

  /** How a round ends the loop. */
  datatype Exit = ShutDownIdle | ShutDownRunning | CallerGone(caller: Caller) | CloseAsked(caller: Caller) | ChannelEnded

  // ---------------------------------------------------------------------------------------------
  // The loop

  /** A round that answers its caller and goes on. Something must have become ready for it. */
  predicate Served(t: Turn) {
    && !t.shutdown && t.received.Some? && t.received.value.Ask?
    && !t.running.shutdown && !t.running.callerGone && t.running.result.Some?
  }

  /** A round that has not come to anything yet: its operation is still running. */
  predicate Pending(t: Turn) {
    && !t.shutdown && t.received.Some? && t.received.value.Ask?
    && t.running == Ready(false, false, None)
  }

  function ExitOf(t: Turn): Exit
    requires !Served(t) && !Pending(t)
  {
    if t.shutdown then ShutDownIdle
    else match t.received
      case None => ChannelEnded
      case Some(Close(caller)) => CloseAsked(caller)
      case Some(Ask(_, caller)) => if t.running.shutdown then ShutDownRunning else CallerGone(caller)
  }

  /** How many rounds are served before one that is not. */
  function Rounds(turns: seq<Turn>): (n: nat)
    ensures n <= |turns| && (forall i | 0 <= i < n :: Served(turns[i])) && (n < |turns| ==> !Served(turns[n]))
  {
    if turns == [] || !Served(turns[0]) then 0 else 1 + Rounds(turns[1..])
  }

  function AnswerOf(t: Turn): Effect
    requires Served(t)
  {
    Answered(t.received.value.caller, t.running.result.value)
  }

  /** The answers of rounds that are served, in order. */
  function AnswersOf(turns: seq<Turn>): seq<Effect>
    requires forall i | 0 <= i < |turns| :: Served(turns[i])
  {
    seq(|turns|, i requires 0 <= i < |turns| && Served(turns[i]) => AnswerOf(turns[i]))
  }

  predicate Ends(turns: seq<Turn>) {
    Rounds(turns) < |turns| && !Pending(turns[Rounds(turns)])
  }

  /** The worker as it runs: `ended` is false while it still waits for something to become ready. */
  method Run(turns: seq<Turn>, closing: Reply) returns (ended: bool, effects: seq<Effect>)
    ensures ended == Ends(turns) && effects == Transcript(turns, closing)
    ensures Closes(effects) == if ended then 1 else 0
    ensures forall caller, result :: (CloseAnswered(caller, result) in effects
      <==> ended && ExitOf(turns[Rounds(turns)]) == CloseAsked(caller) && result == closing)
    ensures FailureNoted in effects <==> ended && !closing.ok && !ExitOf(turns[Rounds(turns)]).CloseAsked?
  {
    OneClosePerRun(turns, closing);
    FailureIsNotedExactlyWhenUntold(turns, closing);
    forall caller, result ensures CloseAnswered(caller, result) in Transcript(turns, closing)
      <==> Ends(turns) && ExitOf(turns[Rounds(turns)]) == CloseAsked(caller) && result == closing
    {
      CloseIsAnsweredExactlyWhenAsked(turns, closing, caller, result);
    }
    effects := [];
    var closeReply: Option<Caller> := None;
    var i := 0;
    while true
      invariant i <= Rounds(turns) && closeReply.None?
      invariant effects == AnswersOf(turns[..i])
      decreases |turns| - i
    {
      if i == |turns| {
        return false, effects;
      }
      var t := turns[i];
      if t.shutdown {
        break;
      }
      if t.received.None? {
        break;
      }
      if t.received.value.Close? {
        closeReply := Some(t.received.value.caller);
        break;
      }
      if t.running.shutdown || t.running.callerGone {
        break;
      }
      if t.running.result.None? {
        return false, effects;
      }
      assert i < Rounds(turns);
      OneMoreRound(turns, i);
      effects := effects + [Answered(t.received.value.caller, t.running.result.value)];
      i := i + 1;
    }
    effects := effects + [Closed(closing)];
    if closeReply.Some? {
      effects := effects + [CloseAnswered(closeReply.value, closing)];
    } else if !closing.ok {
      effects := effects + [FailureNoted];
    }
    ended := true;
  }

  lemma OneMoreRound(turns: seq<Turn>, i: nat)
    requires i < |turns| && forall j | 0 <= j <= i :: Served(turns[j])
    ensures AnswersOf(turns[..i + 1]) == AnswersOf(turns[..i]) + [AnswerOf(turns[i])]
  {
    var before := turns[..i];
    assert turns[..i + 1] == before + [turns[i]];
    OneMoreAnswer(before, turns[i]);
  }

  lemma OneMoreAnswer(turns: seq<Turn>, t: Turn)
    requires (forall i | 0 <= i < |turns| :: Served(turns[i])) && Served(t)
    ensures forall i | 0 <= i < |turns + [t]| :: Served((turns + [t])[i])
    ensures AnswersOf(turns + [t]) == AnswersOf(turns) + [AnswerOf(t)]
  {
  }

  /** What the end of the loop does, by the way it ended. */
  function Ending(exit: Exit, closing: Reply): seq<Effect> {
    match exit
    case CloseAsked(caller) => [Closed(closing), CloseAnswered(caller, closing)]
    case _ => if closing.ok then [Closed(closing)] else [Closed(closing), FailureNoted]
  }

  /** Everything the worker does, as `Run` does it. */
  function Transcript(turns: seq<Turn>, closing: Reply): seq<Effect> {
    var n := Rounds(turns);
    AnswersOf(turns[..n]) + (if Ends(turns) then Ending(ExitOf(turns[n]), closing) else [])
  }

  // ---------------------------------------------------------------------------------------------
  // What every run does

  function Closes(effects: seq<Effect>): nat {
    if effects == [] then 0 else Closes(effects[..|effects| - 1]) + (if effects[|effects| - 1].Closed? then 1 else 0)
  }

  lemma {:induction false} AnswersCloseNothing(effects: seq<Effect>)
    requires forall e | e in effects :: e.Answered?
    ensures Closes(effects) == 0
  {
    if effects != [] {
      assert effects[|effects| - 1] in effects;
      AnswersCloseNothing(effects[..|effects| - 1]);
    }
  }

  lemma EndingCloses(answers: seq<Effect>, exit: Exit, closing: Reply)
    requires forall e | e in answers :: e.Answered?
    ensures Closes(answers + Ending(exit, closing)) == 1
  {
    AnswersCloseNothing(answers);
    var one := answers + [Closed(closing)];
    assert one[..|one| - 1] == answers;
    var all := answers + Ending(exit, closing);
    if |Ending(exit, closing)| == 2 {
      assert all[..|all| - 1] == one;
    } else {
      assert all == one;
    }
  }

  lemma AnswersAreAnswers(turns: seq<Turn>)
    requires forall i | 0 <= i < |turns| :: Served(turns[i])
    ensures forall e | e in AnswersOf(turns) :: e.Answered?
  {
  }

  /** The session is closed once if the run has ended, and not before. */
  lemma OneClosePerRun(turns: seq<Turn>, closing: Reply)
    ensures Closes(Transcript(turns, closing)) == if Ends(turns) then 1 else 0
  {
    var n := Rounds(turns);
    AnswersAreAnswers(turns[..n]);
    if Ends(turns) {
      EndingCloses(AnswersOf(turns[..n]), ExitOf(turns[n]), closing);
    } else {
      assert Transcript(turns, closing) == AnswersOf(turns[..n]);
      AnswersCloseNothing(AnswersOf(turns[..n]));
    }
  }

  /** A caller hears of the close exactly when it was its command that ended the loop, and hears how the close went. */
  lemma CloseIsAnsweredExactlyWhenAsked(turns: seq<Turn>, closing: Reply, caller: Caller, result: Reply)
    ensures CloseAnswered(caller, result) in Transcript(turns, closing)
       <==> Ends(turns) && ExitOf(turns[Rounds(turns)]) == CloseAsked(caller) && result == closing
  {
    AnswersAreAnswers(turns[..Rounds(turns)]);
  }

  /** A failed close is noted exactly when nobody is told of it. */
  lemma FailureIsNotedExactlyWhenUntold(turns: seq<Turn>, closing: Reply)
    ensures FailureNoted in Transcript(turns, closing)
       <==> Ends(turns) && !closing.ok && !ExitOf(turns[Rounds(turns)]).CloseAsked?
  {
    AnswersAreAnswers(turns[..Rounds(turns)]);
  }

  /** Each operation before the exit is answered, once and in order, and nothing at or after it is. */
  lemma AnsweredAreTheServed(turns: seq<Turn>, closing: Reply, i: nat)
    requires i < |turns|
    ensures var script := Transcript(turns, closing);
      if i < Rounds(turns)
      then i < |script| && script[i] == Answered(turns[i].received.value.caller, turns[i].running.result.value)
      else i < |script| ==> !script[i].Answered?
  {
  }

  /** Whatever else is ready, once the shutdown is seen the run ends there, and nothing from there on is answered. */
  lemma ShutdownEndsTheRun(turns: seq<Turn>, closing: Reply, i: nat)
    requires i < |turns| && (turns[i].shutdown || (turns[i].received.Some? && turns[i].received.value.Ask? && turns[i].running.shutdown))
    requires forall j | 0 <= j < i :: !Pending(turns[j])
    ensures Ends(turns) && Rounds(turns) <= i && Closes(Transcript(turns, closing)) == 1
    ensures forall k | i <= k < |Transcript(turns, closing)| :: !Transcript(turns, closing)[k].Answered?
  {
    OneClosePerRun(turns, closing);
    assert !Served(turns[i]) && !Pending(turns[i]);
    assert Rounds(turns) < i ==> !Pending(turns[Rounds(turns)]);
  }

  /** The loop stops at this round: the shutdown is seen, the channel has ended, a close is asked for or the caller is gone. */
  predicate Stops(t: Turn) {
    t.shutdown || t.received == None || t.received.value.Close? || t.running.shutdown || t.running.callerGone
  }

  /** The close, and who is told of it: whoever asked for it, or nobody, and then a failure is noted. */
  function Shut(t: Turn, closing: Reply): seq<Effect> {
    [Closed(closing)] +
    if !t.shutdown && t.received.Some? && t.received.value.Close? then [CloseAnswered(t.received.value.caller, closing)]
    else if closing.ok then [] else [FailureNoted]
  }

  /**
   Round by round: a round with nothing ready does nothing, one that stops the loop shuts the session
   whatever else it holds, and any other answers its own caller with its own result and goes on.
   */
  lemma RoundByRound(turns: seq<Turn>, closing: Reply)
    requires turns != []
    ensures Transcript([], closing) == []
    ensures var t := turns[0];
      if Stops(t) then Transcript(turns, closing) == Shut(t, closing) && Ends(turns)
      else if t.running.result == None then Transcript(turns, closing) == [] && !Ends(turns)
      else
        && Transcript(turns, closing) == [Answered(t.received.value.caller, t.running.result.value)] + Transcript(turns[1..], closing)
        && (Ends(turns) <==> Ends(turns[1..]))
  {
    var t := turns[0];
    if !Stops(t) && t.running.result.Some? {
      var n := Rounds(turns[1..]);
      assert Rounds(turns) == n + 1;
      AnswersFromTheFirst(turns[..n + 1]);
      assert turns[..n + 1][1..] == turns[1..][..n];
    } else {
      assert Rounds(turns) == 0 && turns[..0] == [];
    }
  }

  lemma AnswersFromTheFirst(turns: seq<Turn>)
    requires turns != [] && forall i | 0 <= i < |turns| :: Served(turns[i])
    ensures AnswersOf(turns) == [AnswerOf(turns[0])] + AnswersOf(turns[1..])
  {
  }
}
