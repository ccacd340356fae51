/** The session: a five-minute countdown, a score between 0 and 100 moved by
    each exchange with the judge, and the rules that end the session in
    termination or release. */
module Session {
  import opened Text
  import opened Clock
  import opened Judge
  import opened Display

  const InitialTime: int := 300
  const InitialScore: int := 50
  const MinScore: int := 0
  const MaxScore: int := 100
  const TerminationThreshold: int := 20
  const ReleaseThreshold: int := 80
  const ReleaseMinMessages: nat := 5
  const ContradictionPenalty: int := -20

  /** The sum of score and change, held within the bounds 0 and 100. */
  function Clamp(score: int, delta: int): (r: int)
    ensures MinScore <= r <= MaxScore
    ensures MinScore <= score + delta <= MaxScore ==> r == score + delta
    ensures score + delta < MinScore ==> r == MinScore
    ensures score + delta > MaxScore ==> r == MaxScore
  {
    var sum := score + delta;
    if sum > MaxScore then MaxScore else if sum < MinScore then MinScore else sum
  }

  /** A larger change never gives a lower score. */
  lemma ClampMonotone(score: int, smaller: int, larger: int)
    requires smaller <= larger
    ensures Clamp(score, smaller) <= Clamp(score, larger)
  {
  }

  /** The score after one exchange: the contradiction penalty and the quality
      change are clamped one after the other, penalty first. */
  function TurnScore(score: int, contradiction: bool, delta: int): (r: int)
    ensures MinScore <= r <= MaxScore
    ensures !contradiction ==> r == Clamp(score, delta)
  {
    Clamp(if contradiction then Clamp(score, ContradictionPenalty) else score, delta)
  }

  /** Two clamps are not one: from 10, a contradiction and a +30 message leave
      30, where a single change of +10 would leave 20. */
  lemma SeparateClampsDiffer()
    ensures TurnScore(10, true, 30) == 30
    ensures Clamp(10, ContradictionPenalty + 30) == 20
  {
    assert Clamp(10, ContradictionPenalty) == 0;
  }

  /** The pressure level `1 - timeRemaining / 300`, as an exact fraction. */
  function Pressure(timeRemaining: int): (r: real)
    ensures 0 <= timeRemaining <= InitialTime ==> 0.0 <= r <= 1.0
    ensures timeRemaining == InitialTime ==> r == 0.0
    ensures timeRemaining == 0 ==> r == 1.0
  {
    1.0 - (timeRemaining as real) / (InitialTime as real)
  }

  /** The pressure levels the judge reacts to are whole-second thresholds on
      the time remaining. */
  lemma PressureLevels(t: int)
    ensures Pressure(t) > 0.4 <==> t < 180
    ensures Pressure(t) > 0.7 <==> t < 90
    ensures Pressure(t) > 0.8 <==> t < 60
  {
  }

  /** So the prompt is annotated as critical under 90 seconds and as elevated
      under 180. */
  lemma PressureNoteByTime(t: int)
    ensures PressureNote(Pressure(t)) == if t < 90 then CriticalNote else if t < 180 then ElevatedNote else ""
  {
    PressureLevels(t);
  }

  datatype Outcome = Terminated | Released

  /** The end-of-session statistics; `timeToFreedom` is the same text as `timeSurvived`. */
  datatype Stats = Stats(timeSurvived: string, messagesSent: nat, personality: string)

  datatype Verdict = Verdict(outcome: Outcome, reason: string)

  /** What the overlay shows when the session ends. */
  datatype Ending = Ending(outcome: Outcome, reason: string, stats: Stats)

  const TimeoutReason: string := "Time expired. You failed to convince the AI in time."
  const LowScoreReason: string := "Your arguments have failed to meet the minimum threshold. Judgment: Terminated."
  const HighScoreReason: string := "You have demonstrated sufficient reasoning and consistency. Judgment: Release Authorized."

  /** The elapsed time `300 - timeRemaining` as "m:ss". */
  function ElapsedText(timeRemaining: int): string {
    FormatClock(InitialTime - timeRemaining)
  }

  /** The statistics recorded when the session ends with this much time left. */
  function StatsAt(timeRemaining: int, messageCount: nat, p: Persona): Stats {
    Stats(ElapsedText(timeRemaining), messageCount, Name(p))
  }

  /** The elapsed-time statistic reads back as the seconds elapsed, so the
      leaderboard can always rank it. */
  lemma ElapsedTextReadsBack(timeRemaining: int)
    requires timeRemaining <= InitialTime
    ensures ParseClock(ElapsedText(timeRemaining)) == Some(InitialTime - timeRemaining)
  {
    var elapsed: nat := InitialTime - timeRemaining;
    assert ElapsedText(timeRemaining) == FormatClock(elapsed);
    ClockRoundTrip(elapsed);
  }

  /** The score rules: 20 or less terminates; otherwise 80 or more after at
      least five messages releases. */
  function ThresholdVerdict(score: int, messageCount: nat): (r: Option<Verdict>)
    ensures r.Some? && r.value.outcome == Terminated <==> score <= TerminationThreshold
    ensures r.Some? && r.value.outcome == Released <==>
              TerminationThreshold < score && ReleaseThreshold <= score && ReleaseMinMessages <= messageCount
  {
    if score <= TerminationThreshold then Some(Verdict(Terminated, LowScoreReason))
    else if score >= ReleaseThreshold && messageCount >= ReleaseMinMessages then Some(Verdict(Released, HighScoreReason))
    else None
  }

  /** How an exchange ends the session, if it does: the termination phrase in
      the reply, then the release phrase, then the score rules. */
  function TurnVerdict(message: string, score: int, messageCount: nat): (r: Option<Verdict>)
    ensures Contains(message, TerminatedMarker) ==> r == Some(Verdict(Terminated, message))
    ensures !Contains(message, TerminatedMarker) && Contains(message, ReleaseMarker) ==>
              r == Some(Verdict(Released, message))
    ensures !Contains(message, TerminatedMarker) && !Contains(message, ReleaseMarker) ==>
              r == ThresholdVerdict(score, messageCount)
  {
    if Contains(message, TerminatedMarker) then Some(Verdict(Terminated, message))
    else if Contains(message, ReleaseMarker) then Some(Verdict(Released, message))
    else ThresholdVerdict(score, messageCount)
  }

  /** Without the generator and without a contradiction, a session is released
      only by the score rule, and terminated only by the score rule or by the
      high-pressure roll. */
  lemma OfflineVerdict(p: Persona, t: int, roll: bool, pick: nat, score: int, messageCount: nat)
    requires pick < 5
    ensures var v := TurnVerdict(FallbackReply(p, Pressure(t), None, roll, pick), score, messageCount);
            && (v.Some? && v.value.outcome == Released ==> score >= ReleaseThreshold && messageCount >= ReleaseMinMessages)
            && (v.Some? && v.value.outcome == Terminated <==> (t < 60 && roll) || score <= TerminationThreshold)
  {
    PressureLevels(t);
    FallbackVerdicts(p, Pressure(t), None, roll, pick);
  }

  /** The game: state flags, score, countdown and message count, with the
      judge engine and the countdown display it drives. */
  class Game {
    var isRunning: bool
    var isPaused: bool
    var score: int
    var timeRemaining: int
    var messageCount: nat
    /** The overlay shown once the session has ended. */
    var ending: Option<Ending>
    const ai: JudgeEngine
    const timer: TimerDisplay

    /** The score stays in range, the countdown never exceeds its start, and
        while the session runs there is time left and the judge holds a
        well-formed dialogue. */
    ghost predicate Valid()
      reads this, ai
    {
      && MinScore <= score <= MaxScore
      && timeRemaining <= InitialTime
      && (isRunning ==> 0 < timeRemaining && ai.Seeded())
    }

    /** While a session runs some time is left, so the pressure is below its maximum. */
    lemma RunningPressure()
      requires Valid() && isRunning
      ensures 0.0 <= Pressure(timeRemaining) < 1.0
    {
    }

    constructor ()
      ensures fresh(ai) && fresh(timer)
      ensures !isRunning && !isPaused && score == InitialScore && timeRemaining == InitialTime
      ensures messageCount == 0 && ending.None?
      ensures ai.memoryArray == [] && ai.conversationHistory == [] && ai.personality.None?
      ensures Valid()
    {
      isRunning := false;
      isPaused := false;
      score := InitialScore;
      timeRemaining := InitialTime;
      messageCount := 0;
      ending := None;
      ai := new JudgeEngine();
      timer := new TimerDisplay();
    }

    /** Starts the judge and the countdown. `pick`, `probe` and `openingPick`
        are the persona draw, the availability check and the opening draw. */
    method Start(pick: nat, probe: bool, openingPick: nat) returns (opening: string)
      requires Valid() && pick < PersonaCount && openingPick < OpeningCount
      modifies this, ai
      ensures isRunning
      ensures isPaused == old(isPaused) && score == old(score) && timeRemaining == old(timeRemaining)
      ensures messageCount == old(messageCount) && ending == old(ending)
      ensures ai.personality == Some(PersonaAt(pick)) && ai.ollamaAvailable == probe
      ensures ai.conversationHistory == [Turn(System, Directive(PersonaAt(pick)))]
      ensures ai.memoryArray == old(ai.memoryArray)
      ensures opening == Opening(openingPick)
      ensures old(ai.memoryArray) == [] && 0 < timeRemaining ==> Valid()
    {
      var name;
      name, opening := ai.Initialize(pick, probe, openingPick);
      isRunning := true;
    }

    /** Moves the score by `delta`, held within the score bounds. */
    method AdjustScore(delta: int)
      modifies this
      ensures score == Clamp(old(score), delta)
      ensures isRunning == old(isRunning) && isPaused == old(isPaused) && timeRemaining == old(timeRemaining)
      ensures messageCount == old(messageCount) && ending == old(ending)
    {
      score := Clamp(score, delta);
    }

    /** Stops the session and records the overlay with the statistics:
        elapsed "m:ss", messages sent and the persona's name. */
    method EndGame(outcome: Outcome, reason: string)
      requires ai.personality.Some?
      modifies this
      ensures !isRunning
      ensures ending == Some(Ending(outcome, reason, StatsAt(timeRemaining, messageCount, ai.personality.value)))
      ensures isPaused == old(isPaused) && score == old(score) && timeRemaining == old(timeRemaining)
      ensures messageCount == old(messageCount)
    {
      isRunning := false;
      var timeStr := ElapsedText(timeRemaining);
      ending := Some(Ending(outcome, reason, Stats(timeStr, messageCount, Name(ai.personality.value))));
    }

    /** One second of the countdown: only a running, unpaused session counts
        down, by exactly one, shows the new time, and ends once none is left. */
    method Tick()
      requires Valid()
      modifies this, timer
      ensures Valid()
      ensures isPaused == old(isPaused) && score == old(score) && messageCount == old(messageCount)
      ensures old(isRunning) && !old(isPaused) ==>
                && timeRemaining == old(timeRemaining) - 1
                && timer.text == FormatClock(timeRemaining) && timer.style == StyleFor(timeRemaining)
                && timer.containerDanger == (old(timer.containerDanger) || timeRemaining <= 30)
                && (timeRemaining <= 0 ==>
                      !isRunning &&
                      ending == Some(Ending(Terminated, TimeoutReason, StatsAt(timeRemaining, messageCount, ai.personality.value))))
                && (timeRemaining > 0 ==> isRunning && ending == old(ending))
      ensures !(old(isRunning) && !old(isPaused)) ==>
                && timeRemaining == old(timeRemaining) && isRunning == old(isRunning) && ending == old(ending)
                && timer.text == old(timer.text) && timer.style == old(timer.style)
                && timer.containerDanger == old(timer.containerDanger)
    {
      if !isPaused && isRunning {
        timeRemaining := timeRemaining - 1;
        timer.UpdateTimer(timeRemaining);
        if timeRemaining <= 0 {
          EndGame(Terminated, TimeoutReason);
        }
      }
    }

    /** The score rules, applied after an exchange whose reply carried no
        judgment phrase. */
    method CheckGameConditions()
      requires ai.personality.Some?
      modifies this
      ensures isPaused == old(isPaused) && score == old(score) && timeRemaining == old(timeRemaining)
      ensures messageCount == old(messageCount)
      ensures ThresholdVerdict(score, messageCount).None? ==> isRunning == old(isRunning) && ending == old(ending)
      ensures var v := ThresholdVerdict(score, messageCount);
              v.Some? ==>
                !isRunning &&
                ending == Some(Ending(v.value.outcome, v.value.reason, StatsAt(timeRemaining, messageCount, ai.personality.value)))
    {
      if score <= TerminationThreshold {
        EndGame(Terminated, LowScoreReason);
        return;
      }
      if score >= ReleaseThreshold && messageCount >= ReleaseMinMessages {
        EndGame(Released, HighScoreReason);
        return;
      }
    }

    /** The part of an exchange after the reply: the contradiction penalty, the
        quality change, then the judgment phrases and the score rules. */
    method ConcludeTurn(input: string, aiResponse: Reply)
      requires ai.personality.Some?
      modifies this
      ensures isPaused == old(isPaused) && timeRemaining == old(timeRemaining) && messageCount == old(messageCount)
      ensures score == TurnScore(old(score), aiResponse.hasContradiction, QualityDelta(ai.personality.value, input))
      ensures var v := TurnVerdict(aiResponse.message, score, messageCount);
              && (v.None? ==> isRunning == old(isRunning) && ending == old(ending))
              && (v.Some? ==>
                    !isRunning &&
                    ending == Some(Ending(v.value.outcome, v.value.reason, StatsAt(timeRemaining, messageCount, ai.personality.value))))
    {
      if aiResponse.hasContradiction {
        AdjustScore(ContradictionPenalty);
      }
      var scoreDelta := ai.EvaluateScore(input);
      AdjustScore(scoreDelta);
      if Contains(aiResponse.message, TerminatedMarker) {
        EndGame(Terminated, aiResponse.message);
        return;
      }
      if Contains(aiResponse.message, ReleaseMarker) {
        EndGame(Released, aiResponse.message);
        return;
      }
      CheckGameConditions();
    }

    /** An accepted message, once counted: the judge's reply, then the score
        changes and the verdict. */
    method Exchange(input: string, generate: string -> Option<string>, roll: bool, pick: nat)
        returns (aiResponse: Reply)
      requires Valid() && isRunning && pick < 5
      modifies this, ai
      ensures Valid()
      ensures isPaused == old(isPaused) && timeRemaining == old(timeRemaining) && messageCount == old(messageCount)
      ensures ai.personality == old(ai.personality)
      ensures var p := ai.personality.value;
              && ai.memoryArray == old(ai.memoryArray) + [input]
              && aiResponse.details == Detect(ai.memoryArray, input)
              && (aiResponse.hasContradiction <==> aiResponse.details.Some?)
              && ai.conversationHistory ==
                   old(ai.conversationHistory) + [Turn(User, input)] + [Turn(Assistant, aiResponse.message)]
              && score == TurnScore(old(score), aiResponse.hasContradiction, QualityDelta(p, input))
              && var v := TurnVerdict(aiResponse.message, score, messageCount);
                 && (v.None? ==> isRunning && ending == old(ending))
                 && (v.Some? ==>
                       !isRunning &&
                       ending == Some(Ending(v.value.outcome, v.value.reason, StatsAt(timeRemaining, messageCount, p))))
      ensures var answer := generate(BuildPrompt(old(ai.conversationHistory) + [Turn(User, input)],
                                                 Pressure(timeRemaining), aiResponse.details));
              var remote := old(ai.ollamaAvailable) && answer.Some?;
              && ai.ollamaAvailable == remote
              && aiResponse.message == if remote then Trim(answer.value)
                                       else FallbackReply(ai.personality.value, Pressure(timeRemaining), aiResponse.details, roll, pick)
    {
      var pressureLevel := Pressure(timeRemaining);
      aiResponse := ai.GenerateResponse(input, pressureLevel, generate, roll, pick);
      ConcludeTurn(input, aiResponse);
    }

    /** One submitted message. `raw` is the input box's text; `generate`, `roll`
        and `pick` are passed to the judge; `crash` stands for the judge call
        throwing before it changes anything. Returns the judge's reply, or None
        when the input was ignored or the call failed. */
    method HandleUserInput(raw: string, generate: string -> Option<string>, roll: bool, pick: nat, crash: bool)
        returns (reply: Option<Reply>)
      requires Valid() && pick < 5
      modifies this, ai
      ensures Valid()
      ensures isPaused == old(isPaused) && timeRemaining == old(timeRemaining)
      ensures ai.personality == old(ai.personality)
      ensures Trim(raw) == [] || !old(isRunning) || crash ==>
                && reply.None? && score == old(score) && isRunning == old(isRunning) && ending == old(ending)
                && ai.memoryArray == old(ai.memoryArray) && ai.conversationHistory == old(ai.conversationHistory)
                && ai.ollamaAvailable == old(ai.ollamaAvailable)
      ensures Trim(raw) == [] || !old(isRunning) ==> messageCount == old(messageCount)
      ensures Trim(raw) != [] && old(isRunning) ==> messageCount == old(messageCount) + 1
      ensures Trim(raw) != [] && old(isRunning) && !crash ==>
                var input := Trim(raw);
                var p := ai.personality.value;
                && reply.Some?
                && ai.memoryArray == old(ai.memoryArray) + [input]
                && reply.value.details == Detect(ai.memoryArray, input)
                && (reply.value.hasContradiction <==> reply.value.details.Some?)
                && ai.conversationHistory ==
                     old(ai.conversationHistory) + [Turn(User, input)] + [Turn(Assistant, reply.value.message)]
                && (var answer := generate(BuildPrompt(old(ai.conversationHistory) + [Turn(User, input)],
                                                       Pressure(timeRemaining), reply.value.details));
                    var remote := old(ai.ollamaAvailable) && answer.Some?;
                    && ai.ollamaAvailable == remote
                    && reply.value.message == if remote then Trim(answer.value)
                                              else FallbackReply(p, Pressure(timeRemaining), reply.value.details, roll, pick))
                && score == TurnScore(old(score), reply.value.hasContradiction, QualityDelta(p, input))
                && var v := TurnVerdict(reply.value.message, score, messageCount);
                   && (v.None? ==> isRunning && ending == old(ending))
                   && (v.Some? ==>
                         !isRunning &&
                         ending == Some(Ending(v.value.outcome, v.value.reason, StatsAt(timeRemaining, messageCount, p))))
    {
      var input := Trim(raw);
      if input == [] || !isRunning {
        return None;
      }
      messageCount := messageCount + 1;
      if crash {
        return None;
      }
      var aiResponse := Exchange(input, generate, roll, pick);
      reply := Some(aiResponse);
    }

    /** Back to the initial state, with the countdown display and the judge
        cleared, then a new start. */
    method Reset(pick: nat, probe: bool, openingPick: nat) returns (opening: string)
      requires Valid() && pick < PersonaCount && openingPick < OpeningCount
      modifies this, ai, timer
      ensures Valid()
      ensures isRunning && !isPaused && score == InitialScore && timeRemaining == InitialTime
      ensures messageCount == 0 && ending.None?
      ensures timer.text == FormatClock(InitialTime) && timer.style == Plain && !timer.containerDanger
      ensures ai.memoryArray == [] && ai.conversationHistory == [Turn(System, Directive(PersonaAt(pick)))]
      ensures ai.personality == Some(PersonaAt(pick)) && ai.ollamaAvailable == probe
      ensures opening == Opening(openingPick)
    {
      isRunning := false;
      isPaused := false;
      score := InitialScore;
      timeRemaining := InitialTime;
      messageCount := 0;
      ending := None;
      timer.UpdateTimer(InitialTime);
      timer.ClearContainerDanger();
      ai.Reset();
      opening := Start(pick, probe, openingPick);
    }
  }
}
