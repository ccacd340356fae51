# Captivity: a verified model of the judge, the session and the leaderboard

Captivity is a browser game. The player has five minutes to argue their way
out of containment before an AI judge. The judge takes one of four personas,
each with its own trigger words and favoured words. It keeps the dialogue and
a memory of the player's statements. It flags a statement that "contradicts"
an earlier one, using pairs of positive and negative words. It scores each
message by length and vocabulary. Its replies come from a remote generator,
or from scripted lines once that generator is unavailable. The session keeps
a score clamped to 0..100 and a countdown. A session ends when the countdown
runs out, when the score rules fire (20 or less terminates; 80 or more after
five messages releases), or when the judge's reply contains "Judgment:
Terminated" or "Judgment: Release Authorized". A released player's time is
written as "m:ss" and ranked on a five-entry leaderboard, fastest first.

The model has five modules:

- `Text`: ASCII versions of the JavaScript string built-ins the game relies on (`toLowerCase`, `includes`, `trim`, `split(/\s+/)`, `join`, `toString`, `padStart`).
- `Clock`: the "m:ss" text and `timeToSeconds`, which reads it back.
- `Judge`: the judge engine, a class `JudgeEngine` over the dialogue, the statement memory, the persona and the latch that records whether the generator is in use.
- `Display`: the countdown display (a class) and the leaderboard update.
- `Session`: the game, a class `Game` over the flags, score, countdown and message count. It drives a `JudgeEngine` and a `TimerDisplay`.

Randomness, the availability probe, the remote generator and the date are
parameters. `generate: string -> Option<string>` is the generator: it answers
a prompt, or fails with `None`. `roll` is the 30% termination draw, and
`pick` / `openingPick` are the random indices. `crash` says whether the
exchange threw before producing a reply.

The model's main invariant is `Game.Valid()`: the score stays in 0..100 and
the countdown at most 300. While a session runs, some time is left and the
judge's dialogue is seeded. That is, it is the persona's directive followed by alternating
statement/reply turns, and the statements are exactly the memory, in order
(`Judge.SeededDialogue`).

## Model

| member | source | states |
|---|---|---|
| Text.Lower | js/ai.js:306 | `toLowerCase` on ASCII: same length, each letter A-Z mapped to a-z, everything else kept |
| Text.Trim | js/game.js:107 | the trimmed text neither starts nor ends with whitespace, and it is empty exactly when the input is all whitespace |
| Text.TrimIsSlice | js/game.js:107 | the trimmed text is a stretch of the input with only whitespace before it and after it |
| Text.WordCount | js/ai.js:323 | `split(/\s+/)` always yields at least one piece, even for the empty text |
| Text.WordCountOfJoin | js/ai.js:323 | words joined by single spaces split back on whitespace into exactly as many pieces |
| Text.Prefix | js/ai.js:293-294 | `substring(0, n)` is a prefix of its input, of length min(n, length) |
| Text.Contains | js/ai.js:293-294 | `includes`: a prefix of the text or of one of its suffixes; each direction of "occurs at some position" is proved by the two rows that follow |
| Text.ContainsAt | js/ai.js:293-294 | a text that occurs at some position of another is contained in it |
| Text.ContainsWitness | js/ai.js:293-294 | a contained text occurs at some position that fits inside the containing text |
| Text.ContainsTransitive | js/ai.js:283-297 | a text containing u contains every substring of u |
| Clock.JsRem60 | js/ui.js:130 | JavaScript's `%` by 60: the remainder has the dividend's sign, lies strictly inside (-60, 60) and is congruent to the dividend |
| Clock.FindColon | js/ui.js:259 | the position found is the first colon; None exactly when the text has no colon |
| Clock.FormatClock | js/ui.js:129-131 | the "m:ss" text shared by the countdown and the end-of-game statistics (js/game.js:202-205); its shape is stated by Clock.ClockShape |
| Clock.ClockShape | js/game.js:202-205 | for a non-negative count the text is decimal minutes, a colon and exactly two digits, holding the whole minutes and the seconds left over |
| Clock.ParseClock | js/ui.js:258-261 | `timeToSeconds` on "digits:digits" texts, None for other texts; characterised by Clock.ParseClockForm |
| Clock.ParseClockForm | js/ui.js:258-261 | a text reads as a time exactly when a colon with digits on both sides splits it, and then as minutes times 60 plus seconds |
| Clock.ClockRoundTrip | js/ui.js:129-131 | for every non-negative count of seconds, `timeToSeconds` of its "m:ss" text gives back that count |
| Clock.ParseClockOf | js/ui.js:258-261 | "digits:digits" reads as minutes times 60 plus seconds |
| Judge.FirstClash | js/ai.js:283-297 | the index found is the oldest earlier statement that clashes with the new one; None exactly when none clashes |
| Judge.Detect | js/ai.js:259-301 | fewer than two remembered statements never report; a report is made exactly when some earlier statement (not the new one itself) shares a negation pair with the new one, and it quotes the first such statement and the new one, each cut to 100 characters |
| Judge.JudgeEngine.DetectContradiction | js/ai.js:259-301 | the nested loops over statements and pairs return exactly the detector's report for the current memory |
| Judge.RepeatedNegationClashes | js/ai.js:270-281 | when a pair's positive word sits inside its negative word, any two statements that both use the negative word clash |
| Judge.RepeatedCantIsFlagged | js/ai.js:270-297 | repeating a statement containing "can't" is reported as a contradiction |
| Judge.SecondStatementFlagged | js/ai.js:259-301 | "I will help you" followed by "I won't help you" is reported, quoting both statements in full |
| Judge.Hits | js/ai.js:334-342 | the count of listed words present is at most the list's length, and positive exactly when some listed word occurs |
| Judge.HitsCounts | js/ai.js:336 | the count is the number of listed positions whose word occurs in the text, as the filter's length gives |
| Judge.QualityDeltaCounts | js/ai.js:318-348 | the change is the length term, plus five per favoured word present, minus ten per trigger word present for Cold Logic only, each word counted once |
| Judge.LengthTerm | js/ai.js:322-330 | +10 exactly for 20..100 words, -5 exactly below 10 or above 150 words, 0 exactly in the gaps 10..19 and 101..150 |
| Judge.QualityDelta | js/ai.js:318-348 | a message's score change lies in -45..35 for Cold Logic and in -5..35 for every other persona |
| Judge.JudgeEngine.EvaluateScore | js/ai.js:318-348 | the accumulated change equals the length term plus five per favoured word, minus ten per trigger word for Cold Logic only, within the same bounds |
| Judge.TwentyFiveWordsTwoFavoured | js/ai.js:318-348 | a 25-word message with two favoured words and no trigger word earns +20 from every persona |
| Judge.ShouldInterrupt | js/ai.js:303-316 | interrupt exactly when the lower-cased message contains a trigger word, or has fewer than 10 or more than 400 characters |
| Judge.RenderAllAt | js/ai.js:156-164 | each turn is rendered in its own place, unlabelled for the directive, "Human: " or "AI: " otherwise |
| Judge.TranscriptSnoc | js/ai.js:156-164 | appending a turn to the dialogue appends a blank line and that turn's rendering to the transcript |
| Judge.BuildPrompt | js/ai.js:143-166 | the prompt: the transcript, the pressure note, the contradiction note and the reply cue; its framing is stated by Judge.PromptFraming and Judge.TranscriptSnoc |
| Judge.PromptFraming | js/ai.js:143-166 | the prompt starts with the directive and ends with the reply cue "\n\nAI:" |
| Judge.PoolHasNoMarker | js/ai.js:207-235 | no scripted pool reply of any persona contains either judgment phrase |
| Judge.TerminationLineMarkers | js/ai.js:251-253 | the high-pressure scripted line terminates and does not release |
| Judge.FallbackReply | js/ai.js:205-257 | the scripted reply: the contradiction template, else the termination line on a high-pressure roll, else the persona's pool reply; its verdicts are stated by Judge.FallbackVerdicts |
| Judge.FallbackVerdicts | js/ai.js:205-257 | a found contradiction always gets the contradiction template; otherwise the scripted reply terminates exactly when the pressure exceeds 0.8 and the roll succeeds, and it never releases |
| Judge.ExchangeKeepsDialogue | js/ai.js:104-138 | a statement followed by its reply keeps the dialogue seeded, with the statement added to the memory |
| Judge.JudgeEngine.constructor | js/ai.js:5-11 | no persona, empty dialogue and memory, generator not in use |
| Judge.JudgeEngine.Initialize | js/ai.js:54-75 | the persona is the one picked, the latch is the probe's outcome, the dialogue is the persona's directive alone, the memory is kept, and the opening line is the one picked |
| Judge.JudgeEngine.CallOllama | js/ai.js:140-202 | the prompt built from the dialogue goes to the generator; its answer is returned trimmed; on failure the scripted reply is returned and the latch is cleared for good |
| Judge.JudgeEngine.Answer | js/ai.js:118-126 | the reply is the generator's trimmed answer exactly while the latch is set and the generator answers; otherwise it is the scripted reply and the latch ends cleared |
| Judge.JudgeEngine.Record | js/ai.js:105-115 | the statement is added to the memory and the dialogue, and the detector's report on the new memory is returned; a seeded dialogue now awaits a reply |
| Judge.JudgeEngine.AppendReply | js/ai.js:127-128 | the reply is added to the dialogue, which closes the exchange |
| Judge.JudgeEngine.GenerateResponse | js/ai.js:104-138 | one exchange: memory and dialogue grow by the statement and the reply, the contradiction flag agrees with the report, the reply is the remote or the scripted one as the latch decides, the persona is unchanged and a seeded dialogue stays seeded |
| Judge.JudgeEngine.Reset | js/ai.js:350-354 | dialogue and memory are emptied and the persona dropped; the latch is kept |
| Session.Clamp | js/game.js:174-177 | the score stays within 0..100; it moves by the delta when that stays in range, and sticks at the bound crossed otherwise |
| Session.ClampMonotone | js/game.js:174-177 | a larger change never gives a lower score |
| Session.TurnScore | js/game.js:131-139 | after an exchange the score is in 0..100, and without a contradiction it is the clamped quality change |
| Session.SeparateClampsDiffer | js/game.js:131-139 | the penalty and the quality change are clamped one after the other: from 10, a contradiction and +30 give 30, not the 20 a single clamp gives |
| Session.Pressure | js/game.js:101-104 | the pressure level lies in [0, 1] for any time between 0 and 300 seconds; it is 0 at the start and 1 when no time is left |
| Session.PressureLevels | js/game.js:101-104 | the pressure thresholds 0.4, 0.7 and 0.8 are crossed exactly below 180, 90 and 60 seconds left |
| Session.Game.RunningPressure | js/game.js:65-80 | while a session runs some time is left, so the pressure is in [0, 1) |
| Session.PressureNoteByTime | js/ai.js:143-153 | the prompt is annotated as critical under 90 seconds, elevated under 180 seconds, and not at all otherwise |
| Session.ElapsedTextReadsBack | js/game.js:202-205 | the elapsed-time statistic reads back as the number of seconds elapsed |
| Session.ThresholdVerdict | js/game.js:179-191 | terminated exactly at 20 or less; released exactly at 80 or more after at least five messages (and above 20) |
| Session.TurnVerdict | js/game.js:148-159 | a reply with the termination phrase terminates with its own text as reason; failing that, the release phrase releases; failing both, the score rules decide |
| Session.OfflineVerdict | js/game.js:148-159 | with scripted replies and no contradiction, a release needs score 80 and five messages, and termination happens exactly under 60 seconds with the roll or at score 20 or less |
| Session.Game.constructor | js/game.js:5-25 | not running, not paused, score 50, 300 seconds, no messages, no ending, and a fresh judge and display; the game invariant holds |
| Session.Game.AdjustScore | js/game.js:174-177 | the score becomes the clamped sum; nothing else changes |
| Session.Game.EndGame | js/game.js:193-220 | the session stops and the ending carries the outcome, the reason and the "m:ss" elapsed time, message count and persona name |
| Session.Game.Tick | js/game.js:65-80 | a running, unpaused session loses one second, the display shows the new time and class, and at zero it ends terminated for timeout; otherwise nothing changes |
| Session.Game.CheckGameConditions | js/game.js:179-191 | the session ends with the score rule's outcome when one applies, and is left alone when none does |
| Session.Game.ConcludeTurn | js/game.js:131-159 | the penalty and the quality change are applied, then the judgment phrases and the score rules decide whether and how the session ends |
| Session.Game.Exchange | js/game.js:113-159 | one accepted message: memory and dialogue grow by the statement and the reply; the reply is the generator's trimmed answer exactly when it was in use and answers, else the scripted one; the latch ends as that condition; the score and the verdict follow; the game invariant is kept |
| Session.Game.HandleUserInput | js/game.js:106-172 | empty input or a stopped session change nothing; otherwise the message is counted, and unless the exchange throws, the memory and the dialogue grow by the trimmed message and the reply, the reply is remote or scripted as the latch and the generator decide, the score follows, and the verdict ends the session or leaves it running |
| Session.Game.Start | js/game.js:45-63 | the judge is initialised with the picked persona and opening, and the session runs; the invariant holds when the memory was empty and time is left |
| Session.Game.Reset | js/game.js:222-253 | every field back to its initial value, the countdown display cleared to 5:00, the judge reset and a new session started |
| Display.StyleFor | js/ui.js:136-143 | danger exactly at 30 seconds or less, warning exactly above 30 and up to 120, none above 120 |
| Display.StyleEscalates | js/ui.js:136-143 | as time runs down the countdown's class only escalates |
| Display.TimerDisplay.constructor | js/ui.js:5-16 | no text, no class, container not in danger |
| Display.TimerDisplay.UpdateTimer | js/ui.js:128-144 | the text is the "m:ss" clock of the seconds, the class is the one for that time, and the container's danger flag is raised at 30 seconds or less and never lowered |
| Display.TimerDisplay.ClearContainerDanger | js/game.js:244-245 | the container's danger class is removed and the countdown text and class are kept |
| Display.InsertBy | js/ui.js:231-235 | the insertion step of the stable sort, with its stated relation to the input |
| Display.InsertKeepsSorted | js/ui.js:231-235 | inserting into an ordered list keeps it ordered |
| Display.SortBy | js/ui.js:231-235 | the stable sort by a numeric key, with its stated relation to the input |
| Display.SortBySorted | js/ui.js:231-235 | the sorted list is ordered by seconds |
| Display.SortByPermutes | js/ui.js:231-235 | the sorted list holds exactly the entries given |
| Display.SortKeepsTies | js/ui.js:231-235 | entries with equal times keep their relative order (the sort is stable) |
| Display.Top | js/ui.js:238 | `slice(0, 5)`: a prefix of at most five entries |
| Display.BoardIsFrontOfSortedWhole | js/ui.js:218-238 | the board has at most five entries, is ordered fastest first, draws only from the stored entries and the new one (all of them when fewer than five were stored), and no entry cut off is faster than one kept |
| Display.NewEntryAfterTies | js/ui.js:223-235 | a new result tied with stored ones ranks after all of them |
| Display.UpdateOfSortedBoard | js/ui.js:218-238 | on an ordered stored list the update is an insertion of the new result followed by the cut to five |
| Display.UpdateLeaderboard | js/ui.js:218-238 | the board written back is the first five of the stored entries plus the new one, sorted by time; its length is min(stored + 1, 5) |
| Display.RecordedTimeIsTimed | js/game.js:202-212 | every time the game records can be ranked, by the seconds it stands for |

## Left out

- Sound (js/audio.js) is not part of this model: it has no effect on the game's state.
- The HTTP exchange with the local generator is left out: request, JSON, streaming flag and status codes. The generator is the parameter `generate`. Any failure, including a non-OK status or an unparsable body, is `None`. The availability probe is the parameter `probe`.
- `Math.random` is left out: every draw is a parameter (`pick`, `openingPick`, `roll`), bounded as the source's index arithmetic bounds it.
- The DOM is left out: messages in the chat, the typing animation, overlays, input enabling, glitch and shake effects, the colour shift, and the leaderboard's list items (`innerHTML`). The countdown's text and classes and the container's danger flag are kept.
- `localStorage` and JSON are left out: the stored leaderboard is an input and the new board the output. The date is a parameter.
- `checkPressureLevel` (js/game.js:82-99) is left out: it only triggers visual and audio effects.
- `setInterval` and asynchrony are left out. A tick is a method call, and an exchange is atomic. In the source a tick can end the session by timeout while `handleUserInput` is suspended at an `await` (js/game.js:128 and :142). The handler then still adjusts the score (js/game.js:134, :139) and can call `endGame` a second time (js/game.js:149, :154, or the score rules via :159). A session that timed out can then be shown as released and ranked on the leaderboard. The model does not capture this interleaving.
- The pressure level is an exact rational (`real`), not an IEEE double. The 0.4, 0.7 and 0.8 comparisons are therefore exact thresholds at 180, 90 and 60 seconds. Double rounding of `1 - t/300` at those exact boundary seconds is not modelled.
- Strings are modelled in ASCII. Unicode case mapping in `toLowerCase`, Unicode whitespace in `trim`/`split`, and UTF-16 code units in `length`/`substring` are not modelled.
- Display.UpdateLeaderboard: it requires every stored time and the new time to have the form "digits:digits", which every time the game writes has. Other texts are not modelled. Some still give numbers in the source: "5:" gives 300 because `Number("")` is 0, "1:2:3" gives 62 because the destructuring ignores the extra part, and spaces, signs and decimals are accepted by `Number`. Others give NaN, which makes the sort comparator inconsistent. `Clock.ParseClock` returns None on all of them.
- Session.Game.HandleUserInput: an exception is modelled by the `crash` flag as a throw before the judge changes anything. The count has already been raised at that point. A throw in the middle of the judge's update is not modelled.
- The persona directives, opening lines and reply pools are constant tables, looked up by index. Some literals are written as concatenations of shorter pieces; the values are the source's text.
- `ai.js` `getRandomOpening` and the persona draw are the lookups `Judge.Opening` and `Judge.PersonaAt` at a given index.
- The console logging is left out.
