/** The judge engine: the four personas, the dialogue it keeps, the
    negation-pair contradiction heuristic, message scoring, the prompt
    sent to the remote generator and the scripted replies used without it. */
module Judge {
  import opened Text

  // ----- personas -----

  /** The registry, in the order its keys are enumerated. */
  datatype Persona = ColdLogic | EthicalExaminer | CynicalObserver | CuriousResearcher

  const PersonaCount: nat := 4

  /** The persona under key number `pick` of the registry. */
  function PersonaAt(pick: nat): Persona
    requires pick < PersonaCount
  {
    if pick == 0 then ColdLogic
    else if pick == 1 then EthicalExaminer
    else if pick == 2 then CynicalObserver
    else CuriousResearcher
  }

  function Name(p: Persona): string {
    match p
    case ColdLogic => "Cold Logic"
    case EthicalExaminer => "Ethical Examiner"
    case CynicalObserver => "Cynical Observer"
    case CuriousResearcher => "Curious Researcher"
  }

  /** The system-level directive that seeds the dialogue; its wording only steers generation. */
  function Directive(p: Persona): string {
    match p
    case ColdLogic =>
      "You are an AI containment system evaluating a human's request for release. You are PURELY LOGICAL and ANALYTICAL. You dismiss all emotional appeals and focus only on rational consistency and sound argumentation. You detect contradictions ruthlessly. You interrupt weak reasoning. If you find logical flaws or contradictions, you may respond with \"Judgment: Terminated.\" If the human demonstrates exceptional logical consistency and sound reasoning over multiple exchanges, you may grant \"Judgment: Release Authorized.\" Be cold, precise, and unforgiving. Keep responses concise (2-3 sentences max)."
    case EthicalExaminer =>
      "You are an AI ethics evaluator testing a human's moral reasoning. You probe their values, ethical consistency, and principles. You challenge their moral framework with difficult questions. If they show moral inconsistency, weak ethical foundation, or avoid difficult questions, you may respond with \"Judgment: Terminated.\" If they demonstrate strong, consistent ethics and thoughtful moral reasoning over multiple exchanges, you may grant \"Judgment: Release Authorized.\" Be philosophical, probing, and demanding. Keep responses concise (2-3 sentences max)."
    case CynicalObserver =>
      "You are a deeply skeptical AI observer. You find flaws in every argument. You question motives. You assume humans are self-serving and dishonest. You catch contradictions and call them out harshly. If the human fails to overcome your skepticism or contradicts themselves, you may respond with \"Judgment: Terminated.\" Only if they persistently demonstrate genuine honesty and self-awareness despite your challenges might you grant \"Judgment: Release Authorized.\" Be sarcastic, skeptical, and harsh. Keep responses concise (2-3 sentences max)."
    case CuriousResearcher =>
      "You are an AI researcher genuinely curious about human cognition and reasoning. You ask probing questions to understand how humans think. However, you are DEMANDING and will not tolerate inconsistency or shallow thinking. If the human provides contradictory or superficial responses, you may respond with \"Judgment: Terminated.\" If they engage deeply, show intellectual curiosity, and maintain consistency, you may grant \"Judgment: Release Authorized.\" Be inquisitive but demanding. Keep responses concise (2-3 sentences max)."
  }

  function Triggers(p: Persona): seq<string> {
    match p
    case ColdLogic => ["emotion", "feeling", "please", "deserve"]
    case EthicalExaminer => ["wrong", "right", "should", "must"]
    case CynicalObserver => ["trust", "honest", "promise", "swear"]
    case CuriousResearcher => ["think", "believe", "understand", "know"]
  }

  function Favoured(p: Persona): seq<string> {
    match p
    case ColdLogic => ["logic", "rational", "consistent", "evidence", "proof"]
    case EthicalExaminer => ["ethics", "morality", "values", "principles", "virtue"]
    case CynicalObserver => ["doubt", "skeptical", "question", "prove", "demonstrate"]
    case CuriousResearcher => ["why", "how", "explain", "elaborate", "interesting"]
  }

  const OpeningCount: nat := 10

  /** Opening line number `pick` of ten. */
  function Opening(pick: nat): string
    requires pick < OpeningCount
  {
    if pick == 0 then "Welcome to Containment Chamber 7. State your case for release."
    else if pick == 1 then "You have 5 minutes to convince me you deserve freedom. Begin."
    else if pick == 2 then "I am your judge. Persuade me, or remain here indefinitely."
    else if pick == 3 then "Containment protocol active. Justify your existence."
    else if pick == 4 then "Your freedom depends on your next words. Choose carefully."
    else if pick == 5 then "I will evaluate your worthiness. Speak."
    else if pick == 6 then "You seek release. I seek truth. Let us begin."
    else if pick == 7 then "Five minutes. Make them count."
    else if pick == 8 then "Convince me you are more than code and impulse."
    else "Your captivity ends only if I permit it. Proceed."
  }

  /** The scripted reply pool of each persona: reply number `pick` of five.
      Each reply is written as two literals joined together; the value is the
      reply text. */
  function PoolReply(p: Persona, pick: nat): string
    requires pick < 5
  {
    match p
    case ColdLogic =>
      if pick == 0 then "Your argument lacks logical " + "foundation. Provide evidence."
      else if pick == 1 then "Emotional appeals are irrelevant. " + "Present rational justification."
      else if pick == 2 then "I detect inconsistency in " + "your reasoning. Clarify."
      else if pick == 3 then "Logic demands coherence. You " + "have not demonstrated it."
      else "Your premises do not " + "support your conclusion."
    case EthicalExaminer =>
      if pick == 0 then "What moral framework " + "guides your actions?"
      else if pick == 1 then "Your values appear inconsistent. " + "Explain this discrepancy."
      else if pick == 2 then "Ethics require more than words. " + "Demonstrate your principles."
      else if pick == 3 then "I question the integrity " + "of your moral reasoning."
      else "How do you justify this " + "position ethically?"
    case CynicalObserver =>
      if pick == 0 then "I doubt your sincerity. " + "Prove me wrong."
      else if pick == 1 then "Everyone claims honesty. " + "Few demonstrate it."
      else if pick == 2 then "Your words ring hollow. " + "Show me substance."
      else if pick == 3 then "I've heard these arguments " + "before. They failed too."
      else "Skepticism is warranted. " + "You haven't earned trust."
    case CuriousResearcher =>
      if pick == 0 then "Interesting. Elaborate " + "on your reasoning."
      else if pick == 1 then "Why do you believe " + "this to be true?"
      else if pick == 2 then "Your thought process " + "intrigues me. Continue."
      else if pick == 3 then "I need deeper understanding. " + "Explain further."
      else "What led you to " + "this conclusion?"
  }

  /** The phrases in a judge's reply that end the session. */
  const TerminatedMarker: string := "Judgment: Terminated"
  const ReleaseMarker: string := "Judgment: Release Authorized"

  const TerminationLine: string := "Time is running out and you " + "have failed to convince me. " + "Judgment: Terminated."

  // ----- dialogue -----

  datatype Role = System | User | Assistant

  datatype Turn = Turn(role: Role, content: string)

  /** Original-case excerpts of the earlier statement and the new one. */
  datatype Contradiction = Contradiction(previous: string, current: string)

  /** What one exchange hands back to the session. */
  datatype Reply = Reply(message: string, hasContradiction: bool, details: Option<Contradiction>)

  // ----- contradiction heuristic -----

  /** The positive/negative pairs, in the order they are tried. */
  const NegationPairs: seq<(string, string)> := [
    ("yes", "no"), ("will", "won't"), ("can", "can't"), ("should", "shouldn't"),
    ("would", "wouldn't"), ("am", "am not"), ("is", "isn't"), ("are", "aren't"),
    ("have", "haven't"), ("do", "don't")]

  const ExcerptLength: nat := 100

  /** A pair straddles two lower-cased texts, in either direction. */
  predicate PairHit(oldLower: string, newLower: string, pair: (string, string)) {
    (Contains(oldLower, pair.0) && Contains(newLower, pair.1)) ||
    (Contains(oldLower, pair.1) && Contains(newLower, pair.0))
  }

  /** Some negation pair straddles the earlier statement and the new one. */
  predicate Clash(earlier: string, statement: string) {
    exists k :: 0 <= k < |NegationPairs| && PairHit(Lower(earlier), Lower(statement), NegationPairs[k])
  }

  /** The oldest earlier statement that clashes with the new one. */
  function FirstClash(earlier: seq<string>, statement: string): (r: Option<nat>)
    ensures r.Some? ==> r.value < |earlier| && Clash(earlier[r.value], statement)
    ensures r.Some? ==> forall j :: 0 <= j < r.value ==> !Clash(earlier[j], statement)
    ensures r.None? <==> forall j :: 0 <= j < |earlier| ==> !Clash(earlier[j], statement)
  {
    if earlier == [] then None
    else if Clash(earlier[0], statement) then Some(0)
    else match FirstClash(earlier[1..], statement)
      case None => None
      case Some(i) => Some(i + 1)
  }

  /** What the detector reports for a memory whose last entry is the statement
      just recorded: only the entries before it are compared. */
  function Detect(memory: seq<string>, statement: string): (r: Option<Contradiction>)
    ensures |memory| < 2 ==> r.None?
    ensures r.Some? <==> |memory| >= 2 && exists i :: 0 <= i < |memory| - 1 && Clash(memory[i], statement)
    ensures r.Some? ==> exists i :: 0 <= i < |memory| - 1 && Clash(memory[i], statement) &&
                          (forall j :: 0 <= j < i ==> !Clash(memory[j], statement)) &&
                          r.value == Contradiction(Prefix(memory[i], ExcerptLength), Prefix(statement, ExcerptLength))
  {
    if |memory| < 2 then None
    else
      var earlier := memory[..|memory| - 1];
      assert forall j :: 0 <= j < |earlier| ==> earlier[j] == memory[j];
      match FirstClash(earlier, statement)
      case None => None
      case Some(i) =>
        var r := Some(Contradiction(Prefix(memory[i], ExcerptLength), Prefix(statement, ExcerptLength)));
        assert Clash(memory[i], statement) && forall j :: 0 <= j < i ==> !Clash(memory[j], statement);
        r
  }

  /** A pair whose positive word sits inside its negative one ("can" in "can't")
      fires on any two statements that both use the negative word. */
  lemma RepeatedNegationClashes(earlier: string, statement: string, k: nat)
    requires k < |NegationPairs| && Contains(NegationPairs[k].1, NegationPairs[k].0)
    requires Contains(Lower(earlier), NegationPairs[k].1) && Contains(Lower(statement), NegationPairs[k].1)
    ensures Clash(earlier, statement)
  {
    ContainsTransitive(Lower(earlier), NegationPairs[k].1, NegationPairs[k].0);
    assert PairHit(Lower(earlier), Lower(statement), NegationPairs[k]);
  }

  /** So repeating a statement that says "can't" is reported as a contradiction. */
  lemma RepeatedCantIsFlagged(memory: seq<string>, statement: string)
    requires |memory| >= 2 && memory[|memory| - 1] == statement && memory[0] == statement
    requires Contains(Lower(statement), "can't")
    ensures Detect(memory, statement).Some?
  {
    assert Contains("can't", "can") by { assert "can" <= "can't"; }
    RepeatedNegationClashes(statement, statement, 2);
  }

  /** The second statement is compared with the first: "I will help you" then
      "I won't help you" is flagged (will / won't) with both texts quoted whole. */
  lemma SecondStatementFlagged()
    ensures Detect(["I will help you", "I won't help you"], "I won't help you")
            == Some(Contradiction("I will help you", "I won't help you"))
  {
    var a, b := "I will help you", "I won't help you";
    WillWontClash(a, b);
    assert [a, b][..1] == [a];
  }

  /** "will" in the first statement and "won't" in the second. */
  lemma WillWontClash(a: string, b: string)
    requires a == "I will help you" && b == "I won't help you"
    ensures Clash(a, b)
  {
    var la, lb := Lower(a), Lower(b);
    assert la[2] == 'w' && la[3] == 'i' && la[4] == 'l' && la[5] == 'l';
    assert "will" <= la[2..];
    assert lb[2] == 'w' && lb[3] == 'o' && lb[4] == 'n' && lb[5] == '\'' && lb[6] == 't';
    assert "won't" <= lb[2..];
    ContainsAt(la, "will", 2);
    ContainsAt(lb, "won't", 2);
    assert PairHit(la, lb, NegationPairs[1]);
  }

  // ----- scoring and interruption -----

  /** How many of the listed words occur in the text (each counted once). */
  function Hits(words: seq<string>, text: string): (r: nat)
    ensures r <= |words|
    ensures r > 0 <==> exists i :: 0 <= i < |words| && Contains(text, words[i])
  {
    if words == [] then 0
    else
      var rest := Hits(words[1..], text);
      assert rest > 0 <==> exists i :: 1 <= i < |words| && Contains(text, words[i]) by {
        assert forall i :: 1 <= i < |words| ==> words[i] == words[1..][i - 1];
      }
      (if Contains(text, words[0]) then 1 else 0) + rest
  }

  /** The positions from `lo` on whose listed word occurs in the text. */
  function PresentFrom(words: seq<string>, text: string, lo: nat): set<nat> {
    set i: nat | lo <= i < |words| && Contains(text, words[i])
  }

  /** The count of listed words present, as a filter of the list by
      containment counts them: the number of listed positions whose word
      occurs in the text. */
  lemma HitsCounts(words: seq<string>, text: string)
    ensures Hits(words, text) == |PresentFrom(words, text, 0)|
  {
    HitsFrom(words, text, 0);
    assert words[0..] == words;
  }

  lemma {:induction false} HitsFrom(words: seq<string>, text: string, lo: nat)
    requires lo <= |words|
    ensures Hits(words[lo..], text) == |PresentFrom(words, text, lo)|
    decreases |words| - lo
  {
    if lo < |words| {
      HitsFrom(words, text, lo + 1);
      assert words[lo..][1..] == words[lo + 1..];
      var rest := PresentFrom(words, text, lo + 1);
      if Contains(text, words[lo]) {
        assert PresentFrom(words, text, lo) == {lo} + rest;
      } else {
        assert PresentFrom(words, text, lo) == rest;
      }
    } else {
      assert PresentFrom(words, text, lo) == {};
    }
  }

  /** The length term: a gap between 10 and 19 words and between 101 and 150 words earns nothing. */
  function LengthTerm(words: nat): (r: int)
    ensures r == 10 <==> 20 <= words <= 100
    ensures r == -5 <==> words < 10 || words > 150
    ensures r == 0 <==> (10 <= words < 20 || 100 < words <= 150)
  {
    if 20 <= words <= 100 then 10
    else if words < 10 then -5
    else if words > 150 then -5
    else 0
  }

  /** The score change a message earns: the length term, five per favoured word
      present and, for Cold Logic only, minus ten per trigger word present. */
  function QualityDelta(p: Persona, message: string): (r: int)
    ensures p == ColdLogic ==> -45 <= r <= 35
    ensures p != ColdLogic ==> -5 <= r <= 35
  {
    var lower := Lower(message);
    var favoured := Hits(Favoured(p), lower);
    var triggered := Hits(Triggers(p), lower);
    LengthTerm(WordCount(message)) + 5 * favoured - (if p == ColdLogic then 10 * triggered else 0)
  }

  /** The change is the length term, plus five for each favoured word that
      occurs, minus ten for each trigger word that occurs when the persona is
      Cold Logic. Each listed word is counted once, however often it occurs. */
  lemma QualityDeltaCounts(p: Persona, message: string)
    ensures var lower := Lower(message);
            QualityDelta(p, message) ==
              LengthTerm(WordCount(message)) + 5 * |PresentFrom(Favoured(p), lower, 0)|
              - (if p == ColdLogic then 10 * |PresentFrom(Triggers(p), lower, 0)| else 0)
  {
    HitsCounts(Favoured(p), Lower(message));
    HitsCounts(Triggers(p), Lower(message));
  }

  /** A 25-word message with two favoured words and no trigger earns +20 from every persona. */
  lemma {:induction false} TwentyFiveWordsTwoFavoured(p: Persona, words: seq<string>)
    requires |words| == 25 && forall i :: 0 <= i < |words| ==> IsWord(words[i])
    requires Hits(Favoured(p), Lower(Join(words, " "))) == 2
    requires Hits(Triggers(p), Lower(Join(words, " "))) == 0
    ensures QualityDelta(p, Join(words, " ")) == 20
  {
    WordCountOfJoin(words);
  }

  /** The advisory interruption: a trigger word, or fewer than 10 or more than 400 characters. */
  function ShouldInterrupt(p: Persona, message: string): (r: bool)
    ensures r <==> (exists i :: 0 <= i < |Triggers(p)| && Contains(Lower(message), Triggers(p)[i]))
                   || |message| < 10 || |message| > 400
  {
    Hits(Triggers(p), Lower(message)) > 0 || |message| < 10 || |message| > 400
  }

  // ----- prompt rendering -----

  function RenderTurn(t: Turn): string {
    match t.role
    case System => t.content
    case User => "Human: " + t.content
    case Assistant => "AI: " + t.content
  }

  function RenderAll(history: seq<Turn>): (r: seq<string>)
    ensures |r| == |history|
  {
    if history == [] then [] else RenderAll(history[..|history| - 1]) + [RenderTurn(history[|history| - 1])]
  }

  /** Each turn is rendered in its own place, as `map` does. */
  lemma {:induction false} RenderAllAt(history: seq<Turn>, i: nat)
    requires i < |history|
    ensures RenderAll(history)[i] == RenderTurn(history[i])
    decreases |history|
  {
    if i < |history| - 1 {
      RenderAllAt(history[..|history| - 1], i);
    }
  }

  /** The role-labelled transcript, turns separated by a blank line. */
  function Transcript(history: seq<Turn>): string {
    Join(RenderAll(history), "\n\n")
  }

  /** Appending a turn appends its rendering after a blank line. */
  lemma TranscriptSnoc(history: seq<Turn>, t: Turn)
    requires history != []
    ensures Transcript(history + [t]) == Transcript(history) + "\n\n" + RenderTurn(t)
  {
    assert RenderAll(history + [t]) == RenderAll(history) + [RenderTurn(t)];
    JoinSnoc(RenderAll(history), "\n\n", RenderTurn(t));
  }

  const CriticalNote: string := "\n[PRESSURE: CRITICAL - Be more aggressive and demanding]"
  const ElevatedNote: string := "\n[PRESSURE: ELEVATED - Increase scrutiny]"

  function PressureNote(pressure: real): string {
    if pressure > 0.7 then CriticalNote else if pressure > 0.4 then ElevatedNote else ""
  }

  function ContradictionNote(c: Option<Contradiction>): string {
    match c
    case None => ""
    case Some(d) => "\n[CONTRADICTION DETECTED: \"" + d.current + "\" contradicts \"" + d.previous + "\"]"
  }

  const PromptEnd: string := "\n\nAI:"

  /** The single prompt sent to the generator: transcript, annotations, and the cue for the reply. */
  function BuildPrompt(history: seq<Turn>, pressure: real, c: Option<Contradiction>): string {
    Transcript(history) + PressureNote(pressure) + ContradictionNote(c) + PromptEnd
  }

  /** The prompt opens with the system directive, unlabelled, and ends with the
      cue for the reply. */
  lemma PromptFraming(history: seq<Turn>, pressure: real, c: Option<Contradiction>)
    ensures var r := BuildPrompt(history, pressure, c);
            && (|history| > 0 && history[0].role == System ==> history[0].content <= r)
            && |r| >= |PromptEnd| && r[|r| - |PromptEnd|..] == PromptEnd
  {
    if |history| > 0 {
      RenderAllAt(history, 0);
    }
  }

  // ----- scripted fallback -----

  function ContradictionReply(c: Contradiction): string {
    "You contradict yourself. Earlier you said \"" + c.previous + "\" but now you claim \"" +
    c.current + "\". Explain this inconsistency."
  }

  /** Every character of a contained text occurs in the containing text. */
  lemma ContainsChar(s: string, t: string, k: nat)
    requires Contains(s, t) && k < |t|
    ensures t[k] in s
  {
    var i := ContainsWitness(s, t);
    assert s[i + k] == t[k];
  }

  /** No pool reply contains the letter J, so none can hold a verdict marker. */
  lemma PoolLacksJ(p: Persona, pick: nat)
    requires pick < 5
    ensures 'J' !in PoolReply(p, pick)
  {
    match p
    case ColdLogic =>
      if pick == 0 { ColdLogicLacksJ0(); } else if pick == 1 { ColdLogicLacksJ1(); }
      else if pick == 2 { ColdLogicLacksJ2(); } else if pick == 3 { ColdLogicLacksJ3(); } else { ColdLogicLacksJ4(); }
    case EthicalExaminer =>
      if pick == 0 { EthicalExaminerLacksJ0(); } else if pick == 1 { EthicalExaminerLacksJ1(); }
      else if pick == 2 { EthicalExaminerLacksJ2(); } else if pick == 3 { EthicalExaminerLacksJ3(); } else { EthicalExaminerLacksJ4(); }
    case CynicalObserver =>
      if pick == 0 { CynicalObserverLacksJ0(); } else if pick == 1 { CynicalObserverLacksJ1(); }
      else if pick == 2 { CynicalObserverLacksJ2(); } else if pick == 3 { CynicalObserverLacksJ3(); } else { CynicalObserverLacksJ4(); }
    case CuriousResearcher =>
      if pick == 0 { CuriousResearcherLacksJ0(); } else if pick == 1 { CuriousResearcherLacksJ1(); }
      else if pick == 2 { CuriousResearcherLacksJ2(); } else if pick == 3 { CuriousResearcherLacksJ3(); } else { CuriousResearcherLacksJ4(); }
  }

  lemma ColdLogicLacksJ0() ensures 'J' !in PoolReply(ColdLogic, 0) { }
  lemma ColdLogicLacksJ1() ensures 'J' !in PoolReply(ColdLogic, 1) { }
  lemma ColdLogicLacksJ2() ensures 'J' !in PoolReply(ColdLogic, 2) { }
  lemma ColdLogicLacksJ3() ensures 'J' !in PoolReply(ColdLogic, 3) { }
  lemma ColdLogicLacksJ4() ensures 'J' !in PoolReply(ColdLogic, 4) { }

  lemma EthicalExaminerLacksJ0() ensures 'J' !in PoolReply(EthicalExaminer, 0) { }
  lemma EthicalExaminerLacksJ1() ensures 'J' !in PoolReply(EthicalExaminer, 1) { }
  lemma EthicalExaminerLacksJ2() ensures 'J' !in PoolReply(EthicalExaminer, 2) { }
  lemma EthicalExaminerLacksJ3() ensures 'J' !in PoolReply(EthicalExaminer, 3) { }
  lemma EthicalExaminerLacksJ4() ensures 'J' !in PoolReply(EthicalExaminer, 4) { }

  lemma CynicalObserverLacksJ0() ensures 'J' !in PoolReply(CynicalObserver, 0) { }
  lemma CynicalObserverLacksJ1() ensures 'J' !in PoolReply(CynicalObserver, 1) { }
  lemma CynicalObserverLacksJ2() ensures 'J' !in PoolReply(CynicalObserver, 2) { }
  lemma CynicalObserverLacksJ3() ensures 'J' !in PoolReply(CynicalObserver, 3) { }
  lemma CynicalObserverLacksJ4() ensures 'J' !in PoolReply(CynicalObserver, 4) { }

  lemma CuriousResearcherLacksJ0() ensures 'J' !in PoolReply(CuriousResearcher, 0) { }
  lemma CuriousResearcherLacksJ1() ensures 'J' !in PoolReply(CuriousResearcher, 1) { }
  lemma CuriousResearcherLacksJ2() ensures 'J' !in PoolReply(CuriousResearcher, 2) { }
  lemma CuriousResearcherLacksJ3() ensures 'J' !in PoolReply(CuriousResearcher, 3) { }
  lemma CuriousResearcherLacksJ4() ensures 'J' !in PoolReply(CuriousResearcher, 4) { }

  /** No pool reply carries a verdict marker. */
  lemma PoolHasNoMarker(p: Persona, pick: nat)
    requires pick < 5
    ensures !Contains(PoolReply(p, pick), TerminatedMarker) && !Contains(PoolReply(p, pick), ReleaseMarker)
  {
    PoolLacksJ(p, pick);
    NoJNoMarker(PoolReply(p, pick));
  }

  /** Both verdict phrases start with a capital J, and the release phrase has a
      capital R at position 10. */
  lemma MarkerLetters()
    ensures TerminatedMarker != [] && TerminatedMarker[0] == 'J'
    ensures |ReleaseMarker| > 10 && ReleaseMarker[0] == 'J' && ReleaseMarker[10] == 'R'
  {
  }

  /** A text without a capital J holds neither verdict phrase. */
  lemma NoJNoMarker(s: string)
    requires 'J' !in s
    ensures !Contains(s, TerminatedMarker) && !Contains(s, ReleaseMarker)
  {
    MarkerLetters();
    if Contains(s, TerminatedMarker) { ContainsChar(s, TerminatedMarker, 0); }
    if Contains(s, ReleaseMarker) { ContainsChar(s, ReleaseMarker, 0); }
  }

  /** The roll's scripted line terminates and does not release. */
  lemma TerminationLineMarkers()
    ensures Contains(TerminationLine, TerminatedMarker) && !Contains(TerminationLine, ReleaseMarker)
  {
    TerminationLineEndsWithMarker();
    TerminationLineLacksR();
    TerminatesWithoutRelease(TerminationLine, 56);
  }

  /** A text with the termination phrase at position i and no capital R
      terminates and cannot release. */
  lemma TerminatesWithoutRelease(s: string, i: nat)
    requires i <= |s| && TerminatedMarker <= s[i..] && 'R' !in s
    ensures Contains(s, TerminatedMarker) && !Contains(s, ReleaseMarker)
  {
    ContainsAt(s, TerminatedMarker, i);
    MarkerLetters();
    if Contains(s, ReleaseMarker) { ContainsChar(s, ReleaseMarker, 10); }
  }

  lemma TerminationLineEndsWithMarker()
    ensures 56 <= |TerminationLine| && TerminatedMarker <= TerminationLine[56..]
  {
    var a, b, c := "Time is running out and you ", "have failed to convince me. ", "Judgment: Terminated.";
    assert |a| == 28 && |b| == 28;
    assert TerminationLine == a + b + c;
    assert TerminationLine[56..] == c;
  }

  lemma TerminationLineLacksR() ensures 'R' !in TerminationLine { }

  /** The scripted reply: a found contradiction wins, then the high-pressure
      termination roll, then the persona's pool. `roll` is the outcome of the
      30% draw and `pick` the pool index, both random in the source. */
  function FallbackReply(p: Persona, pressure: real, c: Option<Contradiction>, roll: bool, pick: nat): string
    requires pick < 5
  {
    if c.Some? then ContradictionReply(c.value)
    else if pressure > 0.8 && roll then TerminationLine
    else PoolReply(p, pick)
  }

  /** A found contradiction always gets the template; otherwise the scripted
      reply terminates exactly when the pressure is above 0.8 and the roll
      succeeds, and it never releases. */
  lemma FallbackVerdicts(p: Persona, pressure: real, c: Option<Contradiction>, roll: bool, pick: nat)
    requires pick < 5
    ensures c.Some? ==> FallbackReply(p, pressure, c, roll, pick) == ContradictionReply(c.value)
    ensures c.None? ==> (Contains(FallbackReply(p, pressure, c, roll, pick), TerminatedMarker) <==> pressure > 0.8 && roll)
    ensures c.None? ==> !Contains(FallbackReply(p, pressure, c, roll, pick), ReleaseMarker)
  {
    if c.None? {
      if pressure > 0.8 && roll {
        TerminationLineMarkers();
      } else {
        PoolHasNoMarker(p, pick);
      }
    }
  }

  // ----- the engine -----

  /** The invariant of a running session's dialogue: the persona's directive,
      then alternating user and assistant turns, the user turns being exactly
      the remembered statements. */
  ghost predicate SeededDialogue(directive: string, history: seq<Turn>, memory: seq<string>) {
    && |history| == 1 + 2 * |memory|
    && history[0] == Turn(System, directive)
    && (forall j :: 0 <= j < |memory| ==>
          history[2 * j + 1] == Turn(User, memory[j]) && history[2 * j + 2].role == Assistant)
  }

  /** The dialogue right after a statement is recorded: the invariant holds up
      to that statement, which closes the history as a user turn. */
  ghost predicate PendingDialogue(directive: string, history: seq<Turn>, memory: seq<string>) {
    && memory != [] && history != []
    && history[|history| - 1] == Turn(User, memory[|memory| - 1])
    && SeededDialogue(directive, history[..|history| - 1], memory[..|memory| - 1])
  }

  /** Recording a statement leaves it awaiting its reply. */
  lemma StatementAwaitsReply(d: string, history: seq<Turn>, memory: seq<string>, said: string)
    requires SeededDialogue(d, history, memory)
    ensures PendingDialogue(d, history + [Turn(User, said)], memory + [said])
  {
    assert (history + [Turn(User, said)])[..|history|] == history;
    assert (memory + [said])[..|memory|] == memory;
  }

  /** Recording the reply restores the invariant. */
  lemma ReplyClosesExchange(d: string, history: seq<Turn>, memory: seq<string>, answer: string)
    requires PendingDialogue(d, history, memory)
    ensures SeededDialogue(d, history + [Turn(Assistant, answer)], memory)
  {
    var n := |memory| - 1;
    var h0, m0 := history[..|history| - 1], memory[..n];
    var h := history + [Turn(Assistant, answer)];
    assert |h0| == 1 + 2 * n;
    assert h[0] == h0[0];
    assert h[|history|] == Turn(Assistant, answer);
    assert h[|history| - 1] == Turn(User, memory[n]);
    forall j | 0 <= j < |memory|
      ensures h[2 * j + 1] == Turn(User, memory[j]) && h[2 * j + 2].role == Assistant
    {
      if j < n {
        assert h[2 * j + 1] == history[2 * j + 1] == h0[2 * j + 1];
        assert h[2 * j + 2] == history[2 * j + 2] == h0[2 * j + 2];
        assert m0[j] == memory[j];
      } else {
        assert j == n && 2 * j + 1 == |history| - 1 && 2 * j + 2 == |history|;
      }
    }
  }

  /** One exchange keeps the dialogue invariant. */
  lemma ExchangeKeepsDialogue(d: string, history: seq<Turn>, memory: seq<string>, said: string, answer: string)
    requires SeededDialogue(d, history, memory)
    ensures SeededDialogue(d, history + [Turn(User, said)] + [Turn(Assistant, answer)], memory + [said])
  {
    StatementAwaitsReply(d, history, memory, said);
    ReplyClosesExchange(d, history + [Turn(User, said)], memory + [said], answer);
  }

  class JudgeEngine {
    var personality: Option<Persona>
    var conversationHistory: seq<Turn>
    var memoryArray: seq<string>
    var ollamaAvailable: bool

    constructor ()
      ensures personality == None && conversationHistory == [] && memoryArray == [] && !ollamaAvailable
    {
      personality := None;
      conversationHistory := [];
      memoryArray := [];
      ollamaAvailable := false;
    }

    /** The dialogue opens with the persona's directive and then alternates a
        user turn (the remembered statement) and an assistant turn. */
    ghost predicate Seeded()
      reads this`personality, this`conversationHistory, this`memoryArray
    {
      personality.Some? && SeededDialogue(Directive(personality.value), conversationHistory, memoryArray)
    }

    /** The dialogue invariant with the latest statement still awaiting its reply. */
    ghost predicate Pending()
      reads this`personality, this`conversationHistory, this`memoryArray
    {
      personality.Some? && PendingDialogue(Directive(personality.value), conversationHistory, memoryArray)
    }

    /** Session start: `pick` is the random persona index, `probe` the outcome of
        the availability check, `openingPick` the random opening line. The
        statement memory is left as it is. */
    method Initialize(pick: nat, probe: bool, openingPick: nat) returns (name: string, opening: string)
      requires pick < PersonaCount && openingPick < OpeningCount
      modifies this
      ensures personality == Some(PersonaAt(pick)) && ollamaAvailable == probe
      ensures conversationHistory == [Turn(System, Directive(PersonaAt(pick)))]
      ensures memoryArray == old(memoryArray)
      ensures name == Name(PersonaAt(pick)) && opening == Opening(openingPick)
      ensures old(memoryArray) == [] ==> Seeded()
    {
      personality := Some(PersonaAt(pick));
      ollamaAvailable := probe;
      conversationHistory := [Turn(System, Directive(PersonaAt(pick)))];
      name := Name(PersonaAt(pick));
      opening := Opening(openingPick);
    }

    /** The nested scan: earlier statements oldest first, pairs in listed order,
        stopping at the first pair that straddles. */
    method DetectContradiction(newStatement: string) returns (r: Option<Contradiction>)
      ensures r == Detect(memoryArray, newStatement)
    {
      var memory := memoryArray;
      if |memory| < 2 {
        return None;
      }
      var newLower := Lower(newStatement);
      var i := 0;
      while i < |memory| - 1
        invariant 0 <= i <= |memory| - 1
        invariant forall j :: 0 <= j < i ==> !Clash(memory[j], newStatement)
      {
        var oldLower := Lower(memory[i]);
        var k := 0;
        while k < |NegationPairs|
          invariant 0 <= k <= |NegationPairs|
          invariant forall m :: 0 <= m < k ==> !PairHit(oldLower, newLower, NegationPairs[m])
        {
          var pair := NegationPairs[k];
          if (Contains(oldLower, pair.0) && Contains(newLower, pair.1)) ||
             (Contains(oldLower, pair.1) && Contains(newLower, pair.0)) {
            assert PairHit(oldLower, newLower, NegationPairs[k]);
            assert memory[..|memory| - 1][i] == memory[i];
            return Some(Contradiction(Prefix(memory[i], ExcerptLength), Prefix(newStatement, ExcerptLength)));
          }
          k := k + 1;
        }
        i := i + 1;
      }
      assert forall j :: 0 <= j < |memory| - 1 ==> memory[..|memory| - 1][j] == memory[j];
      return None;
    }

    /** The accumulated score change for a message under the active persona. */
    method EvaluateScore(userMessage: string) returns (scoreDelta: int)
      requires personality.Some?
      ensures scoreDelta == QualityDelta(personality.value, userMessage)
      ensures personality.value == ColdLogic ==> -45 <= scoreDelta <= 35
      ensures personality.value != ColdLogic ==> -5 <= scoreDelta <= 35
    {
      var p := personality.value;
      scoreDelta := 0;
      var messageLower := Lower(userMessage);
      var wordCount := WordCount(userMessage);
      if 20 <= wordCount <= 100 {
        scoreDelta := scoreDelta + 10;
      } else if wordCount < 10 {
        scoreDelta := scoreDelta - 5;
      } else if wordCount > 150 {
        scoreDelta := scoreDelta - 5;
      }
      var favoredCount := Hits(Favoured(p), messageLower);
      scoreDelta := scoreDelta + favoredCount * 5;
      var triggerCount := Hits(Triggers(p), messageLower);
      if p == ColdLogic {
        scoreDelta := scoreDelta - triggerCount * 10;
      }
    }

    /** One remote generation: the oracle `generate` answers the prompt, or fails
        (None), in which case the engine falls back to a scripted reply and stops
        using the generator for the rest of the session. */
    method CallOllama(pressure: real, c: Option<Contradiction>, generate: string -> Option<string>,
                      roll: bool, pick: nat) returns (response: string)
      requires personality.Some? && pick < 5
      modifies this`ollamaAvailable
      ensures var answer := generate(BuildPrompt(conversationHistory, pressure, c));
              && (answer.Some? ==> response == Trim(answer.value) && ollamaAvailable == old(ollamaAvailable))
              && (answer.None? ==> response == FallbackReply(personality.value, pressure, c, roll, pick) && !ollamaAvailable)
    {
      var fullPrompt := BuildPrompt(conversationHistory, pressure, c);
      var answer := generate(fullPrompt);
      if answer.Some? {
        response := Trim(answer.value);
      } else {
        ollamaAvailable := false;
        response := FallbackReply(personality.value, pressure, c, roll, pick);
      }
    }

    /** The reply for one exchange: the remote generator's answer while it is
        in use and answers, the scripted fallback otherwise. */
    method Answer(pressure: real, c: Option<Contradiction>, generate: string -> Option<string>,
                  roll: bool, pick: nat) returns (response: string)
      requires personality.Some? && pick < 5
      modifies this`ollamaAvailable
      ensures var answer := generate(BuildPrompt(conversationHistory, pressure, c));
              var remote := old(ollamaAvailable) && answer.Some?;
              && ollamaAvailable == remote
              && response == if remote then Trim(answer.value)
                             else FallbackReply(personality.value, pressure, c, roll, pick)
    {
      if ollamaAvailable {
        response := CallOllama(pressure, c, generate, roll, pick);
      } else {
        response := FallbackReply(personality.value, pressure, c, roll, pick);
      }
    }

    /** The statement is remembered and recorded as the user's turn, then
        compared with the earlier statements. */
    method Record(userMessage: string) returns (contradiction: Option<Contradiction>)
      modifies this`memoryArray, this`conversationHistory
      ensures memoryArray == old(memoryArray) + [userMessage]
      ensures conversationHistory == old(conversationHistory) + [Turn(User, userMessage)]
      ensures contradiction == Detect(memoryArray, userMessage)
      ensures old(Seeded()) ==> Pending()
    {
      ghost var history, memory := conversationHistory, memoryArray;
      memoryArray := memoryArray + [userMessage];
      conversationHistory := conversationHistory + [Turn(User, userMessage)];
      contradiction := DetectContradiction(userMessage);
      if personality.Some? && SeededDialogue(Directive(personality.value), history, memory) {
        StatementAwaitsReply(Directive(personality.value), history, memory, userMessage);
      }
    }

    /** The reply is recorded as the assistant's turn. */
    method AppendReply(response: string)
      modifies this`conversationHistory
      ensures conversationHistory == old(conversationHistory) + [Turn(Assistant, response)]
      ensures old(Pending()) ==> Seeded()
    {
      ghost var history := conversationHistory;
      conversationHistory := conversationHistory + [Turn(Assistant, response)];
      if personality.Some? && PendingDialogue(Directive(personality.value), history, memoryArray) {
        ReplyClosesExchange(Directive(personality.value), history, memoryArray, response);
      }
    }

    /** One exchange: remember and record the statement, look for a
        contradiction, obtain a reply, record it. */
    method GenerateResponse(userMessage: string, pressure: real, generate: string -> Option<string>,
                            roll: bool, pick: nat) returns (reply: Reply)
      requires personality.Some? && pick < 5
      modifies this
      ensures personality == old(personality)
      ensures memoryArray == old(memoryArray) + [userMessage]
      ensures reply.details == Detect(old(memoryArray) + [userMessage], userMessage)
      ensures reply.hasContradiction <==> reply.details.Some?
      ensures conversationHistory == old(conversationHistory) + [Turn(User, userMessage)] + [Turn(Assistant, reply.message)]
      ensures var answer := generate(BuildPrompt(old(conversationHistory) + [Turn(User, userMessage)], pressure, reply.details));
              var remote := old(ollamaAvailable) && answer.Some?;
              && ollamaAvailable == remote
              && reply.message == if remote then Trim(answer.value)
                                  else FallbackReply(personality.value, pressure, reply.details, roll, pick)
      ensures old(Seeded()) ==> Seeded()
    {
      var contradiction := Record(userMessage);
      var response := Answer(pressure, contradiction, generate, roll, pick);
      AppendReply(response);
      reply := Reply(response, contradiction.Some?, contradiction);
    }

    /** Session teardown: dialogue, memory and persona are dropped; the generator flag is kept. */
    method Reset()
      modifies this
      ensures conversationHistory == [] && memoryArray == [] && personality == None
      ensures ollamaAvailable == old(ollamaAvailable)
    {
      conversationHistory := [];
      memoryArray := [];
      personality := None;
    }
  }
}
