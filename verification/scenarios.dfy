/** Whole conversations, from the start of a calculation to the quote. */
module Scenarios {
  import opened Options
  import opened Pricing
  import opened Session
  import opened Conversation

  /** An answer that is neither a decimal number nor an integer. */
  function Label(text: string): Message {
    Message(text, None, None)
  }

  /** An answer that parses as the integer `n`. */
  function Whole(text: string, n: int): Message {
    Message(text, Some(n as real), Some(n))
  }

  const Empty: Store := Store(map[], map[])

  /** The store holding one session, under key 7. */
  function Single(state: UserState, a: Answers): Store {
    Store(map[7 := state], map[7 := a])
  }

  /** An accepted answer in a single-session store moves that session on. */
  lemma SingleAdvance(state: UserState, a: Answers, msg: Message, next: UserState, a': Answers)
    requires Answer(state, a, msg) == Advance(a', next)
    ensures Handle(Single(state, a), 7, msg) == Outcome(Single(next, a'), Ask(next))
  {
    HandleAdvances(Single(state, a), 7, msg, next, a');
    assert map[7 := state][7 := next] == map[7 := next];
    assert map[7 := a][7 := a'] == map[7 := a'];
  }

  /** The final answer of a single-session store ends the only session with its quote. */
  lemma SingleCalculate(state: UserState, a: Answers, msg: Message, a': Answers)
    requires Answer(state, a, msg) == Calculate(a') && a' != NoAnswers
    ensures Handle(Single(state, a), 7, msg) == Outcome(Empty, Quoted(Conversation.Calculate(a')))
  {
    assert map[7 := state] - {7} == map[];
    assert map[7 := a][7 := a'] - {7} == map[];
  }

  /**
   * Messages answered one by one, each accepted in turn, the last one
   * triggering the calculation: the run ends with the quote and an empty store.
   */
  lemma {:induction false} RunAlong(states: seq<UserState>, records: seq<Answers>, msgs: seq<Message>,
                                    i: nat, last: Answers)
    requires |states| == |records| == |msgs| && i < |msgs|
    requires forall j :: i <= j < |msgs| - 1 ==>
      Answer(states[j], records[j], msgs[j]) == Advance(records[j + 1], states[j + 1])
    requires Answer(states[|msgs| - 1], records[|msgs| - 1], msgs[|msgs| - 1]) == Calculate(last)
    requires last != NoAnswers
    ensures Run(Single(states[i], records[i]), 7, msgs[i..]) == Outcome(Empty, Quoted(Conversation.Calculate(last)))
    decreases |msgs| - i
  {
    if i == |msgs| - 1 {
      SingleCalculate(states[i], records[i], msgs[i], last);
      assert msgs[i..] == [msgs[i]];
    } else {
      SingleAdvance(states[i], records[i], msgs[i], states[i + 1], records[i + 1]);
      assert msgs[i..][0] == msgs[i] && msgs[i..][1..] == msgs[i + 1..];
      RunAlong(states, records, msgs, i + 1, last);
    }
  }

  /** The questions in the order they are asked. */
  const Route: seq<UserState> :=
    [WaitingForInsuranceType, WaitingForCity, WaitingForPower, WaitingForExperience,
     WaitingForAge, WaitingForPeriod, WaitingForNovice, WaitingForAccidents,
     WaitingForAccidentPeriod]

  /** An individual in Moscow, 105 hp, 5 years at 30, ten months, no accidents in three years. */
  const ExperiencedMessages: seq<Message> :=
    [Label("Физическое лицо"), Label("Москва"), Whole("105", 105), Whole("5", 5),
     Whole("30", 30), Whole("10", 10), Label("Нет"), Whole("0", 0), Whole("3", 3)]

  /** The record of the experienced driver after each answer; the last entry is the complete record. */
  function ExperiencedRecords(): seq<Answers> {
    var a0 := NoAnswers;
    var a1 := a0.(insuranceType := Some("Физическое лицо"), ko := Some(3.16));
    var a2 := a1.(city := Some("Москва"), kt := Some(1.8));
    var a3 := a2.(power := Some(105.0));
    var a4 := a3.(experience := Some(5.0));
    var a5 := a4.(age := Some(30));
    var a6 := a5.(period := Some(10), kc := Some(1.0));
    var a7 := a6.(isNovice := Some(false));
    var a8 := a7.(accidents := Some(0));
    var a9 := a8.(accidentPeriod := Some(3), kbm := Some(1.0));
    [a0, a1, a2, a3, a4, a5, a6, a7, a8, a9]
  }

  lemma ExperiencedEarlySteps()
    ensures forall j :: 0 <= j < 3 ==>
      Answer(Route[j], ExperiencedRecords()[j], ExperiencedMessages[j])
        == Advance(ExperiencedRecords()[j + 1], Route[j + 1])
  {
    var r, m := ExperiencedRecords(), ExperiencedMessages;
    assert Answer(Route[0], r[0], m[0]) == Advance(r[1], Route[1]);
    assert Answer(Route[1], r[1], m[1]) == Advance(r[2], Route[2]);
    assert Answer(Route[2], r[2], m[2]) == Advance(r[3], Route[3]);
  }

  lemma ExperiencedMiddleSteps()
    ensures forall j :: 3 <= j < 6 ==>
      Answer(Route[j], ExperiencedRecords()[j], ExperiencedMessages[j])
        == Advance(ExperiencedRecords()[j + 1], Route[j + 1])
  {
    var r, m := ExperiencedRecords(), ExperiencedMessages;
    assert Answer(Route[3], r[3], m[3]) == Advance(r[4], Route[4]);
    assert Answer(Route[4], r[4], m[4]) == Advance(r[5], Route[5]);
    assert Answer(Route[5], r[5], m[5]) == Advance(r[6], Route[6]);
  }

  lemma ExperiencedLateSteps()
    ensures forall j :: 6 <= j < 8 ==>
      Answer(Route[j], ExperiencedRecords()[j], ExperiencedMessages[j])
        == Advance(ExperiencedRecords()[j + 1], Route[j + 1])
  {
    var r, m := ExperiencedRecords(), ExperiencedMessages;
    assert Answer(Route[6], r[6], m[6]) == Advance(r[7], Route[7]);
    assert Answer(Route[7], r[7], m[7]) == Advance(r[8], Route[8]);
  }

  /** The experienced driver's last answer, the accident period, completes the record. */
  lemma ExperiencedLastStep()
    ensures Answer(Route[8], ExperiencedRecords()[8], ExperiencedMessages[8]) == Calculate(ExperiencedRecords()[9])
  {
    var r, m := ExperiencedRecords(), ExperiencedMessages;
    Coefficients.KbmExactCells();
    assert r[8].accidents.GetOr(0) == 0 && m[8].asInt == Some(3);
    assert Answer(Route[8], r[8], m[8]) == GetAccidentPeriod(r[8], m[8]);
  }

  /** The premium of the experienced driver's complete record. */
  lemma ExperiencedQuote()
    ensures Conversation.Calculate(ExperiencedRecords()[9]) == Quote(11684, 25093, 3.16, 1.8, 1.04, 1.0, 1.0, 1.2)
  {
    Coefficients.KbsByBand(5.0, 30, Tables.Band(30, 35, 1.04));
    Coefficients.KmBrackets(105.0);
    var f := Factor(3.16, 1.8, 1.04, 1.0, 1.0, 1.2);
    assert f == 7.098624;
    assert Cost(TariffMin, f) == 11684 by { assert 1646.0 * f == 11684.335104; }
    assert Cost(TariffMax, f) == 25093 by { assert 3535.0 * f == 25093.63584; }
  }

  /**
   * The whole conversation of the experienced driver: quoted 11684 to 25093
   * roubles, and the session is gone afterwards.
   */
  lemma ExperiencedDriver()
    ensures Run(StartCalculation(Empty, 7), 7, ExperiencedMessages)
         == Outcome(Empty, Quoted(Quote(11684, 25093, 3.16, 1.8, 1.04, 1.0, 1.0, 1.2)))
  {
    var r := ExperiencedRecords();
    ExperiencedEarlySteps();
    ExperiencedMiddleSteps();
    ExperiencedLateSteps();
    ExperiencedLastStep();
    RunAlong(Route, r[..9], ExperiencedMessages, 0, r[9]);
    assert StartCalculation(Empty, 7) == Single(Route[0], r[0]);
    assert ExperiencedMessages[0..] == ExperiencedMessages;
    ExperiencedQuote();
  }

  /** A novice legal entity in Moscow: 50 hp, 3.5 years at 20, three months, answering "yes" to the novice question. */
  const NoviceMessages: seq<Message> :=
    [Label("Юридическое лицо"), Label("Москва"), Whole("50", 50), Message("3,5", Some(3.5), None),
     Whole("20", 20), Whole("3", 3), Label("Да")]

  /** The record of the novice after each answer; the last entry is the complete record. */
  function NoviceRecords(): seq<Answers> {
    var a0 := NoAnswers;
    var a1 := a0.(insuranceType := Some("Юридическое лицо"), ko := Some(1.97));
    var a2 := a1.(city := Some("Москва"), kt := Some(1.8));
    var a3 := a2.(power := Some(50.0));
    var a4 := a3.(experience := Some(3.5));
    var a5 := a4.(age := Some(20));
    var a6 := a5.(period := Some(3), kc := Some(0.5));
    var a7 := a6.(isNovice := Some(true), kbm := Some(1.17));
    [a0, a1, a2, a3, a4, a5, a6, a7]
  }

  lemma NoviceEarlySteps()
    ensures forall j :: 0 <= j < 3 ==>
      Answer(Route[j], NoviceRecords()[j], NoviceMessages[j]) == Advance(NoviceRecords()[j + 1], Route[j + 1])
  {
    var r, m := NoviceRecords(), NoviceMessages;
    assert Answer(Route[0], r[0], m[0]) == Advance(r[1], Route[1]);
    assert Answer(Route[1], r[1], m[1]) == Advance(r[2], Route[2]);
    assert Answer(Route[2], r[2], m[2]) == Advance(r[3], Route[3]);
  }

  lemma NoviceLateSteps()
    ensures forall j :: 3 <= j < 6 ==>
      Answer(Route[j], NoviceRecords()[j], NoviceMessages[j]) == Advance(NoviceRecords()[j + 1], Route[j + 1])
    ensures Answer(Route[6], NoviceRecords()[6], NoviceMessages[6]) == Calculate(NoviceRecords()[7])
  {
    var r, m := NoviceRecords(), NoviceMessages;
    assert Answer(Route[3], r[3], m[3]) == Advance(r[4], Route[4]);
    assert Answer(Route[4], r[4], m[4]) == Advance(r[5], Route[5]);
    assert Answer(Route[5], r[5], m[5]) == Advance(r[6], Route[6]);
    assert Answer(Route[6], r[6], m[6]) == Calculate(r[7]);
  }

  /** The premium of the novice's complete record. */
  lemma NoviceQuote()
    ensures Conversation.Calculate(NoviceRecords()[7]) == Quote(3380, 7259, 1.97, 1.8, 1.65, 0.5, 1.17, 0.6)
  {
    Coefficients.KbsByBand(3.5, 20, Tables.Band(18, 22, 1.65));
    Coefficients.KmBrackets(50.0);
    var f := Factor(1.97, 1.8, 1.65, 0.5, 1.17, 0.6);
    assert f == 2.0536659;
    assert Cost(TariffMin, f) == 3380 by { assert 1646.0 * f == 3380.3340714; }
    assert Cost(TariffMax, f) == 7259 by { assert 3535.0 * f == 7259.7089565; }
  }

  /**
   * The whole conversation of the novice: the accident questions are never
   * asked, the bonus-malus coefficient is 1.17, the quote is 3380 to 7259
   * roubles, and the session is gone afterwards.
   */
  lemma NoviceDriver()
    ensures Run(StartCalculation(Empty, 7), 7, NoviceMessages)
         == Outcome(Empty, Quoted(Quote(3380, 7259, 1.97, 1.8, 1.65, 0.5, 1.17, 0.6)))
  {
    var r := NoviceRecords();
    NoviceEarlySteps();
    NoviceLateSteps();
    RunAlong(Route[..7], r[..7], NoviceMessages, 0, r[7]);
    assert StartCalculation(Empty, 7) == Single(Route[0], r[0]);
    assert NoviceMessages[0..] == NoviceMessages;
    NoviceQuote();
  }

  /** An age under 18 is refused with its own correction, and nothing is recorded. */
  lemma UnderageRefused()
    ensures Handle(Single(WaitingForAge, NoviceRecords()[4]), 7, Whole("17", 17))
         == Outcome(Single(WaitingForAge, NoviceRecords()[4]), Retry(AgeUnder18))
  {
  }
}
