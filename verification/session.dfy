/**
 * One user's question-and-answer session: the waiting states, the answers
 * recorded so far, and the handler that validates one raw answer in one
 * state. A valid answer is recorded and moves the session on; an invalid one
 * leaves state and answers as they were and names the correction to show.
 */
module Session {
  import opened Options
  import opened Tables
  import opened Coefficients

  /** The question the session is waiting on. */
  datatype UserState =
    | WaitingForInsuranceType
    | WaitingForCity
    | WaitingForPower
    | WaitingForExperience
    | WaitingForAge
    | WaitingForPeriod
    | WaitingForNovice
    | WaitingForAccidents
    | WaitingForAccidentPeriod

  /** The answers recorded for a session, with the coefficients resolved as they were given. */
  datatype Answers = Answers(
    insuranceType: Option<string>, ko: Option<real>,
    city: Option<string>, kt: Option<real>,
    power: Option<real>,
    experience: Option<real>,
    age: Option<int>,
    period: Option<int>, kc: Option<real>,
    isNovice: Option<bool>,
    accidents: Option<int>,
    accidentPeriod: Option<int>,
    kbm: Option<real>)

  /** The empty record a new calculation starts from. */
  const NoAnswers: Answers :=
    Answers(None, None, None, None, None, None, None, None, None, None, None, None, None)

  /**
   * One raw answer: its text, and what parsing the text as a decimal number
   * (comma or dot separator) and as an integer yields. Parsing itself is
   * outside the model.
   */
  datatype Message = Message(text: string, asFloat: Option<real>, asInt: Option<int>)

  /** The correction shown when an answer is refused; each names one message of the bot. */
  datatype Complaint =
    | ChooseListedOption
    | ChooseListedCity
    | PowerNotPositive
    | PowerNotNumber
    | ExperienceNegative
    | ExperienceNotNumber
    | AgeUnder18
    | AgeNotInteger
    | PeriodOutOfRange
    | PeriodNotInteger
    | AnswerYesOrNo
    | AccidentsNegative
    | AccidentsNotNumber
    | AccidentPeriodOutOfRange
    | AccidentPeriodNotInteger

  /** What one answer does: refuse it, record it and ask the next question, or record it and calculate. */
  datatype Step =
    | Reprompt(complaint: Complaint)
    | Advance(answers: Answers, next: UserState)
    | Calculate(answers: Answers)

  /** The three holder-category labels offered to the user. */
  const InsuranceTypes: seq<string> := ["Физическое лицо", "Юридическое лицо", "Ограниченная страховка"]

  /** The two answers to the novice question. */
  const Yes: string := "Да"
  const No: string := "Нет"

  /** The bonus-malus coefficient fixed for a novice driver. */
  const NoviceKbm: real := 1.17

  /** The offered labels are exactly the keys of the holder-category table. */
  lemma InsuranceTypesAreKoKeys()
    ensures forall t :: t in InsuranceTypes <==> t in KoTable
  {
  }

  function GetInsuranceType(a: Answers, msg: Message): (s: Step)
    ensures s.Reprompt? <==> msg.text !in KoTable
    ensures s.Reprompt? ==> s.complaint == ChooseListedOption
    ensures s.Advance? ==> (s.next == WaitingForCity &&
            s.answers == a.(insuranceType := Some(msg.text), ko := Some(KoCoef(msg.text))))
    ensures !s.Calculate?
  {
    InsuranceTypesAreKoKeys();
    if msg.text in InsuranceTypes then
      Advance(a.(insuranceType := Some(msg.text), ko := Some(KoTable[msg.text])), WaitingForCity)
    else
      Reprompt(ChooseListedOption)
  }

  function GetCity(a: Answers, msg: Message): (s: Step)
    ensures s.Reprompt? <==> msg.text !in KtTable
    ensures s.Reprompt? ==> s.complaint == ChooseListedCity
    ensures s.Advance? ==> (s.next == WaitingForPower &&
            s.answers == a.(city := Some(msg.text), kt := Some(KtCoef(msg.text))))
    ensures !s.Calculate?
  {
    if msg.text in KtTable then
      Advance(a.(city := Some(msg.text), kt := Some(KtTable[msg.text])), WaitingForPower)
    else
      Reprompt(ChooseListedCity)
  }

  function GetPower(a: Answers, msg: Message): (s: Step)
    ensures s.Reprompt? <==> !(msg.asFloat.Some? && msg.asFloat.value > 0.0)
    ensures s.Reprompt? ==> s.complaint == (if msg.asFloat.None? then PowerNotNumber else PowerNotPositive)
    ensures s.Advance? ==> s.next == WaitingForExperience && s.answers == a.(power := msg.asFloat)
    ensures !s.Calculate?
  {
    match msg.asFloat
    case None => Reprompt(PowerNotNumber)
    case Some(power) =>
      if power > 0.0 then Advance(a.(power := Some(power)), WaitingForExperience)
      else Reprompt(PowerNotPositive)
  }

  function GetExperience(a: Answers, msg: Message): (s: Step)
    ensures s.Reprompt? <==> !(msg.asFloat.Some? && msg.asFloat.value >= 0.0)
    ensures s.Reprompt? ==> s.complaint == (if msg.asFloat.None? then ExperienceNotNumber else ExperienceNegative)
    ensures s.Advance? ==> s.next == WaitingForAge && s.answers == a.(experience := msg.asFloat)
    ensures !s.Calculate?
  {
    match msg.asFloat
    case None => Reprompt(ExperienceNotNumber)
    case Some(experience) =>
      if experience >= 0.0 then Advance(a.(experience := Some(experience)), WaitingForAge)
      else Reprompt(ExperienceNegative)
  }

  function GetAge(a: Answers, msg: Message): (s: Step)
    ensures s.Reprompt? <==> !(msg.asInt.Some? && msg.asInt.value >= 18)
    ensures s.Reprompt? ==> s.complaint == (if msg.asInt.None? then AgeNotInteger else AgeUnder18)
    ensures s.Advance? ==> s.next == WaitingForPeriod && s.answers == a.(age := msg.asInt)
    ensures !s.Calculate?
  {
    match msg.asInt
    case None => Reprompt(AgeNotInteger)
    case Some(age) =>
      if age >= 18 then Advance(a.(age := Some(age)), WaitingForPeriod)
      else Reprompt(AgeUnder18)
  }

  function GetPeriod(a: Answers, msg: Message): (s: Step)
    ensures s.Reprompt? <==> !(msg.asInt.Some? && 3 <= msg.asInt.value <= 12)
    ensures s.Reprompt? ==> s.complaint == (if msg.asInt.None? then PeriodNotInteger else PeriodOutOfRange)
    ensures s.Advance? ==> (s.next == WaitingForNovice &&
            s.answers == a.(period := msg.asInt, kc := Some(KcCoef(msg.asInt.value))))
    ensures !s.Calculate?
  {
    match msg.asInt
    case None => Reprompt(PeriodNotInteger)
    case Some(period) =>
      if 3 <= period <= 12 then
        assert period in KcTable;
        Advance(a.(period := Some(period), kc := Some(KcTable[period])), WaitingForNovice)
      else
        Reprompt(PeriodOutOfRange)
  }

  function GetNovice(a: Answers, msg: Message): (s: Step)
    ensures s.Reprompt? <==> msg.text != Yes && msg.text != No
    ensures s.Reprompt? ==> s.complaint == AnswerYesOrNo
    ensures s.Calculate? <==> msg.text == Yes
    ensures s.Calculate? ==> s.answers == a.(isNovice := Some(true), kbm := Some(NoviceKbm))
    ensures s.Advance? ==> s.next == WaitingForAccidents && s.answers == a.(isNovice := Some(false))
  {
    if msg.text in [Yes, No] then
      var isNovice := msg.text == Yes;
      var a' := a.(isNovice := Some(isNovice));
      if isNovice then Calculate(a'.(kbm := Some(NoviceKbm)))
      else Advance(a', WaitingForAccidents)
    else
      Reprompt(AnswerYesOrNo)
  }

  function GetAccidents(a: Answers, msg: Message): (s: Step)
    ensures s.Reprompt? <==> !(msg.asInt.Some? && msg.asInt.value >= 0)
    ensures s.Reprompt? ==> s.complaint == (if msg.asInt.None? then AccidentsNotNumber else AccidentsNegative)
    ensures s.Advance? ==> s.next == WaitingForAccidentPeriod && s.answers == a.(accidents := msg.asInt)
    ensures !s.Calculate?
  {
    match msg.asInt
    case None => Reprompt(AccidentsNotNumber)
    case Some(accidents) =>
      if accidents >= 0 then Advance(a.(accidents := Some(accidents)), WaitingForAccidentPeriod)
      else Reprompt(AccidentsNegative)
  }

  /** A valid accident period resolves the bonus-malus coefficient from the recorded accident count. */
  function GetAccidentPeriod(a: Answers, msg: Message): (s: Step)
    ensures s.Reprompt? <==> !(msg.asInt.Some? && 1 <= msg.asInt.value <= 12)
    ensures s.Reprompt? ==> s.complaint == (if msg.asInt.None? then AccidentPeriodNotInteger else AccidentPeriodOutOfRange)
    ensures !s.Advance?
    ensures s.Calculate? ==>
      s.answers == a.(accidentPeriod := msg.asInt, kbm := Some(KbmCoef(msg.asInt.value, a.accidents.GetOr(0))))
  {
    match msg.asInt
    case None => Reprompt(AccidentPeriodNotInteger)
    case Some(accidentPeriod) =>
      if 1 <= accidentPeriod <= 12 then
        var a' := a.(accidentPeriod := Some(accidentPeriod));
        var accidents := a'.accidents.GetOr(0);
        Calculate(a'.(kbm := Some(KbmCoef(accidentPeriod, accidents))))
      else
        Reprompt(AccidentPeriodOutOfRange)
  }

  /** The handler for the state the session is in. */
  function Answer(state: UserState, a: Answers, msg: Message): Step {
    match state
    case WaitingForInsuranceType => GetInsuranceType(a, msg)
    case WaitingForCity => GetCity(a, msg)
    case WaitingForPower => GetPower(a, msg)
    case WaitingForExperience => GetExperience(a, msg)
    case WaitingForAge => GetAge(a, msg)
    case WaitingForPeriod => GetPeriod(a, msg)
    case WaitingForNovice => GetNovice(a, msg)
    case WaitingForAccidents => GetAccidents(a, msg)
    case WaitingForAccidentPeriod => GetAccidentPeriod(a, msg)
  }

  // ---------------------------------------------------------------------------
  // The validation table and the question order, stated independently
  // ---------------------------------------------------------------------------

  /** Which answers each question accepts. */
  ghost predicate Acceptable(state: UserState, msg: Message) {
    match state
    case WaitingForInsuranceType => msg.text in KoTable
    case WaitingForCity => msg.text in KtTable
    case WaitingForPower => msg.asFloat.Some? && msg.asFloat.value > 0.0
    case WaitingForExperience => msg.asFloat.Some? && msg.asFloat.value >= 0.0
    case WaitingForAge => msg.asInt.Some? && msg.asInt.value >= 18
    case WaitingForPeriod => msg.asInt.Some? && 3 <= msg.asInt.value <= 12
    case WaitingForNovice => msg.text == Yes || msg.text == No
    case WaitingForAccidents => msg.asInt.Some? && msg.asInt.value >= 0
    case WaitingForAccidentPeriod => msg.asInt.Some? && 1 <= msg.asInt.value <= 12
  }

  /** The question that follows `from` when its answer moves the session on. */
  ghost predicate Successor(from: UserState, to: UserState) {
    match from
    case WaitingForInsuranceType => to == WaitingForCity
    case WaitingForCity => to == WaitingForPower
    case WaitingForPower => to == WaitingForExperience
    case WaitingForExperience => to == WaitingForAge
    case WaitingForAge => to == WaitingForPeriod
    case WaitingForPeriod => to == WaitingForNovice
    case WaitingForNovice => to == WaitingForAccidents
    case WaitingForAccidents => to == WaitingForAccidentPeriod
    case WaitingForAccidentPeriod => false
  }

  /**
   * An answer is refused exactly when the validation table says so; an
   * accepted answer moves to the next question or, after the novice or
   * accident-period question, to the calculation.
   */
  lemma AnswerFollowsTable(state: UserState, a: Answers, msg: Message)
    ensures Answer(state, a, msg).Reprompt? <==> !Acceptable(state, msg)
    ensures Answer(state, a, msg).Advance? ==> Successor(state, Answer(state, a, msg).next)
    ensures Answer(state, a, msg).Calculate? ==>
      state == WaitingForAccidentPeriod || (state == WaitingForNovice && msg.text == Yes)
  {
  }

  // ---------------------------------------------------------------------------
  // What a session has recorded in each state
  // ---------------------------------------------------------------------------

  /** The position of each question in the order they are asked. */
  function Position(state: UserState): nat {
    match state
    case WaitingForInsuranceType => 0
    case WaitingForCity => 1
    case WaitingForPower => 2
    case WaitingForExperience => 3
    case WaitingForAge => 4
    case WaitingForPeriod => 5
    case WaitingForNovice => 6
    case WaitingForAccidents => 7
    case WaitingForAccidentPeriod => 8
  }

  ghost predicate TypeAnswered(a: Answers) {
    a.insuranceType.Some? && a.insuranceType.value in KoTable && a.ko == Some(KoTable[a.insuranceType.value])
  }

  ghost predicate CityAnswered(a: Answers) {
    a.city.Some? && a.city.value in KtTable && a.kt == Some(KtTable[a.city.value])
  }

  ghost predicate PeriodAnswered(a: Answers) {
    a.period.Some? && 3 <= a.period.value <= 12 && a.kc == Some(KcTable[a.period.value])
  }

  /**
   * The answers of a session waiting in `state`: every earlier question
   * answered validly (with the coefficient of a listed key, never a
   * default), every later one not yet answered.
   */
  ghost predicate Consistent(state: UserState, a: Answers) {
    var n := Position(state);
    && (if n > 0 then TypeAnswered(a) else a.insuranceType.None? && a.ko.None?)
    && (if n > 1 then CityAnswered(a) else a.city.None? && a.kt.None?)
    && (if n > 2 then a.power.Some? && a.power.value > 0.0 else a.power.None?)
    && (if n > 3 then a.experience.Some? && a.experience.value >= 0.0 else a.experience.None?)
    && (if n > 4 then a.age.Some? && a.age.value >= 18 else a.age.None?)
    && (if n > 5 then PeriodAnswered(a) else a.period.None? && a.kc.None?)
    && (if n > 6 then a.isNovice == Some(false) else a.isNovice.None?)
    && (if n > 7 then a.accidents.Some? && a.accidents.value >= 0 else a.accidents.None?)
    && a.accidentPeriod.None?
    && a.kbm.None?
  }

  /**
   * The answers of a finished session: all questions answered validly; a
   * novice has the fixed bonus-malus coefficient and no accident answers,
   * anyone else the table coefficient of the recorded accident history.
   */
  ghost predicate Complete(a: Answers) {
    && TypeAnswered(a)
    && CityAnswered(a)
    && a.power.Some? && a.power.value > 0.0
    && a.experience.Some? && a.experience.value >= 0.0
    && a.age.Some? && a.age.value >= 18
    && PeriodAnswered(a)
    && a.isNovice.Some?
    && (a.isNovice.value ==> a.kbm == Some(NoviceKbm) && a.accidents.None? && a.accidentPeriod.None?)
    && (!a.isNovice.value ==>
          && a.accidents.Some? && a.accidents.value >= 0
          && a.accidentPeriod.Some? && 1 <= a.accidentPeriod.value <= 12
          && a.kbm == Some(KbmCoef(a.accidentPeriod.value, a.accidents.value)))
  }

  lemma NoAnswersConsistent()
    ensures Consistent(WaitingForInsuranceType, NoAnswers)
  {
  }

  /**
   * Answering keeps the record consistent: a move leaves it consistent with
   * the next question, and a calculation receives a complete record.
   */
  lemma AnswerKeepsConsistent(state: UserState, a: Answers, msg: Message)
    requires Consistent(state, a)
    ensures Answer(state, a, msg).Advance? ==> Consistent(Answer(state, a, msg).next, Answer(state, a, msg).answers)
    ensures Answer(state, a, msg).Calculate? ==> Complete(Answer(state, a, msg).answers)
  {
  }

  /** A complete record is never empty. */
  lemma CompleteNotEmpty(a: Answers)
    requires Complete(a)
    ensures a != NoAnswers
  {
  }
}
