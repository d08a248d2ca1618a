/**
 * The conversation over all users: a store of waiting states and recorded
 * answers keyed by the conversation, the handling of one incoming answer,
 * and the calculation that ends a session and always tears it down.
 */
module Conversation {
  import opened Options
  import opened Coefficients
  import opened Pricing
  import opened Session

  /** The identity a session is kept under. */
  type Key = int

  /** The waiting state and the recorded answers of every open session. */
  datatype Store = Store(states: map<Key, UserState>, data: map<Key, Answers>)

  /** What the bot tells the user after one message. */
  datatype Reply =
    | Ask(next: UserState)       // the answer was recorded; the next question is asked
    | Retry(complaint: Complaint) // the answer was refused; the same question again
    | Failure                    // a handler failed on a session without recorded answers
    | Quoted(quote: Quote)       // the calculated premium
    | NoData                     // nothing recorded to calculate from
    | Ignored                    // no session waits for an answer from this user

  datatype Outcome = Outcome(store: Store, reply: Reply)

  /** The two stores agree on every key other than `key`. */
  ghost predicate SameElsewhere(s: Store, t: Store, key: Key) {
    && (forall k :: k != key ==> (k in s.states <==> k in t.states))
    && (forall k :: k != key && k in s.states ==> s.states[k] == t.states[k])
    && (forall k :: k != key ==> (k in s.data <==> k in t.data))
    && (forall k :: k != key && k in s.data ==> s.data[k] == t.data[k])
  }

  /** Every session that waits on a question has answers recorded, consistent with that question. */
  ghost predicate WellFormed(s: Store) {
    && s.states.Keys == s.data.Keys
    && forall k :: k in s.states ==> Consistent(s.states[k], s.data[k])
  }

  /** Starting a calculation (re)opens the session with no answers, waiting on the holder category. */
  function StartCalculation(store: Store, key: Key): (s: Store)
    ensures key in s.states && s.states[key] == WaitingForInsuranceType
    ensures key in s.data && s.data[key] == NoAnswers
    ensures SameElsewhere(store, s, key)
    ensures WellFormed(store) ==> WellFormed(s)
  {
    NoAnswersConsistent();
    Store(store.states[key := WaitingForInsuranceType], store.data[key := NoAnswers])
  }

  /** The session store without `key`: its state and its answers are gone. */
  function Teardown(store: Store, key: Key): (s: Store)
    ensures key !in s.states && key !in s.data
    ensures SameElsewhere(store, s, key)
    ensures WellFormed(store) ==> WellFormed(s)
  {
    Store(store.states - {key}, store.data - {key})
  }

  /**
   * The premium for a record of answers. A value missing from the record is
   * replaced by a fixed default (ko 1, kt 1, power 100, experience 5, age 30,
   * kc 1, kbm 1); a complete record uses none of them.
   */
  function Calculate(a: Answers): (q: Quote)
    ensures Complete(a) ==>
      q == QuoteOf(KoCoef(a.insuranceType.value), KtCoef(a.city.value),
                   KbsCoef(a.experience.value, a.age.value), KcCoef(a.period.value),
                   a.kbm.value, KmCoef(a.power.value))
    ensures Complete(a) ==> 0 <= q.summaMin <= q.summaMax
  {
    var ko := a.ko.GetOr(1.0);
    var kt := a.kt.GetOr(1.0);
    var power := a.power.GetOr(100.0);
    var experience := a.experience.GetOr(5.0);
    var age := a.age.GetOr(30);
    var kc := a.kc.GetOr(1.0);
    var kbm := a.kbm.GetOr(1.0);
    var q := QuoteOf(ko, kt, KbsCoef(experience, age), kc, kbm, KmCoef(power));
    assert Complete(a) ==> 0 <= q.summaMin <= q.summaMax by {
      if Complete(a) {
        CompleteCoefficients(a);
        QuoteOrdered(ko, kt, KbsCoef(experience, age), kc, kbm, KmCoef(power));
      }
    }
    q
  }

  /** The coefficients recorded in a complete record are the resolvers' values for its answers, all positive. */
  lemma CompleteCoefficients(a: Answers)
    requires Complete(a)
    ensures a.ko.value == KoCoef(a.insuranceType.value) > 0.0
    ensures a.kt.value == KtCoef(a.city.value) > 0.0
    ensures a.kc.value == KcCoef(a.period.value) > 0.0
    ensures a.kbm.value > 0.0
  {
  }

  /**
   * Calculating ends the session: the quote for its recorded answers, or the
   * report that nothing was recorded; either way the state and the answers
   * are gone afterwards.
   */
  function PerformCalculation(store: Store, key: Key): (out: Outcome)
    ensures key !in out.store.states && key !in out.store.data
    ensures SameElsewhere(store, out.store, key)
    ensures out.reply.NoData? <==> key !in store.data || store.data[key] == NoAnswers
    ensures out.reply.Quoted? ==> key in store.data && out.reply.quote == Calculate(store.data[key])
    ensures out.reply.NoData? || out.reply.Quoted?
  {
    var data := if key in store.data then store.data[key] else NoAnswers;
    var reply := if data == NoAnswers then NoData else Quoted(Calculate(data));
    Outcome(Teardown(store, key), reply)
  }

  /**
   * One incoming answer from `key`. Without a waiting state it is not an
   * answer. A refused answer changes nothing. An accepted one is recorded
   * and the next question asked, or the calculation performed, which ends
   * the session.
   */
  function Handle(store: Store, key: Key, msg: Message): (out: Outcome)
    ensures key !in store.states ==> out == Outcome(store, Ignored)
    ensures out.reply.Retry? || out.reply.Failure? || out.reply.Ignored? ==> out.store == store
    ensures out.reply.Retry? ==> key in store.states && !Acceptable(store.states[key], msg)
    ensures key in store.states && !Acceptable(store.states[key], msg) ==> out.reply.Retry?
    ensures out.reply.Ask? ==>
      && key in store.states && key in out.store.states
      && out.store.states[key] == out.reply.next
      && Successor(store.states[key], out.reply.next)
    ensures out.reply.Quoted? || out.reply.NoData? ==> key !in out.store.states && key !in out.store.data
    ensures out.reply.Quoted? ==>
      && key in store.states && key in store.data
      && Answer(store.states[key], store.data[key], msg).Calculate?
      && out.reply.quote == Calculate(Answer(store.states[key], store.data[key], msg).answers)
    ensures SameElsewhere(store, out.store, key)
  {
    if key !in store.states then Outcome(store, Ignored)
    else
      var state := store.states[key];
      var answers := if key in store.data then store.data[key] else NoAnswers;
      var step := Answer(state, answers, msg);
      AnswerFollowsTable(state, answers, msg);
      match step
      case Reprompt(c) => Outcome(store, Retry(c))
      case Advance(a, next) =>
        if key !in store.data then Outcome(store, Failure)
        else Outcome(Store(store.states[key := next], store.data[key := a]), Ask(next))
      case Calculate(a) =>
        if key !in store.data then Outcome(store, Failure)
        else PerformCalculation(Store(store.states, store.data[key := a]), key)
  }

  /** An accepted answer of an open session records the new answers and asks the next question. */
  lemma HandleAdvances(store: Store, key: Key, msg: Message, next: UserState, a: Answers)
    requires key in store.states && key in store.data
    requires Answer(store.states[key], store.data[key], msg) == Advance(a, next)
    ensures Handle(store, key, msg) == Outcome(Store(store.states[key := next], store.data[key := a]), Ask(next))
  {
  }

  /**
   * Handling keeps the store well formed, so a handler never fails for lack
   * of a record, a calculation always has a complete record, and every
   * quote is a non-empty range of non-negative sums.
   */
  lemma HandleKeepsWellFormed(store: Store, key: Key, msg: Message)
    requires WellFormed(store)
    ensures WellFormed(Handle(store, key, msg).store)
    ensures !Handle(store, key, msg).reply.Failure?
    ensures !Handle(store, key, msg).reply.NoData?
    ensures Handle(store, key, msg).reply.Quoted? ==>
      0 <= Handle(store, key, msg).reply.quote.summaMin <= Handle(store, key, msg).reply.quote.summaMax
  {
    if key in store.states {
      var state := store.states[key];
      var answers := store.data[key];
      AnswerKeepsConsistent(state, answers, msg);
      var step := Answer(state, answers, msg);
      if step.Advance? {
        RecordKeepsWellFormed(store, key, step.next, step.answers);
      } else if step.Calculate? {
        CompleteNotEmpty(step.answers);
      }
    }
  }

  /** Recording consistent answers for an open session keeps the store well formed. */
  lemma RecordKeepsWellFormed(store: Store, key: Key, next: UserState, a: Answers)
    requires WellFormed(store) && key in store.states
    requires Consistent(next, a)
    ensures WellFormed(Store(store.states[key := next], store.data[key := a]))
  {
  }

  /** A novice answering yes is quoted with the fixed coefficient 1.17 and the session ends without accident questions. */
  lemma NoviceSkipsAccidents(store: Store, key: Key, msg: Message)
    requires WellFormed(store)
    requires key in store.states && store.states[key] == WaitingForNovice
    requires msg.text == Yes
    ensures Handle(store, key, msg).reply.Quoted?
    ensures Handle(store, key, msg).reply.quote.kbm == NoviceKbm
    ensures key !in Handle(store, key, msg).store.states
  {
    CompleteNotEmpty(store.data[key].(isNovice := Some(true), kbm := Some(NoviceKbm)));
  }

  /** An experienced driver answering no is asked for the number of accidents. */
  lemma ExperiencedAsksAccidents(store: Store, key: Key, msg: Message)
    requires WellFormed(store)
    requires key in store.states && store.states[key] == WaitingForNovice
    requires msg.text == No
    ensures Handle(store, key, msg).reply == Ask(WaitingForAccidents)
    ensures Handle(store, key, msg).store.data[key].isNovice == Some(false)
  {
  }

  /** The accident-count question is only ever reached from a "no" to the novice question. */
  lemma AccidentsOnlyAfterNo(store: Store, key: Key, msg: Message)
    requires key in store.states && store.states[key] != WaitingForAccidents
    requires key in Handle(store, key, msg).store.states
    requires Handle(store, key, msg).store.states[key] == WaitingForAccidents
    ensures store.states[key] == WaitingForNovice && msg.text == No
  {
  }

  /** A valid accident period ends the session with the table coefficient of the recorded history. */
  lemma AccidentPeriodSetsKbm(store: Store, key: Key, msg: Message)
    requires WellFormed(store)
    requires key in store.states && store.states[key] == WaitingForAccidentPeriod
    requires msg.asInt.Some? && 1 <= msg.asInt.value <= 12
    ensures key in store.data && store.data[key].accidents.Some?
    ensures Handle(store, key, msg).reply.Quoted?
    ensures Handle(store, key, msg).reply.quote.kbm == KbmCoef(msg.asInt.value, store.data[key].accidents.value)
    ensures key !in Handle(store, key, msg).store.states && key !in Handle(store, key, msg).store.data
  {
    assert key in store.data && Consistent(WaitingForAccidentPeriod, store.data[key]);
    var a := store.data[key];
    var step := Answer(WaitingForAccidentPeriod, a, msg);
    assert step.Calculate?;
    assert step.answers.kbm == Some(KbmCoef(msg.asInt.value, a.accidents.value));
    AnswerKeepsConsistent(WaitingForAccidentPeriod, a, msg);
    CompleteNotEmpty(step.answers);
    var out := PerformCalculation(Store(store.states, store.data[key := step.answers]), key);
    assert Handle(store, key, msg) == out;
  }

  /** Messages from one user handled one after another; the final store and the last reply. */
  function Run(store: Store, key: Key, msgs: seq<Message>): (out: Outcome)
    ensures WellFormed(store) ==> WellFormed(out.store)
    ensures WellFormed(store) ==> !out.reply.Failure? && !out.reply.NoData?
    decreases |msgs|
  {
    if msgs == [] then Outcome(store, Ignored)
    else
      var o := Handle(store, key, msgs[0]);
      assert WellFormed(store) ==> WellFormed(o.store) && !o.reply.Failure? && !o.reply.NoData? by {
        if WellFormed(store) { HandleKeepsWellFormed(store, key, msgs[0]); }
      }
      if |msgs| == 1 then o else Run(o.store, key, msgs[1..])
  }
}
