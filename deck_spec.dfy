/** The state of the deck store (src/store/deckStore.js) as a value, its two
    getters, and one function per action giving the state after the action
    and what the action returns.  The class in deck_store.dfy performs the
    same actions field by field and is proved against these functions. */
module DeckSpec {
  import opened Common

  type Id = string

  datatype Card = Card(id: Id, question: string, answer: string)

  /** A deck object; its `Cards` array may be absent. */
  datatype Deck = Deck(id: Id, title: string, cards: Option<seq<Card>>)

  /** What `userAnswers` records for a card. */
  datatype AnswerRecord = AnswerRecord(answer: string, isCorrect: bool)

  datatype Progress = Progress(correct: nat, incorrect: nat, total: nat)

  /** The service's verdict on a submitted answer. */
  datatype Verdict = Verdict(isCorrect: bool)

  datatype DeckState = DeckState(
    decks: seq<Deck>,
    currentDeck: Option<Deck>,
    loading: bool,
    error: Option<string>,
    currentCardIndex: nat,
    userAnswers: map<Id, AnswerRecord>,
    showAnswer: bool,
    studyProgress: Progress)

  /** The store as created: no decks, no current card, counters balanced. */
  function Initial(): (t: DeckState)
    ensures t.decks == [] && !HasCards(t) && CurrentCard(t).None? && IsLastCard(t)
    ensures t.studyProgress == Progress(0, 0, 0)
    ensures !t.loading && t.error.None?
  {
    DeckState([], None, false, None, 0, map[], false, Progress(0, 0, 0))
  }

  /** The counter invariant: every answer counted in `total` is either correct or incorrect. */
  predicate Balanced(p: Progress) {
    p.correct + p.incorrect == p.total
  }

  /** `state.currentDeck?.Cards` is truthy: a deck is loaded and has a `Cards`
      array (an empty array is truthy too). */
  predicate HasCards(s: DeckState) {
    s.currentDeck.Some? && s.currentDeck.value.cards.Some?
  }

  function Cards(s: DeckState): seq<Card>
    requires HasCards(s)
  {
    s.currentDeck.value.cards.value
  }

  predicate CursorInBounds(s: DeckState) {
    HasCards(s) && s.currentCardIndex < |Cards(s)|
  }

  /** `this.currentDeck.Cards || []` */
  function CardsOrEmpty(d: Deck): (cs: seq<Card>)
    ensures d.cards.Some? ==> cs == d.cards.value
    ensures d.cards.None? ==> cs == []
  {
    match d.cards
    case None => []
    case Some(cs) => cs
  }

  /** The `finally`/`catch` of every failing asynchronous action: only `loading`
      and `error` change. */
  function Failed(s: DeckState, e: Error): (t: DeckState)
    ensures !t.loading && t.error == Some(e.message)
    ensures t.(loading := s.loading, error := s.error) == s
  {
    s.(loading := false, error := Some(e.message))
  }

  // ---------------------------------------------------------------- getters

  /** Getter `currentCard`: `Cards[currentCardIndex]`, which is `undefined` when
      the index is past the end. */
  function CurrentCard(s: DeckState): (c: Option<Card>)
    ensures c.Some? <==> CursorInBounds(s)
    ensures c.Some? ==> c.value == Cards(s)[s.currentCardIndex]
  {
    if HasCards(s) && s.currentCardIndex < |Cards(s)| then Some(Cards(s)[s.currentCardIndex]) else None
  }

  /** Getter `isLastCard`. */
  function IsLastCard(s: DeckState): (b: bool)
    ensures !HasCards(s) ==> b
    ensures HasCards(s) ==> (b <==> CurrentCard(s).Some? && s.currentCardIndex + 1 == |Cards(s)|)
  {
    !HasCards(s) || s.currentCardIndex == |Cards(s)| - 1
  }

  // ------------------------------------------------------- study navigation

  function NextCard(s: DeckState): (t: DeckState)
    ensures t == s.(currentCardIndex := t.currentCardIndex, showAnswer := t.showAnswer)
    ensures t.currentCardIndex != s.currentCardIndex <==> HasCards(s) && s.currentCardIndex + 1 < |Cards(s)|
    ensures t.currentCardIndex != s.currentCardIndex ==> t.currentCardIndex == s.currentCardIndex + 1 && !t.showAnswer
    ensures t.currentCardIndex == s.currentCardIndex ==> t == s
    ensures CursorInBounds(s) ==> CursorInBounds(t)
  {
    if !HasCards(s) then s
    else if s.currentCardIndex < |Cards(s)| - 1 then
      s.(currentCardIndex := s.currentCardIndex + 1, showAnswer := false)
    else s
  }

  function PreviousCard(s: DeckState): (t: DeckState)
    ensures t == s.(currentCardIndex := t.currentCardIndex, showAnswer := t.showAnswer)
    ensures t.currentCardIndex != s.currentCardIndex <==> HasCards(s) && s.currentCardIndex > 0
    ensures t.currentCardIndex != s.currentCardIndex ==> t.currentCardIndex + 1 == s.currentCardIndex && !t.showAnswer
    ensures t.currentCardIndex == s.currentCardIndex ==> t == s
    ensures CursorInBounds(s) ==> CursorInBounds(t)
  {
    if !HasCards(s) then s
    else if s.currentCardIndex > 0 then
      s.(currentCardIndex := s.currentCardIndex - 1, showAnswer := false)
    else s
  }

  function ToggleAnswer(s: DeckState): (t: DeckState)
    ensures t.showAnswer != s.showAnswer
    ensures t.(showAnswer := s.showAnswer) == s
  {
    s.(showAnswer := !s.showAnswer)
  }

  function ResetStudySession(s: DeckState): (t: DeckState)
    ensures t.decks == s.decks && t.currentDeck == s.currentDeck
    ensures t.loading == s.loading && t.error == s.error
    ensures t.currentCardIndex == 0 && !t.showAnswer && t.userAnswers == map[]
    ensures t.studyProgress == Progress(0, 0, 0)
    ensures HasCards(s) && |Cards(s)| > 0 ==> CursorInBounds(t)
  {
    s.(currentCardIndex := 0, userAnswers := map[], showAnswer := false,
       studyProgress := Progress(0, 0, 0))
  }

  function SetCurrentDeck(s: DeckState, deck: Option<Deck>): (t: DeckState)
    ensures t.currentDeck == deck
    ensures t.(currentDeck := s.currentDeck) == s
  {
    s.(currentDeck := deck)
  }

  function ClearError(s: DeckState): (t: DeckState)
    ensures t.error.None?
    ensures t.(error := s.error) == s
  {
    s.(error := None)
  }

  // ------------------------------------------------------------ answers

  /** One more answer in the counters. */
  function Tally(p: Progress, isCorrect: bool): (q: Progress)
    ensures q.total == p.total + 1
    ensures isCorrect ==> q.correct == p.correct + 1 && q.incorrect == p.incorrect
    ensures !isCorrect ==> q.incorrect == p.incorrect + 1 && q.correct == p.correct
  {
    if isCorrect then p.(correct := p.correct + 1, total := p.total + 1)
    else p.(incorrect := p.incorrect + 1, total := p.total + 1)
  }

  /** Action `submitAnswer`; `response` is what the service returns for the
      current card.  The action resolves to `undefined` (here `None`) when
      there is no current card. */
  function SubmitAnswer(s: DeckState, answer: string, response: Result<Verdict, Error>)
    : (r: Step<DeckState, Result<Option<Verdict>, Error>>)
    ensures r.state.decks == s.decks && r.state.currentDeck == s.currentDeck
    ensures r.state.currentCardIndex == s.currentCardIndex && r.state.showAnswer == s.showAnswer
    ensures Balanced(s.studyProgress) ==> Balanced(r.state.studyProgress)
    ensures CurrentCard(s).None? ==> r.state == s && r.out == Success(None)
    ensures CurrentCard(s).Some? && response.Failure? ==>
              r.state == Failed(s, response.error) && r.out == Failure(response.error)
    ensures CurrentCard(s).Some? && response.Success? ==>
              && r.out == Success(Some(response.value))
              && !r.state.loading && r.state.error == s.error
              && r.state.studyProgress == Tally(s.studyProgress, response.value.isCorrect)
              && r.state.userAnswers ==
                 s.userAnswers[CurrentCard(s).value.id := AnswerRecord(answer, response.value.isCorrect)]
  {
    match CurrentCard(s)
    case None => Step(s, Success(None))
    case Some(card) =>
      match response
      case Failure(e) => Step(Failed(s, e), Failure(e))
      case Success(v) =>
        Step(s.(userAnswers := s.userAnswers[card.id := AnswerRecord(answer, v.isCorrect)],
                studyProgress := Tally(s.studyProgress, v.isCorrect),
                loading := false),
             Success(Some(v)))
  }

  /** One call of `submitAnswer` and the service's reply to it. */
  datatype Attempt = Attempt(answer: string, response: Result<Verdict, Error>)

  /** Calls of `submitAnswer` one after another. */
  function SubmitAll(s: DeckState, attempts: seq<Attempt>): DeckState
    decreases |attempts|
  {
    if attempts == [] then s
    else SubmitAll(SubmitAnswer(s, attempts[0].answer, attempts[0].response).state, attempts[1..])
  }

  /** How many of the attempts the service judged with verdict `isCorrect`. */
  function Judged(attempts: seq<Attempt>, isCorrect: bool): nat
    decreases |attempts|
  {
    if attempts == [] then 0
    else (if attempts[0].response.Success? && attempts[0].response.value.isCorrect == isCorrect then 1 else 0)
         + Judged(attempts[1..], isCorrect)
  }

  // ------------------------------------------------------------ deck list

  /** Action `fetchDecks`: a failure is recorded in `error` but not rethrown. */
  function FetchDecks(s: DeckState, response: Result<seq<Deck>, Error>): (t: DeckState)
    ensures !t.loading
    ensures response.Success? ==> t == s.(decks := response.value, loading := false)
    ensures response.Failure? ==> t == Failed(s, response.error)
  {
    match response
    case Success(ds) => s.(decks := ds, loading := false)
    case Failure(e) => Failed(s, e)
  }

  function CreateDeck(s: DeckState, response: Result<Deck, Error>): (r: Step<DeckState, Result<Deck, Error>>)
    ensures r.out == response
    ensures response.Success? ==>
              && r.state == s.(decks := r.state.decks, loading := false)
              && |r.state.decks| == |s.decks| + 1
              && r.state.decks[..|s.decks|] == s.decks
              && r.state.decks[|s.decks|] == response.value
    ensures response.Failure? ==> r.state == Failed(s, response.error)
  {
    match response
    case Success(d) => Step(s.(decks := s.decks + [d], loading := false), Success(d))
    case Failure(e) => Step(Failed(s, e), Failure(e))
  }

  /** `ds[i]` is the first deck whose id is `id`. */
  predicate IsFirstWithId(ds: seq<Deck>, i: int, id: Id) {
    0 <= i < |ds| && ds[i].id == id && forall k :: 0 <= k < i ==> ds[k].id != id
  }

  /** `Array.prototype.findIndex` with the test `d.id === id`. */
  function FindIndex(ds: seq<Deck>, id: Id): (i: int)
    ensures -1 <= i < |ds|
    ensures i >= 0 ==> IsFirstWithId(ds, i, id)
    ensures i == -1 ==> forall k :: 0 <= k < |ds| ==> ds[k].id != id
    decreases |ds|
  {
    if ds == [] then -1
    else if ds[0].id == id then 0
    else
      var j := FindIndex(ds[1..], id);
      if j == -1 then -1 else j + 1
  }

  /** `decks[findIndex(...)] = updated` when some deck has the id. */
  function ReplaceFirst(ds: seq<Deck>, id: Id, updated: Deck): (r: seq<Deck>)
    ensures |r| == |ds|
    ensures forall j :: 0 <= j < |ds| ==> r[j] == if IsFirstWithId(ds, j, id) then updated else ds[j]
    ensures (forall k :: 0 <= k < |ds| ==> ds[k].id != id) ==> r == ds
  {
    var i := FindIndex(ds, id);
    if i == -1 then ds
    else
      assert forall j :: 0 <= j < |ds| && IsFirstWithId(ds, j, id) ==> j == i;
      ds[i := updated]
  }

  function UpdateDeck(s: DeckState, deckId: Id, response: Result<Deck, Error>)
    : (r: Step<DeckState, Result<Deck, Error>>)
    ensures r.out == response
    ensures response.Success? ==>
              r.state == s.(decks := ReplaceFirst(s.decks, deckId, response.value), loading := false)
    ensures response.Failure? ==> r.state == Failed(s, response.error)
  {
    match response
    case Success(d) => Step(s.(decks := ReplaceFirst(s.decks, deckId, d), loading := false), Success(d))
    case Failure(e) => Step(Failed(s, e), Failure(e))
  }

  /** `decks.filter(d => d.id !== id)` */
  function RemoveId(ds: seq<Deck>, id: Id): (r: seq<Deck>)
    ensures |r| <= |ds|
    ensures forall d :: d in r <==> d in ds && d.id != id
    decreases |ds|
  {
    if ds == [] then []
    else (if ds[0].id == id then [] else [ds[0]]) + RemoveId(ds[1..], id)
  }

  function DeleteDeck(s: DeckState, deckId: Id, response: Outcome): (r: Step<DeckState, Outcome>)
    ensures r.out == response
    ensures response.Pass? ==> r.state == s.(decks := RemoveId(s.decks, deckId), loading := false)
    ensures response.Fail? ==> r.state == Failed(s, response.error)
  {
    match response
    case Pass => Step(s.(decks := RemoveId(s.decks, deckId), loading := false), Pass)
    case Fail(e) => Step(Failed(s, e), Fail(e))
  }

  /** Action `addCard`: the new card is pushed onto the current deck only when
      that deck is the one the card was created in. */
  function AddCard(s: DeckState, deckId: Id, response: Result<Card, Error>)
    : (r: Step<DeckState, Result<Card, Error>>)
    ensures r.out == response
    ensures response.Failure? ==> r.state == Failed(s, response.error)
    ensures response.Success? ==>
              && r.state == s.(currentDeck := r.state.currentDeck, loading := false)
              && (s.currentDeck.Some? && s.currentDeck.value.id == deckId ==>
                    && HasCards(r.state)
                    && r.state.currentDeck.value == s.currentDeck.value.(cards := Some(Cards(r.state)))
                    && Cards(r.state) == CardsOrEmpty(s.currentDeck.value) + [response.value])
              && (s.currentDeck.None? || s.currentDeck.value.id != deckId ==>
                    r.state.currentDeck == s.currentDeck)
    ensures CursorInBounds(s) ==> CursorInBounds(r.state)
  {
    match response
    case Failure(e) => Step(Failed(s, e), Failure(e))
    case Success(c) =>
      if s.currentDeck.Some? && s.currentDeck.value.id == deckId then
        var d := s.currentDeck.value;
        Step(s.(currentDeck := Some(d.(cards := Some(CardsOrEmpty(d) + [c]))), loading := false), Success(c))
      else
        Step(s.(loading := false), Success(c))
  }

  /** Action `fetchDeck`: the fetched deck becomes current and the study
      session starts over. */
  function FetchDeck(s: DeckState, response: Result<Deck, Error>): (r: Step<DeckState, Result<Deck, Error>>)
    ensures r.out == response
    ensures response.Failure? ==> r.state == Failed(s, response.error)
    ensures response.Success? ==>
              && r.state.currentDeck == Some(response.value)
              && r.state.decks == s.decks && r.state.error == s.error && !r.state.loading
              && r.state.currentCardIndex == 0 && !r.state.showAnswer
              && r.state.userAnswers == map[] && r.state.studyProgress == Progress(0, 0, 0)
              && (response.value.cards.Some? && |response.value.cards.value| > 0 ==> CursorInBounds(r.state))
  {
    match response
    case Failure(e) => Step(Failed(s, e), Failure(e))
    case Success(d) =>
      var loaded := ResetStudySession(s.(currentDeck := Some(d)));
      assert HasCards(loaded) ==> Cards(loaded) == d.cards.value;
      Step(loaded.(loading := false), Success(d))
  }

  // ------------------------------------------------------------ lemmas

  /** A successful `fetchDeck` is `resetStudySession` run on the store with
      the fetched deck current, then the end of `loading`. */
  lemma FetchDeckResets(s: DeckState, d: Deck)
    ensures FetchDeck(s, Success(d)).state
            == ResetStudySession(s.(loading := true, currentDeck := Some(d))).(loading := false)
  {
  }

  /** At the last card (or with no cards) `nextCard` changes nothing, and only there. */
  lemma LastCardIffNextCardStays(s: DeckState)
    requires HasCards(s) ==> CursorInBounds(s)
    ensures IsLastCard(s) <==> NextCard(s) == s
  {
  }

  lemma ToggleAnswerTwice(s: DeckState)
    ensures ToggleAnswer(ToggleAnswer(s)) == s
  {
  }

  lemma ResetIsIdempotent(s: DeckState)
    ensures ResetStudySession(ResetStudySession(s)) == ResetStudySession(s)
  {
  }

  /** `setCurrentDeck` keeps the cursor where it was, so the cursor is in the
      new deck only if it already fitted its cards. */
  lemma SetCurrentDeckKeepsCursor(s: DeckState, d: Deck)
    ensures SetCurrentDeck(s, Some(d)).currentCardIndex == s.currentCardIndex
    ensures CursorInBounds(SetCurrentDeck(s, Some(d))) <==> d.cards.Some? && s.currentCardIndex < |d.cards.value|
  {
  }

  /** Answers change neither the deck nor the cursor. */
  lemma {:induction false} SubmitAllKeepsCursor(s: DeckState, attempts: seq<Attempt>)
    ensures SubmitAll(s, attempts).currentDeck == s.currentDeck
    ensures SubmitAll(s, attempts).currentCardIndex == s.currentCardIndex
    ensures SubmitAll(s, attempts).decks == s.decks
    decreases |attempts|
  {
    if attempts != [] {
      SubmitAllKeepsCursor(SubmitAnswer(s, attempts[0].answer, attempts[0].response).state, attempts[1..]);
    }
  }

  /** Over any run of answers on a current card, the counters grow by exactly
      the verdicts the service returned, and `correct + incorrect == total` is kept. */
  lemma {:induction false} SubmitAllTally(s: DeckState, attempts: seq<Attempt>)
    requires CursorInBounds(s)
    ensures var p := SubmitAll(s, attempts).studyProgress;
            && p.correct == s.studyProgress.correct + Judged(attempts, true)
            && p.incorrect == s.studyProgress.incorrect + Judged(attempts, false)
            && p.total == s.studyProgress.total + Judged(attempts, true) + Judged(attempts, false)
            && (Balanced(s.studyProgress) ==> Balanced(p))
    decreases |attempts|
  {
    if attempts != [] {
      var next := SubmitAnswer(s, attempts[0].answer, attempts[0].response).state;
      SubmitAllTally(next, attempts[1..]);
    }
  }

  /** With no current card every `submitAnswer` returns at once. */
  lemma {:induction false} SubmitAllWithoutCard(s: DeckState, attempts: seq<Attempt>)
    requires !CursorInBounds(s)
    ensures SubmitAll(s, attempts) == s
    decreases |attempts|
  {
    if attempts != [] {
      SubmitAllWithoutCard(s, attempts[1..]);
    }
  }

  /** `filter` distributes over concatenation: together with
      RemoveIdKeepsUnmatched this says the kept decks stay in their order. */
  lemma {:induction false} RemoveIdAppend(a: seq<Deck>, b: seq<Deck>, id: Id)
    ensures RemoveId(a + b, id) == RemoveId(a, id) + RemoveId(b, id)
    decreases |a|
  {
    if a == [] {
      assert a + b == b;
    } else {
      assert (a + b)[0] == a[0];
      assert (a + b)[1..] == a[1..] + b;
      RemoveIdAppend(a[1..], b, id);
    }
  }

  lemma {:induction false} RemoveIdKeepsUnmatched(ds: seq<Deck>, id: Id)
    requires forall k :: 0 <= k < |ds| ==> ds[k].id != id
    ensures RemoveId(ds, id) == ds
    decreases |ds|
  {
    if ds != [] {
      RemoveIdKeepsUnmatched(ds[1..], id);
    }
  }

  /** Deleting the same id twice is deleting it once. */
  lemma {:induction false} RemoveIdIdempotent(ds: seq<Deck>, id: Id)
    ensures RemoveId(RemoveId(ds, id), id) == RemoveId(ds, id)
  {
    var r := RemoveId(ds, id);
    forall k | 0 <= k < |r| ensures r[k].id != id {
      assert r[k] in r;
    }
    RemoveIdKeepsUnmatched(r, id);
  }
}
