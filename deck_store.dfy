/** The deck store of src/store/deckStore.js as an object whose actions update
    its fields in place.  Each asynchronous action runs atomically: the
    service call it awaits is a parameter holding the service's reply.  Every
    action is proved to leave the store in the state the matching function of
    DeckSpec computes, and to keep `correct + incorrect == total`. */
module DeckStore {
  import opened Common
  import DeckSpec

  class Store {
    var decks: seq<DeckSpec.Deck>
    var currentDeck: Option<DeckSpec.Deck>
    var loading: bool
    var error: Option<string>
    var currentCardIndex: nat
    var userAnswers: map<DeckSpec.Id, DeckSpec.AnswerRecord>
    var showAnswer: bool
    var studyProgress: DeckSpec.Progress

    /** The store's fields as one value. */
    function State(): DeckSpec.DeckState
      reads this
    {
      DeckSpec.DeckState(decks, currentDeck, loading, error, currentCardIndex,
                         userAnswers, showAnswer, studyProgress)
    }

    ghost predicate Valid()
      reads this
    {
      DeckSpec.Balanced(studyProgress)
    }

    constructor ()
      ensures State() == DeckSpec.Initial()
      ensures Valid()
    {
      decks := [];
      currentDeck := None;
      loading := false;
      error := None;
      currentCardIndex := 0;
      userAnswers := map[];
      showAnswer := false;
      studyProgress := DeckSpec.Progress(0, 0, 0);
    }

    /** Getter `currentCard`. */
    function CurrentCard(): (c: Option<DeckSpec.Card>)
      reads this
      ensures c == DeckSpec.CurrentCard(State())
    {
      if currentDeck.None? || currentDeck.value.cards.None? then None
      else if currentCardIndex < |currentDeck.value.cards.value| then Some(currentDeck.value.cards.value[currentCardIndex])
      else None
    }

    /** Getter `isLastCard`. */
    function IsLastCard(): (b: bool)
      reads this
      ensures b == DeckSpec.IsLastCard(State())
    {
      if currentDeck.None? || currentDeck.value.cards.None? then true
      else currentCardIndex == |currentDeck.value.cards.value| - 1
    }

    method FetchDecks(response: Result<seq<DeckSpec.Deck>, Error>)
      requires Valid()
      modifies this
      ensures State() == DeckSpec.FetchDecks(old(State()), response)
      ensures Valid()
    {
      loading := true;
      match response {
        case Success(ds) =>
          decks := ds;
        case Failure(e) =>
          error := Some(e.message);
      }
      loading := false;
    }

    method CreateDeck(response: Result<DeckSpec.Deck, Error>) returns (r: Result<DeckSpec.Deck, Error>)
      requires Valid()
      modifies this
      ensures Step(State(), r) == DeckSpec.CreateDeck(old(State()), response)
      ensures Valid()
    {
      loading := true;
      match response {
        case Success(newDeck) =>
          decks := decks + [newDeck];
          r := Success(newDeck);
        case Failure(e) =>
          error := Some(e.message);
          r := Failure(e);
      }
      loading := false;
    }

    method AddCard(deckId: DeckSpec.Id, response: Result<DeckSpec.Card, Error>)
      returns (r: Result<DeckSpec.Card, Error>)
      requires Valid()
      modifies this
      ensures Step(State(), r) == DeckSpec.AddCard(old(State()), deckId, response)
      ensures Valid()
    {
      loading := true;
      match response {
        case Success(newCard) =>
          if currentDeck.Some? && currentDeck.value.id == deckId {
            var cards := DeckSpec.CardsOrEmpty(currentDeck.value);
            currentDeck := Some(currentDeck.value.(cards := Some(cards + [newCard])));
          }
          r := Success(newCard);
        case Failure(e) =>
          error := Some(e.message);
          r := Failure(e);
      }
      loading := false;
    }

    method UpdateDeck(deckId: DeckSpec.Id, response: Result<DeckSpec.Deck, Error>)
      returns (r: Result<DeckSpec.Deck, Error>)
      requires Valid()
      modifies this
      ensures Step(State(), r) == DeckSpec.UpdateDeck(old(State()), deckId, response)
      ensures Valid()
    {
      loading := true;
      match response {
        case Success(updatedDeck) =>
          var index := DeckSpec.FindIndex(decks, deckId);
          if index != -1 {
            decks := decks[index := updatedDeck];
          }
          r := Success(updatedDeck);
        case Failure(e) =>
          error := Some(e.message);
          r := Failure(e);
      }
      loading := false;
    }

    method DeleteDeck(deckId: DeckSpec.Id, response: Outcome) returns (r: Outcome)
      requires Valid()
      modifies this
      ensures Step(State(), r) == DeckSpec.DeleteDeck(old(State()), deckId, response)
      ensures Valid()
    {
      loading := true;
      match response {
        case Pass =>
          decks := DeckSpec.RemoveId(decks, deckId);
          r := Pass;
        case Fail(e) =>
          error := Some(e.message);
          r := Fail(e);
      }
      loading := false;
    }

    method FetchDeck(response: Result<DeckSpec.Deck, Error>) returns (r: Result<DeckSpec.Deck, Error>)
      requires Valid()
      modifies this
      ensures Step(State(), r) == DeckSpec.FetchDeck(old(State()), response)
      ensures Valid()
    {
      loading := true;
      match response {
        case Success(deck) =>
          currentDeck := Some(deck);
          DeckSpec.FetchDeckResets(old(State()), deck);
          ResetStudySession();
          r := Success(deck);
        case Failure(e) =>
          error := Some(e.message);
          r := Failure(e);
      }
      loading := false;
    }

    method SubmitAnswer(answer: string, response: Result<DeckSpec.Verdict, Error>)
      returns (r: Result<Option<DeckSpec.Verdict>, Error>)
      requires Valid()
      modifies this
      ensures Step(State(), r) == DeckSpec.SubmitAnswer(old(State()), answer, response)
      ensures Valid()
    {
      var card := CurrentCard();
      if card.None? {
        return Success(None);
      }
      loading := true;
      match response {
        case Success(result) =>
          userAnswers := userAnswers[card.value.id := DeckSpec.AnswerRecord(answer, result.isCorrect)];
          if result.isCorrect {
            studyProgress := studyProgress.(correct := studyProgress.correct + 1);
          } else {
            studyProgress := studyProgress.(incorrect := studyProgress.incorrect + 1);
          }
          studyProgress := studyProgress.(total := studyProgress.total + 1);
          r := Success(Some(result));
        case Failure(e) =>
          error := Some(e.message);
          r := Failure(e);
      }
      loading := false;
    }

    method NextCard()
      requires Valid()
      modifies this
      ensures State() == DeckSpec.NextCard(old(State()))
      ensures Valid()
    {
      if currentDeck.None? || currentDeck.value.cards.None? {
        return;
      }
      if currentCardIndex < |currentDeck.value.cards.value| - 1 {
        currentCardIndex := currentCardIndex + 1;
        showAnswer := false;
      }
    }

    method PreviousCard()
      requires Valid()
      modifies this
      ensures State() == DeckSpec.PreviousCard(old(State()))
      ensures Valid()
    {
      if currentDeck.None? || currentDeck.value.cards.None? {
        return;
      }
      if currentCardIndex > 0 {
        currentCardIndex := currentCardIndex - 1;
        showAnswer := false;
      }
    }

    method ToggleAnswer()
      requires Valid()
      modifies this
      ensures State() == DeckSpec.ToggleAnswer(old(State()))
      ensures Valid()
    {
      showAnswer := !showAnswer;
    }

    /** Needs no `Valid()`: it sets the counters to zero, which re-establishes it. */
    method ResetStudySession()
      modifies this
      ensures State() == DeckSpec.ResetStudySession(old(State()))
      ensures Valid()
    {
      currentCardIndex := 0;
      userAnswers := map[];
      showAnswer := false;
      studyProgress := DeckSpec.Progress(0, 0, 0);
    }

    method SetCurrentDeck(deck: Option<DeckSpec.Deck>)
      requires Valid()
      modifies this
      ensures State() == DeckSpec.SetCurrentDeck(old(State()), deck)
      ensures Valid()
    {
      currentDeck := deck;
    }

    method ClearError()
      requires Valid()
      modifies this
      ensures State() == DeckSpec.ClearError(old(State()))
      ensures Valid()
    {
      error := None;
    }
  }
}
