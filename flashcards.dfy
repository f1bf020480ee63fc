// The two flashcard carousels of the client: the generator panel of the study
// buddy (client/src/components/study-buddy/FlashcardGenerator.tsx) and the
// review widget of the dashboard (client/src/components/dashboard/FlashcardWidget.tsx).
// Each is a component whose state variables its handlers update; the state
// becomes the fields of a class, each handler a method. The cards are the
// records the server's flashcard listing returns.
module Flashcards {
  import opened Wrappers
  import opened Schema
  import opened Strings
  import Seqs

  // ---------------------------------------------------------------------------
  // The wrap-around index both carousels share.

  /** The card after index i among len cards: the last one wraps to the first. */
  function NextIndex(i: int, len: int): (r: int)
    ensures 0 <= i < len ==> 0 <= r < len && r == (i + 1) % len
  {
    if i == len - 1 then 0 else i + 1
  }

  /** The card before index i among len cards: the first one wraps to the last. */
  function PrevIndex(i: int, len: int): (r: int)
    ensures 0 <= i < len ==> 0 <= r < len && NextIndex(r, len) == i
  {
    if i == 0 then len - 1 else i - 1
  }

  /** Previous undoes next and next undoes previous, for an index in range. */
  lemma NextPrevInverse(i: int, len: int)
    requires 0 <= i < len
    ensures PrevIndex(NextIndex(i, len), len) == i
    ensures NextIndex(PrevIndex(i, len), len) == i
  {
  }

  /** The index reached from i by pressing next k times. */
  function Advance(i: int, len: int, k: nat): int {
    if k == 0 then i else NextIndex(Advance(i, len, k - 1), len)
  }

  /** Division by a positive n has one quotient and remainder. */
  lemma DivModUnique(a: int, n: int, q: int, r: int)
    requires n > 0 && a == n * q + r && 0 <= r < n
    ensures a % n == r
  {
    var k := a / n - q;
    assert n * k == r - a % n;
  }

  lemma ModSucc(x: int, n: int)
    requires n > 0
    ensures ((x % n) + 1) % n == (x + 1) % n
  {
    var q, r := x / n, x % n;
    if r == n - 1 {
      DivModUnique(x + 1, n, q + 1, 0);
      DivModUnique(r + 1, n, 1, 0);
    } else {
      DivModUnique(x + 1, n, q, r + 1);
      DivModUnique(r + 1, n, 0, r + 1);
    }
  }

  /** Pressing next k times from an index in range moves k places around the ring. */
  lemma {:induction false} AdvanceIsRotation(i: int, len: int, k: nat)
    requires 0 <= i < len
    ensures Advance(i, len, k) == (i + k) % len
  {
    if k > 0 {
      AdvanceIsRotation(i, len, k - 1);
      var prev := Advance(i, len, k - 1);
      assert prev == (i + (k - 1)) % len;
      assert Advance(i, len, k) == (prev + 1) % len;
      ModSucc(i + (k - 1), len);
    }
  }

  /** A full lap of len presses of next comes back to the starting card. */
  lemma AdvanceFullLap(i: int, len: int)
    requires 0 <= i < len
    ensures Advance(i, len, len) == i
  {
    AdvanceIsRotation(i, len, len);
    DivModUnique(i + len, len, 1, i);
  }

  /**
   * An index left past the end (the list shrank under it) is only ever
   * incremented by next: the wrap test compares with the last index alone.
   */
  lemma {:induction false} StaleIndexNeverWraps(i: int, len: int, k: nat)
    requires i >= len
    ensures Advance(i, len, k) == i + k
  {
    if k > 0 {
      StaleIndexNeverWraps(i, len, k - 1);
    }
  }

  // ---------------------------------------------------------------------------
  // FlashcardGenerator

  /** `card.materialId === materialId` for a numeric materialId. */
  function MaterialIs(id: int): Flashcard -> bool {
    (c: Flashcard) => c.materialId == Some(id)
  }

  /** The cards the material filter shows out of the fetched ones. */
  function ShownCards(cards: seq<Flashcard>, materialId: Option<int>): (r: seq<Flashcard>)
    ensures !Truthy(materialId) ==> r == cards
    ensures Truthy(materialId) ==>
              forall c :: c in r <==> c in cards && c.materialId == Some(materialId.value)
  {
    if Truthy(materialId) then Seqs.Filter(cards, MaterialIs(materialId.value)) else cards
  }

  /** Cards of the selected material survive the filter in their order; when all match, nothing is dropped. */
  lemma ShownCardsAllOfMaterial(cards: seq<Flashcard>, id: int)
    requires id != 0
    requires forall i :: 0 <= i < |cards| ==> cards[i].materialId == Some(id)
    ensures ShownCards(cards, Some(id)) == cards
  {
    Seqs.FilterAll(cards, MaterialIs(id));
  }

  /** The filter distributes over the two halves of a listing, so order is kept. */
  lemma ShownCardsAppend(a: seq<Flashcard>, b: seq<Flashcard>, materialId: Option<int>)
    ensures ShownCards(a + b, materialId) == ShownCards(a, materialId) + ShownCards(b, materialId)
  {
    if Truthy(materialId) {
      Seqs.FilterAppend(a, b, MaterialIs(materialId.value));
    }
  }

  class FlashcardGenerator {
    var displayed: seq<Flashcard>
    var currentCard: int
    var isFlipped: bool
    var isGenerating: bool

    constructor ()
      ensures displayed == [] && currentCard == 0 && !isFlipped && !isGenerating
    {
      displayed := [];
      currentCard := 0;
      isFlipped := false;
      isGenerating := false;
    }

    /** The index points at a displayed card, or there are none. */
    predicate IndexInRange()
      reads this
    {
      displayed == [] || 0 <= currentCard < |displayed|
    }

    /** `currentFlashcard`: the card at the index; none when the list is empty or the index is stale. */
    function CurrentFlashcard(): (r: Option<Flashcard>)
      reads this
      ensures r.Some? <==> 0 <= currentCard < |displayed|
      ensures r.Some? ==> r.value == displayed[currentCard]
      ensures IndexInRange() ==> (r.None? <==> displayed == [])
    {
      if 0 <= currentCard < |displayed| then Some(displayed[currentCard]) else None
    }

    /**
     * The effect on the fetched cards and the materialId prop: nothing until
     * the cards arrive, then the material's cards or all of them. The index
     * is not reset.
     */
    method ApplyFilter(flashcards: Option<seq<Flashcard>>, materialId: Option<int>)
      modifies this`displayed
      ensures flashcards.None? ==> displayed == old(displayed)
      ensures flashcards.Some? ==> displayed == ShownCards(flashcards.value, materialId)
    {
      if flashcards.Some? {
        displayed := ShownCards(flashcards.value, materialId);
      }
    }

    /** `handleNext`: unflip and move to the next card, wrapping; nothing when no card is shown. */
    method HandleNext()
      modifies this`currentCard, this`isFlipped
      ensures displayed == [] ==> currentCard == old(currentCard) && isFlipped == old(isFlipped)
      ensures displayed != [] ==> currentCard == NextIndex(old(currentCard), |displayed|) && !isFlipped
      ensures old(IndexInRange()) ==> IndexInRange()
    {
      if |displayed| > 0 {
        isFlipped := false;
        currentCard := if currentCard == |displayed| - 1 then 0 else currentCard + 1;
      }
    }

    /** `handlePrevious`: unflip and move to the previous card, wrapping; nothing when no card is shown. */
    method HandlePrevious()
      modifies this`currentCard, this`isFlipped
      ensures displayed == [] ==> currentCard == old(currentCard) && isFlipped == old(isFlipped)
      ensures displayed != [] ==> currentCard == PrevIndex(old(currentCard), |displayed|) && !isFlipped
      ensures old(IndexInRange()) ==> IndexInRange()
    {
      if |displayed| > 0 {
        isFlipped := false;
        currentCard := if currentCard == 0 then |displayed| - 1 else currentCard - 1;
      }
    }

    /** `handleCardClick`: turn the card over. */
    method HandleCardClick()
      modifies this`isFlipped
      ensures isFlipped == !old(isFlipped)
    {
      isFlipped := !isFlipped;
    }

    /** `onSubmit` up to the request: the panel shows that a generation is running. */
    method StartGenerating()
      modifies this`isGenerating
      ensures isGenerating
    {
      isGenerating := true;
    }

    /**
     * `onSubmit` after the request: on success (the new cards) they are shown
     * from the first, unflipped; on failure nothing but the running flag changes.
     */
    method FinishGenerating(outcome: Option<seq<Flashcard>>)
      modifies this
      ensures !isGenerating
      ensures outcome.Some? ==> displayed == outcome.value && currentCard == 0 && !isFlipped
      ensures outcome.None? ==>
                displayed == old(displayed) && currentCard == old(currentCard) && isFlipped == old(isFlipped)
      ensures outcome.Some? ==> IndexInRange()
    {
      if outcome.Some? {
        displayed := outcome.value;
        currentCard := 0;
        isFlipped := false;
      }
      isGenerating := false;
    }
  }

  // ---------------------------------------------------------------------------
  // FlashcardWidget

  /** `question.split('?')[0].trim()`: the question up to its first '?', trimmed. */
  function TopicOf(question: string): (r: string)
    ensures '?' !in r
    ensures r != [] ==> !IsWhitespace(r[0]) && !IsWhitespace(r[|r| - 1])
    ensures IsTrimOf(r, BeforeFirst(question, '?'))
  {
    Trim(BeforeFirst(question, '?'))
  }

  /** The topic of a question with a lead-in space and a trailing remark. */
  lemma TopicOfExample()
    ensures TopicOf(" DNA? Why") == "DNA"
  {
    var topic := "DNA";
    var head := [' '] + topic;
    BeforeFirstAt(head, '?', " Why");
    assert head + ['?'] + " Why" == " DNA? Why";
    assert IsTrimAt(topic, head, 1) by {
      assert head[1..1 + |topic|] == topic;
    }
    TrimUnique(topic, head);
  }

  /** The topic is a piece of the question, cut out of it without change. */
  lemma TopicOfIsInfix(question: string)
    ensures IsInfix(TopicOf(question), question)
  {
    InfixOfPrefix(TopicOf(question), BeforeFirst(question, '?'), question);
  }

  lemma InfixOfPrefix(r: string, head: string, s: string)
    requires IsInfix(r, head) && head <= s
    ensures IsInfix(r, s)
  {
    var a :| 0 <= a <= |head| && r <= head[a..];
    assert head[a..] <= s[a..];
  }

  /** A topic is its own topic: deriving it again changes nothing. */
  lemma TopicOfIdempotent(question: string)
    ensures TopicOf(TopicOf(question)) == TopicOf(question)
  {
    var t := TopicOf(question);
    assert BeforeFirst(t, '?') == t;
    TrimIdempotent(BeforeFirst(question, '?'));
  }

  /** What pressing "generate more" leads to. */
  datatype GenerateMoreEffect =
    | OpenedGenerator                     // `onGenerateMore()`: no cards to take a topic from
    | Requested(topic: string, ok: bool)  // a generation request; a success or an error notice
    | MissingCard                         // the index points past the cards: the lookup throws, an error notice

  class FlashcardWidget {
    /** The fetched cards; None while loading or after a failed fetch. */
    var flashcards: Option<seq<Flashcard>>
    var currentCard: int

    constructor (data: Option<seq<Flashcard>>)
      ensures flashcards == data && currentCard == 0
    {
      flashcards := data;
      currentCard := 0;
    }

    /** `flashcards?.length > 0`. */
    predicate HasCards()
      reads this
    {
      flashcards.Some? && |flashcards.value| > 0
    }

    /** `handleNext`: the next card, wrapping; nothing without cards. */
    method HandleNext()
      modifies this`currentCard
      ensures !HasCards() ==> currentCard == old(currentCard)
      ensures HasCards() ==> currentCard == NextIndex(old(currentCard), |flashcards.value|)
    {
      if flashcards.Some? && |flashcards.value| > 0 {
        currentCard := if currentCard == |flashcards.value| - 1 then 0 else currentCard + 1;
      }
    }

    /** `handlePrevious`: the previous card, wrapping; nothing without cards. */
    method HandlePrevious()
      modifies this`currentCard
      ensures !HasCards() ==> currentCard == old(currentCard)
      ensures HasCards() ==> currentCard == PrevIndex(old(currentCard), |flashcards.value|)
    {
      if flashcards.Some? && |flashcards.value| > 0 {
        currentCard := if currentCard == 0 then |flashcards.value| - 1 else currentCard - 1;
      }
    }

    /** `currentFlashcard`: none exactly when there are no cards (or the index is stale). */
    function CurrentFlashcard(): (r: Option<Flashcard>)
      reads this
      ensures !HasCards() ==> r.None?
      ensures HasCards() && 0 <= currentCard < |flashcards.value| ==> r == Some(flashcards.value[currentCard])
      ensures HasCards() && !(0 <= currentCard < |flashcards.value|) ==> r.None?
    {
      if flashcards.Some? && 0 <= currentCard < |flashcards.value| then Some(flashcards.value[currentCard])
      else None
    }

    /**
     * `handleGenerateMoreFlashcards`, with `generated` the outcome of the
     * request it would send: with cards, a request for the current card's
     * topic; without, the generator page is opened instead.
     */
    function GenerateMore(generated: bool): (e: GenerateMoreEffect)
      reads this
      ensures e.OpenedGenerator? <==> !HasCards()
      ensures e.Requested? <==> CurrentFlashcard().Some?
      ensures e.Requested? ==> e.topic == TopicOf(CurrentFlashcard().value.question) && e.ok == generated
    {
      if !(flashcards.Some? && |flashcards.value| > 0) then OpenedGenerator
      else if 0 <= currentCard < |flashcards.value| then
        Requested(TopicOf(flashcards.value[currentCard].question), generated)
      else MissingCard
    }
  }
}
