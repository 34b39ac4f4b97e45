/** The flashcard list and the pure operations the handlers apply to it:
    filtering by id, appending a new record, and reading the stored list. */
module Cards {

  import opened Wrappers

  /** One stored record. `id` is the millisecond clock reading taken when the
      record was saved; nothing keeps ids distinct. */
  datatype Flashcard = Flashcard(id: int, question: string, answer: string)

  /** How many records carry `id`. */
  function Count(cards: seq<Flashcard>, id: int): (n: nat)
    ensures n <= |cards|
  {
    if cards == [] then 0
    else (if cards[0].id == id then 1 else 0) + Count(cards[1..], id)
  }

  /** `cards.filter(f => f.id !== id)`: every record with that id goes, every
      other record stays. */
  function Without(cards: seq<Flashcard>, id: int): (r: seq<Flashcard>)
    ensures |r| == |cards| - Count(cards, id)
  {
    if cards == [] then []
    else if cards[0].id == id then Without(cards[1..], id)
    else [cards[0]] + Without(cards[1..], id)
  }

  /** Filtering by `id` removes every record with that id and leaves the
      number of records with any other id as it was. */
  lemma {:induction false} CountWithout(cards: seq<Flashcard>, id: int, other: int)
    ensures Count(Without(cards, id), other) == if other == id then 0 else Count(cards, other)
  {
    if cards != [] {
      CountWithout(cards[1..], id, other);
      if cards[0].id != id {
        assert ([cards[0]] + Without(cards[1..], id))[1..] == Without(cards[1..], id);
      }
    }
  }

  /** `r` is `s` with some records left out and the rest in their order. */
  ghost predicate IsSubsequence(r: seq<Flashcard>, s: seq<Flashcard>)
    decreases |s|
  {
    if r == [] then true
    else if s == [] then false
    else (r[0] == s[0] && IsSubsequence(r[1..], s[1..])) || IsSubsequence(r, s[1..])
  }

  /** No record carries `id` exactly when its count is zero. */
  lemma {:induction false} CountZeroIff(cards: seq<Flashcard>, id: int)
    ensures Count(cards, id) == 0 <==> forall c :: c in cards ==> c.id != id
  {
    if cards != [] {
      CountZeroIff(cards[1..], id);
      assert forall c :: c in cards <==> c == cards[0] || c in cards[1..];
    }
  }

  lemma {:induction false} CountConcat(a: seq<Flashcard>, b: seq<Flashcard>, id: int)
    ensures Count(a + b, id) == Count(a, id) + Count(b, id)
  {
    if a != [] {
      assert (a + b)[1..] == a[1..] + b;
      CountConcat(a[1..], b, id);
    } else {
      assert a + b == b;
    }
  }

  /** Filtering keeps the records that survive in their original order. */
  lemma {:induction false} WithoutIsSubsequence(cards: seq<Flashcard>, id: int)
    ensures IsSubsequence(Without(cards, id), cards)
  {
    if cards != [] {
      WithoutIsSubsequence(cards[1..], id);
      var rest := Without(cards[1..], id);
      if cards[0].id != id {
        assert Without(cards, id)[1..] == rest;
      }
    }
  }

  /** Filtering distributes over concatenation, so each part keeps its place. */
  lemma {:induction false} WithoutConcat(a: seq<Flashcard>, b: seq<Flashcard>, id: int)
    ensures Without(a + b, id) == Without(a, id) + Without(b, id)
  {
    if a != [] {
      assert (a + b)[1..] == a[1..] + b;
      WithoutConcat(a[1..], b, id);
    } else {
      assert a + b == b;
    }
  }

  /** Filtering keeps every copy of every other record and no copy of a
      record with the removed id. */
  lemma {:induction false} WithoutMultiset(cards: seq<Flashcard>, id: int, c: Flashcard)
    ensures multiset(Without(cards, id))[c] == if c.id == id then 0 else multiset(cards)[c]
  {
    if cards != [] {
      WithoutMultiset(cards[1..], id, c);
      assert cards == [cards[0]] + cards[1..];
    }
  }

  /** The filter leaves the list as it was exactly when no record has the id. */
  lemma {:induction false} WithoutUnchangedIff(cards: seq<Flashcard>, id: int)
    ensures Without(cards, id) == cards <==> Count(cards, id) == 0
  {
    if cards != [] && Count(cards, id) == 0 {
      WithoutUnchangedIff(cards[1..], id);
      assert cards == [cards[0]] + cards[1..];
    }
  }

  /** The id a save filters out: `originalId` in edit mode, none otherwise. */
  function Replaced(editMode: bool, originalId: Option<int>): Option<int> {
    if editMode then originalId else None
  }

  /** The list a valid save leaves (script.js:41-44): the record being
      replaced, if any, filtered out, then `card` appended. */
  function Saved(cards: seq<Flashcard>, replacing: Option<int>, card: Flashcard): (r: seq<Flashcard>)
    ensures |r| > 0 && r[|r| - 1] == card
    ensures replacing.None? ==> |r| == |cards| + 1
    ensures replacing.Some? ==> |r| == |cards| + 1 - Count(cards, replacing.value)
  {
    match replacing
    case None => cards + [card]
    case Some(id) => Without(cards, id) + [card]
  }

  /** Creating appends: the earlier records stay, in order, and the list
      grows by one. */
  lemma SaveCreate(cards: seq<Flashcard>, card: Flashcard)
    ensures Saved(cards, None, card)[..|cards|] == cards
    ensures |Saved(cards, None, card)| == |cards| + 1
  {
  }

  /** Editing a record whose id occurs once keeps the length, leaves no
      record with the old id unless the new clock reading equals it, and
      keeps the other records in order ahead of the new one. */
  lemma {:induction false} SaveEdit(cards: seq<Flashcard>, originalId: int, card: Flashcard)
    requires Count(cards, originalId) == 1
    ensures |Saved(cards, Some(originalId), card)| == |cards|
    ensures Count(Saved(cards, Some(originalId), card), originalId) == if card.id == originalId then 1 else 0
    ensures IsSubsequence(Saved(cards, Some(originalId), card)[..|cards| - 1], cards)
  {
    var kept := Without(cards, originalId);
    CountWithout(cards, originalId, originalId);
    CountConcat(kept, [card], originalId);
    assert Count([card], originalId) == if card.id == originalId then 1 else 0;
    assert Saved(cards, Some(originalId), card)[..|cards| - 1] == kept;
    WithoutIsSubsequence(cards, originalId);
  }

  /** Ids are clock readings and a save never checks them: a save whose
      reading equals an existing id makes two records share it, and one
      delete of that id then removes both. */
  lemma {:induction false} ClockCollision(cards: seq<Flashcard>, card: Flashcard)
    requires Count(cards, card.id) == 1
    ensures Count(Saved(cards, None, card), card.id) == 2
    ensures |Without(Saved(cards, None, card), card.id)| == |cards| - 1
  {
    CountConcat(cards, [card], card.id);
    assert Count([card], card.id) == 1;
  }

  /** `JSON.parse(localStorage.getItem('flashcards')) || []`: the stored
      list, or the empty list when nothing is stored. */
  function Load(stored: Option<seq<Flashcard>>): seq<Flashcard> {
    match stored
    case None => []
    case Some(s) => s
  }
}
