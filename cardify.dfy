/** The page's state and the handlers that change it, with the DOM taken
    away: the in-memory list, its persisted copy, the stored theme and the
    edit session. */
module Cardify {

  import opened Wrappers
  import opened Text
  import opened Cards
  import opened Theme

  class Page {
    /** The in-memory list `flashcards`. */
    var flashcards: seq<Flashcard>
    /** The value under the 'flashcards' storage key; `None` when unset. */
    var store: Option<seq<Flashcard>>
    /** The value under the 'cardify-theme' storage key. */
    var themeStore: Option<string>
    var editMode: bool
    /** The id of the record being edited; `null` until the first edit. */
    var originalId: Option<int>
    /** Whether the "missing field" message is visible. */
    var errorShown: bool

    /** The edit session is `Idle` or `Editing(originalId)`: edit mode never
        holds without an id to replace. */
    ghost predicate Valid()
      reads this
    {
      editMode ==> originalId.Some?
    }

    /** The in-memory list is the one the store holds. */
    ghost predicate InSync()
      reads this
    {
      flashcards == Load(store)
    }

    /** Page load (script.js:13-15, 179-180): the list is read from the
        store, the session is idle, and the theme read with its default is
        applied and written back. */
    constructor (storedCards: Option<seq<Flashcard>>, storedTheme: Option<string>)
      ensures Valid() && InSync()
      ensures store == storedCards && flashcards == Load(storedCards)
      ensures !editMode && originalId == None && !errorShown
      ensures themeStore == Some(Current(storedTheme))
    {
      editMode := false;
      originalId := None;
      store := storedCards;
      flashcards := Load(storedCards);
      errorShown := false;
      themeStore := Some(Current(storedTheme));
    }

    /** The "add flashcard" button (script.js:18-24): hides the error. */
    method OpenCreate()
      modifies this`errorShown
      ensures !errorShown
    {
      errorShown := false;
    }

    /** The close button (script.js:26-30): leaves edit mode, keeping
        `originalId`, the list and the store. */
    method Close()
      modifies this`editMode
      ensures Valid() && !editMode
    {
      if editMode {
        editMode := false;
      }
    }

    /** An edit button (script.js:87-89 with modifyCard, 103-113): enters
        edit mode for the record `id`; the list and store are untouched. */
    method BeginEdit(id: int)
      modifies this`editMode, this`originalId
      ensures Valid() && editMode && originalId == Some(id)
    {
      editMode := true;
      originalId := Some(id);
    }

    /** A delete button (modifyCard, script.js:105, 115-116): filters the
        list by id and persists it. */
    method Delete(id: int)
      modifies this`flashcards, this`store
      ensures InSync()
      ensures flashcards == Without(old(flashcards), id)
      ensures store == Some(flashcards)
    {
      flashcards := Without(flashcards, id);
      store := Some(flashcards);
    }

    /** The reload at the top of renderCards (script.js:61). Right after a
        write of the list to the store, as in Save and Delete, reloading
        gives back the same list. */
    method Render()
      modifies this`flashcards
      ensures InSync()
      ensures flashcards == Load(store)
      ensures old(InSync()) ==> flashcards == old(flashcards)
    {
      flashcards := Load(store);
    }

    /** The save button (script.js:32-55) with the clock reading `now`.
        A blank field shows the error and changes nothing else; otherwise
        the record being edited is filtered out, the new record appended
        and persisted, the list reloaded and edit mode left. */
    method Save(question: string, answer: string, now: int) returns (saved: bool)
      requires Valid()
      modifies this`flashcards, this`store, this`editMode, this`errorShown
      ensures Valid()
      ensures saved <==> Accepts(question, answer)
      ensures !saved ==> errorShown && unchanged(this`flashcards, this`store, this`editMode)
      ensures saved ==> InSync() && !editMode && !errorShown
      ensures saved ==> store == Some(flashcards)
      ensures saved ==> flashcards == Saved(old(flashcards), Replaced(old(editMode), originalId),
                                            Flashcard(now, Trim(question), Trim(answer)))
    {
      if Trim(question) == [] || Trim(answer) == [] {
        errorShown := true;
        return false;
      }
      var card := Flashcard(now, Trim(question), Trim(answer));
      if editMode {
        flashcards := Without(flashcards, originalId.value);
      }
      flashcards := flashcards + [card];
      ghost var expected := Saved(old(flashcards), Replaced(old(editMode), originalId), card);
      assert flashcards == expected;
      store := Some(flashcards);
      errorShown := false;
      Render();
      assert flashcards == expected;
      editMode := false;
      saved := true;
    }

    /** The theme button (script.js:182-185, persisting in applyTheme at
        176): reads the stored theme with its default and stores the other. */
    method ToggleTheme()
      modifies this`themeStore
      ensures themeStore == Some(Flip(Current(old(themeStore))))
    {
      themeStore := Some(Flip(Current(themeStore)));
    }
  }

  /** From an empty store: add a record, edit it, and save the edit. One
      record remains, with the edited text and the second clock reading,
      whatever the two readings are. */
  method EditScenario(q1: string, a1: string, q2: string, a2: string, t1: int, t2: int)
    returns (cards: seq<Flashcard>)
    requires Accepts(q1, a1) && Accepts(q2, a2)
    ensures cards == [Flashcard(t2, Trim(q2), Trim(a2))]
  {
    var page := new Page(None, None);
    var ok := page.Save(q1, a1, t1);
    page.BeginEdit(t1);
    ok := page.Save(q2, a2, t2);
    cards := page.flashcards;
  }

  /** From an empty store: add two records and delete the first. With
      distinct clock readings the second remains; with equal ones the delete
      removes both. */
  method DeleteScenario(q1: string, a1: string, q2: string, a2: string, t1: int, t2: int)
    returns (cards: seq<Flashcard>)
    requires Accepts(q1, a1) && Accepts(q2, a2)
    ensures t1 != t2 ==> cards == [Flashcard(t2, Trim(q2), Trim(a2))]
    ensures t1 == t2 ==> cards == []
  {
    var page := new Page(None, None);
    var ok := page.Save(q1, a1, t1);
    ok := page.Save(q2, a2, t2);
    page.Delete(t1);
    cards := page.flashcards;
  }

  /** A blank question is refused: the error shows, the list stays as it
      was loaded and nothing is stored. */
  method BlankScenario(stored: Option<seq<Flashcard>>, question: string, answer: string, t: int)
    returns (cards: seq<Flashcard>, store: Option<seq<Flashcard>>, shown: bool)
    requires AllWhitespace(question)
    ensures cards == Load(stored) && store == stored && shown
  {
    AcceptsIff(question, answer);
    var page := new Page(stored, None);
    var ok := page.Save(question, answer, t);
    cards, store, shown := page.flashcards, page.store, page.errorShown;
  }

  /** With no theme stored, the page starts on "neon"; one toggle stores
      "dark" and a second stores "neon" again. */
  method ThemeScenario() returns (first: Option<string>, second: Option<string>)
    ensures first == Some(Dark) && second == Some(Neon)
  {
    var page := new Page(None, None);
    page.ToggleTheme();
    first := page.themeStore;
    page.ToggleTheme();
    second := page.themeStore;
  }
}
