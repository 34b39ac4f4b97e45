# Cardify flashcards: the collection and its edit session

A model of the state behind the Cardify page (`script.js`): the in-memory
list of flashcards, its copy under the `flashcards` storage key, the stored
colour theme, and the edit session (`editMode`, `originalId`). The page's
handlers become the methods of one class, `Cardify.Page`, whose fields are
that state:

- **Save** trims both inputs and refuses the save (showing the error) if
  either is empty. In edit mode it filters out every record with
  `originalId`, then appends a record stamped with the clock reading,
  persists the list, reloads it and leaves edit mode.
- **Delete** filters the list by id and persists it.
- **Begin edit** enters edit mode for a record's id; **Close** leaves edit
  mode and keeps `originalId`.
- **Render** reloads the list from the store, the empty list when nothing
  is stored.
- **Toggle theme** reads the stored theme ("neon" when missing or empty)
  and stores "dark" for "neon" and "neon" for anything else.

The pure pieces are functions: `Text.Trim` (trimming over an explicit set of
white-space characters), `Cards.Without` (the filter by id), `Cards.Saved`
(the list a valid save leaves), `Cards.Load`, `Theme.Current` and
`Theme.Flip`. Lemmas about them state what the handlers guarantee: how
lengths change, that filtering keeps the survivors in order and with their
multiplicities, and what a clock collision does. Nothing keeps ids distinct,
so uniqueness is not an invariant. Length facts carry explicit conditions
instead, such as `Count(cards, originalId) == 1`.

Files: `wrappers.dfy` (Option), `text.dfy`, `cards.dfy`, `theme.dfy`,
`cardify.dfy` (the class, and client methods that drive it through the
scenarios the page supports).

Behaviours of the code worth knowing when reading the model:
- Closing the panel does not reset `originalId` (script.js:29).
- Stored data that is not valid JSON makes `JSON.parse` throw; the code has
  no silent fallback to an empty list (script.js:15, 61). That path is
  left out (see below).
- An edit keeps the length only when `originalId` occurs exactly once. A
  delete shortens the list by one only when the id occurs exactly once.
  The code removes every record with the id (script.js:41, 115).

## Model

| member | source | states |
|---|---|---|
| `Text.TrimStart` | script.js:33-34 | the result is no longer than the input and does not start with white space |
| `Text.TrimEnd` | script.js:33-34 | the result is no longer than the input and does not end with white space |
| `Text.TrimStartCutsWhitespace` | script.js:33-34 | the front trim keeps a suffix of the input and everything it cuts is white space |
| `Text.TrimEndCutsWhitespace` | script.js:33-34 | the back trim keeps a prefix of the input and everything it cuts is white space |
| `Text.Trim` | script.js:33-34 | the trimmed text is no longer than the input, and neither of its ends is white space |
| `Text.TrimCutsWhitespace` | script.js:33-34 | the trimmed text is a contiguous slice of the input with only white space on either side of it |
| `Text.TrimFixed` | script.js:33-34 | text that neither starts nor ends with white space is left as it is |
| `Text.TrimEmptyIff` | script.js:36 | the trimmed text is empty exactly when the input is all white space |
| `Text.TrimIdempotent` | script.js:33-34 | trimming an already trimmed text changes nothing |
| `Text.AcceptsIff` | script.js:36 | a save passes the emptiness check exactly when both inputs hold a non-white-space character |
| `Cards.Without` | script.js:115 | the filter by id drops exactly as many records as carry the id, so the length falls by one exactly when the id occurs once |
| `Cards.CountZeroIff` | script.js:115 | an id's count is zero exactly when no record carries it |
| `Cards.CountWithout` | script.js:115 | after the filter no record carries the id, and the count of every other id is unchanged |
| `Cards.WithoutIsSubsequence` | script.js:115 | the records the filter keeps stay in their original order |
| `Cards.WithoutConcat` | script.js:115 | filtering a concatenation filters each part in place |
| `Cards.WithoutMultiset` | script.js:115 | every copy of a record with another id survives, and no record with the id does |
| `Cards.WithoutUnchangedIff` | script.js:115 | the filter leaves the list unchanged exactly when no record carries the id |
| `Cards.Saved` | script.js:41-44 | the new record is last; the length grows by one when creating, and by one minus the count of the replaced id when editing |
| `Cards.SaveCreate` | script.js:41-44 | a create-mode save keeps the old list as a prefix and grows it by exactly one |
| `Cards.SaveEdit` | script.js:41-44 | an edit of an id that occurs once keeps the length, leaves no record with the old id unless the clock repeats it, and keeps the others in order |
| `Cards.ClockCollision` | script.js:43-44 | a save whose clock reading equals an existing id makes two records share it, and deleting that id then removes both |
| `Theme.Current` | script.js:183 | a missing or empty stored theme reads as "neon"; any other stored value is used as it is |
| `Theme.Flip` | script.js:184 | the toggle always yields "neon" or "dark", and yields "dark" exactly when the current theme is "neon" |
| `Theme.FlipTwice` | script.js:182-185 | two toggles restore "neon" or "dark"; from any other value they end on "dark" |
| `Cardify.Page.constructor` | script.js:13-15 | the page starts idle with the list loaded from the store, the error hidden, and the theme read with its default and written back |
| `Cardify.Page.OpenCreate` | script.js:18-24 | opening the create panel hides the error and changes nothing else |
| `Cardify.Page.Close` | script.js:26-30 | closing leaves edit mode and changes nothing else: the list, the store and `originalId` stay |
| `Cardify.Page.BeginEdit` | script.js:87-92 | beginning an edit sets edit mode and `originalId` to the card's id, and touches neither the list nor the store |
| `Cardify.Page.Delete` | script.js:114-117 | delete sets the list to the filter by id and stores exactly that list |
| `Cardify.Page.Render` | script.js:61 | the reload replaces the list with the stored one, or with the empty list when nothing is stored; right after the list was written to the store (script.js:45, 116) the reload changes nothing |
| `Cardify.Page.Save` | script.js:32-55 | a blank field shows the error and changes nothing else; otherwise the list becomes `Saved` of the old list, the store equals it, edit mode is off, the error is hidden and `originalId` is kept |
| `Cardify.Page.ToggleTheme` | script.js:182-185 | the stored theme becomes the flip of the current one |
| `Cardify.EditScenario` | script.js:32-55 | adding a record and then editing it leaves exactly one record, the edited one with the second clock reading |
| `Cardify.DeleteScenario` | script.js:103-119 | after two saves, deleting the first id leaves only the second record when the readings differ, and nothing when they are equal |
| `Cardify.BlankScenario` | script.js:36-39 | a save with a blank question shows the error and leaves the loaded list and the store as they were |
| `Cardify.ThemeScenario` | script.js:179-185 | with no stored theme the page starts on "neon", and two toggles store "dark" and then "neon" |

## Left out

- Cardify.Page.Save: the model assumes the DOM code in `renderCards` (script.js:63-99) never throws. In the page, card text is pasted raw into `innerHTML` (script.js:68-76). A question or answer holding markup such as `<script>` or `<!--` can swallow the rest of the template, so `querySelector` returns null and script.js:83 throws inside the render called at script.js:49. Lines 51-54 then never run: after an edit-mode save `editMode` stays true and the panel stays open. The model's `Save` always ends with `editMode` false.
- Cardify.Page.BeginEdit: the model assumes `modifyCard` never throws. Markup such as `<div class="card">` in a question can make script.js:106 throw after line 88 has set `editMode`. That leaves `editMode` true with `originalId` null or stale from an earlier closed edit, a state `Valid()` excludes. A later save then filters out that stale id (script.js:41) and deletes the card it names. The model does not capture this.
- Cardify.Page.constructor: `errorShown` starts false by assumption. The error element's initial visibility comes from the page's markup, which is not part of this model.
- DOM work is not modelled: building cards with `innerHTML`, showing and hiding the panel and list, the answer reveal toggle (script.js:83-85) and `parentDiv.remove()`.
- `disableEditButtons` (script.js:122-125) is not modelled. `Cardify.Page.BeginEdit` therefore has no "edit buttons enabled" guard. In the page, closing an edit leaves the edit buttons disabled until the next render; the model lets an edit begin at any time.
- The input fields are not state here. `Save` takes the raw question and answer text as parameters. Clearing the inputs (script.js:20-21, 51-52) and filling them from the card's rendered text on an edit (script.js:106-111) are left out.
- `loadParticles` and the particles.js library (script.js:128-166), and the DOM side of `applyTheme` (script.js:171-175), are left out. They are a foreign library configured with floating-point values.
- Local storage and JSON are not modelled as a serialiser. Each key is an `Option` field, and the JSON round trip is taken as the identity on integer ids and strings. A stored value that is not valid JSON would make `JSON.parse` throw; that path is not modelled.
- Writes to the store from another tab are not modelled.
- `Date.now()` is the `now` parameter of `Save`. Ids are unbounded integers; JavaScript numbers represent millisecond clock values exactly.
- `Text.Trim`: the white-space set is listed explicitly. It is ECMAScript's list with the Unicode space separators as of current Unicode; it is not tied to a Unicode version. JavaScript strings are UTF-16 code units, while `char` here is a Unicode scalar value.
