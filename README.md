# Shortcut encoding and search filter of the CopyQ command form

This project models two small transformations from the CopyQ clipboard
manager's settings GUI, with the state they act on, and proves what they
promise.

* **Command form** (`src/gui/commandwidget.cpp`). A command can have local
  shortcuts and global shortcuts. The form stores each list as a list of
  strings. A global set that is switched off and has at least one shortcut
  gets the marker `"DISABLED"` appended (`serializeShortcuts`). Decoding
  (`deserializeShortcuts`) clears the shortcut button and adds back every
  entry that is not the marker, in order. It checks the "enabled" box only
  for a non-empty list without the marker. `command()` and `setCommand()`
  copy a `Command` record to and from the form. `updateWidgets()` decides
  which groups of the form are visible or enabled.
* **Search box filter** (`src/gui/filterlineedit.cpp`). In regular-expression
  mode `filter()` uses the typed text as the pattern. Otherwise it splits the
  text at white space, drops empty parts, escapes each word and joins the
  escaped words with `.*`. Case sensitivity comes from a second menu action.
  `loadSettings()` reads both flags from the settings store, and a missing
  flag reads as set. `onMenuAction()` saves both flags and announces the
  filter only when its pattern is not empty.

Files:
* `shortcuts.dfy`, module `Shortcuts`. It holds the specification of the
  encoding: `Serialized`, `WithoutMarker`, `DecodedEnabled` and `Canonical`.
  It holds the shortcut button and the check box as classes, the loop-based
  `SerializeShortcuts` and `DeserializeShortcuts`, and the round-trip lemmas.
* `commandform.dfy`, module `CommandForm`. It holds the `Command` record, the
  visibility rule `Visibility` and the `CommandWidget` class with
  `GetCommand` (the source's `command()`), `SetCommand` and `UpdateWidgets`.
* `searchfilter.dfy`, module `SearchFilter`. It holds the word splitting
  (`Split`, `SkipEmpty`, `Tokens`), the pattern builder (`Build`, with the
  reference `Join`), the `FilterLineEdit` class with `Filter`,
  `LoadSettings` and `OnMenuAction`, and the settings store as a
  `map<string, bool>`.

Modelling choices:
* A key sequence is represented by its portable text. Converting a key
  sequence to that text and parsing it back are both the identity.
* `QRegExp::escape` comes from the GUI library. Every member that needs it
  takes it as a parameter `escape: string -> string`. Only the lemmas that
  say so assume anything about it: `NonErasing`, which means a non-empty word
  never escapes to the empty string.
* `QString::split(QRegExp("\\s+"), SkipEmptyParts)` is modelled as `Tokens`.
  `Tokens` splits at every white-space character and then skips empty parts.
  `TokensRunCollapse` proves that a run of white space separates words
  exactly as one white-space character does.
* The source's builder puts `.*` in front of a word when the pattern built so
  far is non-empty, not when the word is not the first. `Build` models
  exactly that. `BuildIsJoin` shows that it equals the plain join whenever no
  escaped word is empty.
* Inside `CommandWidget`, the line edits, combo boxes and check boxes that no
  rule reads are held together in one `Details` record. They are copied one
  to one.
* An empty shortcut list decodes as disabled (src/gui/commandwidget.cpp:63),
  so an enabled empty set does not come back enabled. The model follows the
  code. `RoundTrip` and `ReencodeIffCanonical` state exactly what this
  asymmetry costs.

## Model

| member | source | states |
|---|---|---|
| `Shortcuts.Serialized` | src/gui/commandwidget.cpp:43-54 | defines the encoding: the shortcuts' texts in order, followed by `"DISABLED"` exactly when the set is disabled and non-empty |
| `Shortcuts.DecodedEnabled` | src/gui/commandwidget.cpp:63-67 | defines the decoded flag: set iff the list is non-empty and no entry anywhere is the marker |
| `Shortcuts.SerializeShortcuts` | src/gui/commandwidget.cpp:43-54 | the result begins with the shortcuts' texts in input order, one per shortcut. It is exactly one entry longer than the input iff the set is disabled and non-empty. It equals `Serialized` |
| `Shortcuts.SerializedShape` | src/gui/commandwidget.cpp:45-51 | the length is the input length, plus one when disabled and non-empty. The shortcuts are the leading part, the extra last entry is `"DISABLED"`, and an empty list encodes to the empty list whatever the flag |
| `Shortcuts.WithoutMarker` | src/gui/commandwidget.cpp:65-70 | the decoded list is no longer than the input. A string is in it iff it is in the input and is not the marker |
| `Shortcuts.WithoutMarkerCount` | src/gui/commandwidget.cpp:65-70 | the decoded list is shorter than the input by exactly the number of marker entries |
| `Shortcuts.WithoutMarkerIdentity` | src/gui/commandwidget.cpp:65-70 | a list that contains no marker decodes to itself, in the same order |
| `Shortcuts.WithoutMarkerAppend` | src/gui/commandwidget.cpp:65-70 | decoding goes entry by entry: decoding a concatenation concatenates the decodings |
| `Shortcuts.ShortcutButton.ResetShortcuts` | src/gui/commandwidget.cpp:61 | the button is left with no shortcuts |
| `Shortcuts.ShortcutButton.AddShortcut` | src/gui/commandwidget.cpp:69 | the text is appended after the button's existing shortcuts |
| `Shortcuts.ShortcutButton.ShortcutCount` | src/gui/commandwidget.cpp:233 | defines the count: the length of the button's list, which `updateWidgets` compares with 0 |
| `Shortcuts.CheckBox.SetChecked` | src/gui/commandwidget.cpp:73 | the box's checked state becomes the given value |
| `Shortcuts.DeserializeShortcuts` | src/gui/commandwidget.cpp:56-74 | earlier contents are discarded, and the button then holds the input minus every marker, in order. A given check box ends up checked iff the input is non-empty and has no marker anywhere. With no check box, only the button changes |
| `Shortcuts.RoundTrip` | src/gui/commandwidget.cpp:43-74 | for a list with no marker, decoding its encoding gives the list back. The flag comes back as given for a non-empty list and comes back false for an empty one |
| `Shortcuts.SerializedCanonical` | src/gui/commandwidget.cpp:43-54 | encoding a marker-free list always gives a canonical list: no marker, or one marker at the end after at least one shortcut |
| `Shortcuts.ReencodeIffCanonical` | src/gui/commandwidget.cpp:43-74 | re-encoding what a string list decodes to reproduces the list iff it has no marker, or has exactly one marker, at the end, after at least one shortcut |
| `CommandForm.Visibility` | src/gui/commandwidget.cpp:224-241 | the global shortcut button is enabled iff its box is checked. The in-menu group is visible iff in-menu is set. Match items and action are visible iff in-menu or automatic is set. The command group is visible iff in-menu or automatic is set, or global shortcuts are supported, checked and non-empty. The command options are hidden iff neither in-menu nor automatic is set, or the command is empty |
| `CommandForm.VisibilityNesting` | src/gui/commandwidget.cpp:236-241 | visible command options imply a visible command group and a visible match-items group. A visible in-menu group implies both. Match items and action are always shown together |
| `CommandForm.GlobalShortcutOnly` | src/gui/commandwidget.cpp:227-241 | for a command that is neither in the menu nor automatic, the command group is visible iff a supported global shortcut is checked and non-empty. Its options are then always hidden |
| `CommandForm.CommandWidget.constructor` | src/gui/commandwidget.cpp:78-84 | a new form has empty shortcut buttons, unchecked boxes and an empty command, and its flags already follow the visibility rule |
| `CommandForm.CommandWidget.UpdateWidgets` | src/gui/commandwidget.cpp:224-242 | the form's flags become the visibility rule applied to its current check boxes, global shortcut count and command text |
| `CommandForm.CommandWidget.GetCommand` | src/gui/commandwidget.cpp:123-150 | on a form whose buttons hold no marker (the form's invariant, kept by the constructor and `SetCommand`), the command is always enabled. Its local shortcuts are the button's list and never contain `"DISABLED"`. Its global shortcuts are the encoding of the global button under its check box and are always canonical. Every other field is copied from the form |
| `CommandForm.CommandWidget.SetCommand` | src/gui/commandwidget.cpp:152-176 | the form's invariant (distinct buttons, no marker in either) is kept. Every plain field is copied into the form. The local button holds the local list minus markers, and no check box changes for it. The global button and its check box hold the decoding of the global list. The flags then follow the visibility rule on the new state, as the `stateChanged`, shortcut and command-editor handlers (193-222) make them do before the setter returns |
| `CommandForm.Reload` | src/gui/commandwidget.cpp:123-176 | loading a command and reading it back yields it with `enable` set, markers removed from the local list and the global list made canonical. A command that is enabled, has no local marker and has a canonical global list comes back equal, as far as the model's fields go (see Left out) |
| `SearchFilter.Split` | src/gui/filterlineedit.cpp:88 | splitting always gives at least one part, and no part contains white space |
| `SearchFilter.IsSpace` | src/gui/filterlineedit.cpp:88 | defines the `\s` class the text is split at: tab to carriage return, space and the Unicode space, line and paragraph separators; U+0085 is not in it |
| `SearchFilter.SkipEmpty` | src/gui/filterlineedit.cpp:88 | a string is kept iff it is one of the parts and is not empty, and no parts are added |
| `SearchFilter.Tokens` | src/gui/filterlineedit.cpp:88 | every search word is non-empty and contains no white space |
| `SearchFilter.SplitOfWord` | src/gui/filterlineedit.cpp:88 | a text without white space is one piece |
| `SearchFilter.TokensOfWord` | src/gui/filterlineedit.cpp:88 | a non-empty text without white space is exactly one word. With `TokensAtSpace` this fixes the words of every text as its maximal runs of non-white-space characters |
| `SearchFilter.TokensAtSpace` | src/gui/filterlineedit.cpp:88 | the words of a text are the words before any white-space character followed by the words after it |
| `SearchFilter.TokensRunCollapse` | src/gui/filterlineedit.cpp:88 | two white-space characters in a row separate words exactly as one does, which is splitting at runs (`\s+`) |
| `SearchFilter.TokensConcat` | src/gui/filterlineedit.cpp:88 | the words, glued together in order, are the text with its white space removed, so nothing is lost or reordered |
| `SearchFilter.TokensEmptyIff` | src/gui/filterlineedit.cpp:88 | a text has no words iff it is empty or all white space |
| `SearchFilter.AppendPart` | src/gui/filterlineedit.cpp:89-91 | one builder step: `.*` goes before the new part only when the pattern built so far is non-empty |
| `SearchFilter.Build` | src/gui/filterlineedit.cpp:88-92 | the builder step applied to the parts from first to last, starting from the empty pattern |
| `SearchFilter.Pattern` | src/gui/filterlineedit.cpp:84-93 | defines the pattern: the text in regular-expression mode, otherwise the builder over the escaped words |
| `SearchFilter.Sensitivity` | src/gui/filterlineedit.cpp:81-82 | case-insensitive iff the case-insensitive action is checked |
| `SearchFilter.StoredFlag` | src/gui/filterlineedit.cpp:104-108 | a flag reads as its stored value, and as set when the key is missing |
| `SearchFilter.SaveFlags` | src/gui/filterlineedit.cpp:151-152 | the store with both flags written under `filter_regular_expression` and `filter_case_insensitive` |
| `SearchFilter.JoinSnoc` | src/gui/filterlineedit.cpp:89-91 | joining one more part adds exactly one separator and then the part at the end |
| `SearchFilter.BuildIsJoin` | src/gui/filterlineedit.cpp:88-92 | when no part is empty, the builder places exactly one `.*` between each two neighbouring parts and nowhere else |
| `SearchFilter.JoinStartsWithFirst` | src/gui/filterlineedit.cpp:88-92 | the join begins with its first part, so there is no leading separator |
| `SearchFilter.JoinEndsWithLast` | src/gui/filterlineedit.cpp:88-92 | the join ends with its last part, so there is no trailing separator |
| `SearchFilter.JoinLength` | src/gui/filterlineedit.cpp:88-92 | a join of k parts is as long as its parts plus k - 1 separators |
| `SearchFilter.PlainPatternShape` | src/gui/filterlineedit.cpp:88-92 | in plain-text mode, with non-erasing escaping, the pattern is the escaped words in order joined by `.*`. It begins with the first escaped word, ends with the last, and its length is theirs plus 2(k - 1) |
| `SearchFilter.PlainPatternEmpty` | src/gui/filterlineedit.cpp:84-93 | in plain-text mode an empty or all-white-space text gives the empty pattern. With non-erasing escaping, only such texts do |
| `SearchFilter.SaveThenLoad` | src/gui/filterlineedit.cpp:104-108 | loading after saving gives back both saved flags, and saving leaves every other key as it was. From any store, a flag whose key is missing loads as set |
| `SearchFilter.FilterLineEdit.constructor` | src/gui/filterlineedit.cpp:72-76 | a new search box has empty text, and both actions are unchecked |
| `SearchFilter.FilterLineEdit.Filter` | src/gui/filterlineedit.cpp:79-96 | in regular-expression mode the pattern is the text verbatim. In plain-text mode it is the builder run over the escaped words, and it is empty for an all-white-space text. The case sensitivity is `CaseInsensitive` iff the case-insensitive action is checked, whatever the mode and text. The method changes nothing, so repeated calls agree |
| `SearchFilter.FilterLineEdit.LoadSettings` | src/gui/filterlineedit.cpp:98-108 | each flag becomes its stored value, or set when the key is missing |
| `SearchFilter.FilterLineEdit.OnMenuAction` | src/gui/filterlineedit.cpp:148-157 | the store gets both current flags under `filter_regular_expression` and `filter_case_insensitive`. A filter is announced iff its pattern is non-empty, and it is the current filter |

## Left out

- The encoding of a key sequence as portable text, and parsing it back, belong to the GUI library. Shortcuts are their text here.
- The shortcut button's own code (`shortcutbutton.cpp`) is not part of this model. Adding a shortcut is modelled as a plain append, and any rejection of duplicates or unparsable text there is not captured.
- `QRegExp::escape`, regular-expression syntax and matching belong to the GUI library. Escaping is a parameter, and matching is not modelled.
- IsSpace: the `\s` class of the GUI library's `QRegExp` is taken to be tab to carriage return plus the Unicode separator categories, so U+0085 (NEXT LINE) does not split words here, although some versions of the library's `QChar::isSpace` count it as white space. The library's code is not part of this model. The separators are listed as of recent Unicode versions, and a Unicode-version difference in the library's category table is not captured.
- The command editor's `isEmpty()` is outside this model. It is taken to mean that the command text is empty.
- The 200 ms debounce timer, the signal/slot connections and `onTextChanged` (which only announces `filter()`) are left out as event-loop wiring.
- CommandForm.CommandWidget.SetCommand: the `stateChanged`, shortcut and command-editor handlers (src/gui/commandwidget.cpp:193-222) run synchronously inside the setters, so `updateWidgets` may run several times before `setCommand` returns. The model runs it once, on the final state, and promises only the final flags. Whether clearing the shortcut button notifies a handler is decided in `shortcutbutton.cpp`, which is not part of this model; the final flags are taken to follow the rule either way.
- Icons, `setupUi`, focus proxies, combo-box population (src/gui/commandwidget.cpp:90-111), the completer and the filter-history persistence (src/gui/filterlineedit.cpp:110-141) are left out as UI and I/O plumbing.
- The `NO_GLOBAL_SHORTCUTS` build is modelled only through `globalShortcutsSupported` in the visibility rule. Hiding the global-shortcut check box and button in the constructor under that guard (src/gui/commandwidget.cpp:86-89) is not modelled.
- The destructor's hiding of the window-title widgets on builds that are neither X11 nor Windows (src/gui/commandwidget.cpp:114-121) is left out as UI plumbing.
- CommandForm.Reload: "comes back equal" holds only for the model's `Command`. Its regular expressions are kept as pattern text only. `command()` rebuilds them with default case sensitivity and syntax (src/gui/commandwidget.cpp:127-128), while `setCommand()` keeps only the pattern (155-156), so a case-insensitive or other-syntax expression does not come back equal in the source.
- CommandForm.CommandWidget: the line edits, combo boxes, command editor and icon button are taken to return exactly the text they were given. Their own code is not part of this model.
- The settings store is a `map<string, bool>` passed in and returned. Values of other types and their conversion to bool are not modelled.
- `src/include/mainwindow.h` declares slots and fields only and has no logic to model.
