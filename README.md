# To-do editor state model

A Dafny model of the `App` component of a small React to-do editor. The state has five parts, and the model keeps them as the fields of the class `TodoApp.App`:
- the simple draft rows (`titleInputs`, a title each);
- the detailed draft rows (`descInputs`, a title and a description each);
- the committed simple tasks (`titleTasks`);
- the committed detailed tasks (`descTasks`);
- the `showErrors` flag.

Each collection is written through to a named slot of the browser's key/value storage. That storage is the field `storage`, a map from the four slot keys to the collection each slot holds.

Every handler is one method that updates those fields. Its `ensures` states the whole new state and keeps the write-through invariant `Valid()`. The handlers are: edit a draft field, add a blank row, delete a draft row, the all-or-nothing submit, and delete a task by id. The pure parts of the handlers are functions with their own lemmas:
- the trim-based validation (`some`);
- the conversion of drafts into tasks (`map` plus `trim`);
- the removal by id (`filter`);
- the `splice` that deletes a draft row.

Modules, one per file:
- `JsString` (`jsstring.dfy`): ECMAScript `String.prototype.trim` over the ECMAScript white-space and line-terminator characters, and the `IsBlank` predicate.
- `Todo` (`todo.dfy`): the three record types and the pure helpers of the handlers.
- `Storage` (`storage.dfy`): the four slots, the load-with-default rule, and the write-through predicate `Mirrors`.
- `TodoApp` (`app.dfy`): the component as the class `App`, plus the client method `BlankRowsBlockSubmit`, a short session that uses the model.

Ids are JavaScript numbers, modelled as `real`. The submit takes them from a parameter `idAt: nat -> real`:
- the k-th simple draft gets `idAt(k)`;
- the k-th detailed draft gets `idAt(|simple drafts| + k)`.

The model stands in for `Date.now() + Math.random()` this way. It claims nothing about uniqueness, and neither does the code.

A blank detailed row blocks every submit, even when every simple draft is filled. The `some` check over the detailed drafts fails on it (`src/App.tsx:88-93`). In every state reached from an empty store, or from a store this app wrote, the detailed list holds at least one row. A user who wants only simple tasks must therefore fill the detailed row too, or delete it, which leaves a blank one. `TodoApp.BlankRowsBlockSubmit` walks through this on a fresh app. A store whose detailed slot holds an empty list is different: it loads as `[]`, and then simple drafts alone can be submitted.

## Model

| member | source | states |
|---|---|---|
| JsString.IsWhitespace | src/App.tsx:87-88 | the characters `trim` strips: the ECMAScript WhiteSpace set (TAB, VT, FF, ZWNBSP and the space separators) and the LineTerminator set (LF, CR, LS, PS) |
| JsString.IsBlank | src/App.tsx:87-88 | a text made only of those characters, the empty text included |
| JsString.LeadingSpace | src/App.tsx:87-88 | the length of the leading white-space run: every character before it is white space, and the next one is not |
| JsString.TrailingSpace | src/App.tsx:87-88 | where the trailing white-space run begins: every character from it on is white space, and the one before it is not |
| JsString.Trim | src/App.tsx:99 | `trim()` is no longer than its input and neither starts nor ends with white space |
| JsString.TrimSplits | src/App.tsx:99 | `trim()` is the middle slice of its input, and the prefix and suffix it cuts off are blank |
| JsString.TrimEmptyIffBlank | src/App.tsx:87-88 | `s.trim() === ""` holds exactly when `s` is made of white space only |
| JsString.TrimIdempotent | src/App.tsx:104-105 | trimming an already trimmed text changes nothing |
| JsString.TrimUnpadded | src/App.tsx:99 | a text with no white space at either end is its own trim |
| JsString.TrimReport | src/App.tsx:104 | `" Report ".trim()` is `"Report"` |
| JsString.TrimFinishIt | src/App.tsx:105 | `"Finish it ".trim()` is `"Finish it"`: the inner space stays |
| Todo.SetField | src/App.tsx:63 | `row[field] = value` changes the named field and keeps the other one |
| Todo.TitleRowEmpty | src/App.tsx:87 | a simple draft fails the check exactly when its title is blank |
| Todo.DescRowEmpty | src/App.tsx:88 | a detailed draft fails the check exactly when its title or its description is blank |
| Todo.HasEmptyTitle | src/App.tsx:87 | `titleInputs.some(...)` as a recursion over the rows; its meaning is stated by `Todo.HasEmptyTitleIff` |
| Todo.HasEmptyTitleIff | src/App.tsx:87 | the `some` over the simple drafts is true exactly when some draft at some index has a blank title |
| Todo.HasEmptyDesc | src/App.tsx:88 | `descInputs.some(...)` as a recursion over the rows; its meaning is stated by `Todo.HasEmptyDescIff` |
| Todo.HasEmptyDescIff | src/App.tsx:88 | the `some` over the detailed drafts is true exactly when some draft has a blank title or a blank description |
| Todo.ToTitleTasks | src/App.tsx:97-100 | one task per simple draft, same length and order; task i has id `idAt(first + i)`, the trimmed title and no description |
| Todo.ToDescTasks | src/App.tsx:102-106 | one task per detailed draft, same length and order; task i has id `idAt(first + i)`, the trimmed title and the trimmed description |
| Todo.TitleTasksClean | src/App.tsx:87-100 | simple drafts that pass the check become tasks whose titles are non-empty and trimmed, with no description |
| Todo.DescTasksClean | src/App.tsx:88-106 | detailed drafts that pass the check become tasks whose title and description are non-empty and trimmed |
| Todo.RemoveById | src/App.tsx:129 | the filter drops exactly as many tasks as carry the id; it returns the list unchanged when no task has the id |
| Todo.RemoveByIdKeepsOthers | src/App.tsx:129 | a task survives the filter exactly when it was there and has another id, and each survivor keeps its multiplicity |
| Todo.RemoveByIdAppend | src/App.tsx:129 | filtering a concatenation is concatenating the filtered parts, so survivors keep their relative order |
| Todo.RemoveByIdIdempotent | src/App.tsx:127-141 | deleting the same id twice is deleting it once |
| Todo.SpliceStart | src/App.tsx:75 | where `splice(index, 1)` starts: a negative index counts from the end, and the result is clamped to the array |
| Todo.SpliceOne | src/App.tsx:75 | when the splice position is inside the array, the result is one shorter, the rows before the position stay and the rows after it move down by one; otherwise nothing changes |
| Todo.DeleteRow | src/App.tsx:73-83 | never empty; an empty list gives one blank row; at a splice position inside the list, deleting the only row gives one blank row, and otherwise the length drops by one, the rows before the position stay and the rows after it shift down; the position is that of `splice`, so a negative index counts from the end; for a non-empty list, an index past the end changes nothing |
| Storage.NamesDistinct | src/App.tsx:22-40 | the four slot names are pairwise distinct |
| Storage.Save | src/App.tsx:46-50 | `localStorage.setItem`: overwrites one slot; `Storage.LoadAfterSave` and `Storage.SaveLeavesOtherSlots` state what it does |
| Storage.Mirrors | src/App.tsx:45-51 | write-through: each draft slot holds its draft list, and reloading each task slot gives its task list |
| Storage.LoadTitleInputs | src/App.tsx:21-24 | an absent slot gives one blank simple row; a saved list comes back as it was |
| Storage.LoadDescInputs | src/App.tsx:26-29 | an absent slot gives one blank detailed row; a saved list comes back as it was |
| Storage.LoadTasks | src/App.tsx:32-40 | an absent task slot gives the empty list; a saved list comes back as it was |
| Storage.LoadAfterSave | src/App.tsx:46-50 | loading a slot right after saving into it gives back what was saved |
| Storage.SaveLeavesOtherSlots | src/App.tsx:109-119 | saving into one slot changes what no other slot loads |
| Storage.SaveAllMirrors | src/App.tsx:109-123 | after all four lists are saved, the store mirrors those four lists |
| TodoApp.App.Valid | src/App.tsx:45-51 | the invariant every handler keeps: the store mirrors the four lists |
| TodoApp.App.constructor | src/App.tsx:21-51 | the lists are loaded from the saved store with their defaults, `showErrors` is false, and the mount effects write both draft lists back |
| TodoApp.App.HandleTitleChange | src/App.tsx:54-59 | only the title at `index` changes, and its slot is saved; `showErrors` becomes false |
| TodoApp.App.HandleDescChange | src/App.tsx:61-66 | only the named field of the row at `index` changes, and its slot is saved; `showErrors` becomes false |
| TodoApp.App.AddTitleField | src/App.tsx:69 | exactly one blank simple row is appended and nothing else changes but that slot |
| TodoApp.App.AddDescField | src/App.tsx:70 | exactly one blank detailed row is appended and nothing else changes but that slot |
| TodoApp.App.DeleteTitleField | src/App.tsx:73-77 | the simple drafts become `DeleteRow` of the old ones, so they are never empty; only that slot is saved |
| TodoApp.App.DeleteDescField | src/App.tsx:79-83 | the detailed drafts become `DeleteRow` of the old ones, so they are never empty; only that slot is saved |
| TodoApp.App.HandleAddForm | src/App.tsx:86-124 | `showErrors` is set exactly when some draft has a blank field, and then nothing else changes; otherwise both task lists grow by their converted drafts, in order, both drafts reset to one blank row, and all four slots are saved |
| TodoApp.App.CommitDrafts | src/App.tsx:95-123 | the accepting half of the submit: `showErrors` is false, the converted drafts are appended, the drafts reset, and all four slots mirror the new lists |
| TodoApp.App.HandleDeleteTitleTask | src/App.tsx:127-133 | the simple tasks become the filtered list and its slot is saved; nothing else changes |
| TodoApp.App.HandleDeleteDescTask | src/App.tsx:135-141 | the detailed tasks become the filtered list and its slot is saved; nothing else changes |

## Left out

- Rendering: the JSX, the Tailwind classes, and the display-side `!input.title` check. That check uses the untrimmed title, so it can differ from the submit check. All of this is presentation.
- The real `localStorage`, `JSON.stringify` and `JSON.parse`. A slot holds the parsed collection itself, not JSON text. Malformed stored text, and a stored empty string (falsy, so treated as absent by the code), are not modelled. A slot that holds a collection of another kind falls back to the default.
- Storage quota and write failures, and storage keys other than the four slots. These belong to the browser.
- `Date.now() + Math.random()`. The clock and floating-point randomness become the parameter `idAt`. Ids are not claimed to be unique.
- React's scheduling of `useState` updates and `useEffect` runs. Each handler is one atomic transition, and each effect's save happens within the handler that changed its list.
- Shared row objects. `handleTitleChange` and `handleDescChange` copy the array shallowly and then assign into a row object that the previous state shares. The model replaces the row with a new value, so the old state is not changed through aliasing.
- Edit out of range. `HandleTitleChange` and `HandleDescChange` require `0 <= index < |drafts|`, because the code throws on a missing row. The row deletes take any integer and follow `splice`.
- Text encoding. JavaScript strings are sequences of UTF-16 code units and may hold lone surrogates; a Dafny `string` is a sequence of Unicode scalar values, so the model covers only well-formed text. Every character `trim` strips is in the Basic Multilingual Plane, so `trim` and `===` behave the same on that text.
