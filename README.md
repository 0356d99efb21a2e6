# Command Pal launcher: a Dafny model of its core logic

Command Pal is a client-side launcher for saved shell commands and bookmarked URLs. This project models
the deterministic logic underneath its React components:

- the **search-and-group projection** each palette computes: keep the entries whose lower-cased label,
  payload (command text or URL), category or group contains the lower-cased search term, then split
  them by group name, with `"General"` for entries without a group;
- the **category → icon lookup** of each palette;
- the page's **command list** and `addCommand`, which prepends a command whose id is `String(Date.now())`;
- the **hotkey test** in `useHotKey` and what a matching key event causes;
- the **form schemas** of the two dialogs, the **add-versus-edit merge** of the link dialog, and the
  form resets on submit and on open, with the validation messages each form shows.

Modules follow the source: `Types` (src/lib/types.ts), `Search` (the logic both palettes share),
`CommandPalette`, `LinkPalette`, `Page`, `Hotkey`, `AddCommandDialog` and `AddLinkDialog`. `Text`
models the JavaScript string operations used (`toLowerCase`, `includes`, `String(n)`), `JsObject`
models property lookup on an object literal, and `Schema` models the zod checks the forms use.

Modelling choices:

- The source's `label` field is called `labelText`, because `label` is a Dafny keyword.
- An optional property is an `Option`. `None` is `undefined`.
- `toLowerCase` is modelled as ASCII lower-casing (`Text.Lower`). `includes` is a left-to-right
  substring test (`Text.Includes`), proved equal to the declarative "occurs at some offset".
- zod's `.url()` is a parameter `isUrl: string -> bool` of the link dialog. It is left uninterpreted.
- `Date.now()` is a parameter `now` of `addCommand`. The seed list `INITIAL_COMMANDS` is a
  constructor parameter, because its contents are not part of this model.
- Pure expressions are functions. The grouping `reduce` mutates its accumulator. Its intended
  behaviour, over a dictionary with no inherited keys, is the loop method `Search.GroupByName`. That
  method is proved equal to a declarative definition, `Search.Grouped`: each group holds, in order,
  the entries that carry its name. The `reduce` as written, over a JavaScript `{}` that inherits
  `Object.prototype` members, is `Search.GroupAsWritten`; see "## Findings". Component state (the page's `commands`, the
  link palette's `searchTerm`, the dialogs' `open` state and form) is held in classes whose methods
  state the whole new state.
- A group dictionary is a `map`. Rendering lists the groups in `Object.entries` order. The model
  makes no claim about that order. Instead, `Search.GroupsPartition` proves that laying out the
  groups in *any* order of their names gives a permutation of the filtered list.
- `onAddCommand` is wired to the page's `addCommand`, as src/components/layout/header.tsx does.
  `onConfirm` of the link dialog goes to code outside this model, so its calls are recorded in a
  `confirmed` log.
- The dialogs' shown messages follow react-hook-form's defaults. Nothing is checked before the
  first submit (`mode: "onSubmit"`). `handleSubmit` checks the whole form and then marks it as
  submitted, after `onSubmit` has run. From then on, each edited field is checked again on its own
  (`reValidateMode: "onChange"`), and the other fields keep their messages. `reset(values)` clears the
  messages and the submitted mark, and makes `values` the form's stored defaults, which a later
  `reset()` returns to.

## Model

| member | source | states |
|---|---|---|
| Text.Lower | src/components/commands/command-palette.tsx:38-41 | lower-casing keeps the length and lowers each character independently |
| Text.LowerIdempotent | src/hooks/use-hotkey.ts:18 | lower-casing an already lower-cased string changes nothing |
| Text.IncludesIffOccurs | src/components/commands/command-palette.tsx:38-41 | `includes` holds iff the term occurs at some offset of the string |
| Text.IncludesEmpty | src/components/commands/command-palette.tsx:36-42 | every string includes the empty string |
| Text.Includes | src/components/commands/command-palette.tsx:38-41 | `s.includes(sub)`: `sub` is a prefix of `s` or of one of its suffixes; its meaning is stated by `Text.IncludesIffOccurs` |
| Text.NatToDecimal | src/app/page.tsx:14 | `String(n)` of a non-negative integer is a non-empty string of decimal digits, with no leading zero unless `n` is 0 |
| Text.IntToDecimal | src/app/page.tsx:14 | `String(n)` is non-empty and starts with a digit exactly when `n` is non-negative |
| Text.IntToDecimalRoundTrip | src/app/page.tsx:14 | reading the decimal string back yields the number |
| Text.IntToDecimalInjective | src/app/page.tsx:14 | two clock values give the same id string iff they are equal |
| JsObject.Get | src/components/commands/command-palette.tsx:24 | `obj[key]` on an object literal finds an own value iff the key is own, and an inherited member iff the key is an `Object.prototype` member that is not own |
| Search.Matches | src/components/commands/command-palette.tsx:37-41 | the `filter` callback: the lower-cased term occurs in the lower-cased label, payload or category, or in the group when present (also src/components/links/link-palette.tsx:38-42) |
| Search.EmptyTermMatches | src/components/commands/command-palette.tsx:36-42 | an empty search term matches every entry |
| Search.Filter | src/components/commands/command-palette.tsx:36-42 | the filtered list is no longer than its input and every kept entry matches |
| Search.FilterIsSubsequence | src/components/commands/command-palette.tsx:36-42 | the filtered list is a subsequence of the input, so input order is kept |
| Search.FilterCount | src/components/commands/command-palette.tsx:36-42 | each matching entry is kept as often as it occurs, and no other entry is kept |
| Search.FilterMembership | src/components/commands/command-palette.tsx:36-42 | an entry is kept iff it is in the input and matches |
| Search.FilterKeepsAll | src/components/commands/command-palette.tsx:36-42 | when every entry matches, the whole list is kept |
| Search.FilterEmptyIff | src/components/commands/command-palette.tsx:36-42 | nothing is kept iff no entry matches |
| Search.GroupName | src/components/commands/command-palette.tsx:45 | the group name is never empty; it is "General" iff the group is absent, empty or "General"; a non-empty group gives its own name |
| Search.Grouped | src/components/commands/command-palette.tsx:44-51 | the reference grouping the intended `reduce` is proved equal to: one group per group name, holding the entries with that name in order |
| Search.GroupedSnoc | src/components/commands/command-palette.tsx:46-49 | one reduce step: grouping a list extended by one entry appends that entry to its group, creating the group if it is new |
| Search.GroupByName | src/components/commands/command-palette.tsx:44-51 | the intended `reduce`, over a dictionary without inherited keys: the scan that pushes each entry onto its group's list yields exactly the declarative grouping; the code as written is `Search.GroupAsWritten` |
| Search.GroupContents | src/components/commands/command-palette.tsx:44-51 | a group holds exactly the entries carrying its name, each as often as in the scanned list |
| Search.GroupKeepsOrder | src/components/commands/command-palette.tsx:44-51 | within a group, entries keep their relative order from the filtered list |
| Search.GroupNonEmpty | src/components/commands/command-palette.tsx:44-51 | no group list is empty |
| Search.EachEntryInExactlyOneGroup | src/components/commands/command-palette.tsx:44-51 | each kept entry lies in the group its `group` names, or "General", and in no other group |
| Search.GroupedEmptyIff | src/components/commands/command-palette.tsx:71 | the grouped view is empty iff there was nothing to group |
| Search.GroupsPartition | src/components/commands/command-palette.tsx:71-87 | laying out the groups in any order of their names yields a permutation of the filtered list: same length and same entries |
| Search.GroupAsWritten | src/components/commands/command-palette.tsx:44-51 | the `reduce` as written over `{}`: an inherited `Object.prototype` member found under a group name is truthy, so `.push` on it throws (`None`); its behaviour is stated by `Search.GroupAsWrittenCharacterised` |
| Search.GroupAsWrittenCharacterised | src/components/commands/command-palette.tsx:44-51 | the reduce as written throws iff some group name is an `Object.prototype` member; otherwise it equals the declarative grouping |
| CommandPalette.FilteredAndGrouped | src/components/commands/command-palette.tsx:35-52 | the intended `filteredAndGroupedCommands` equals the declarative grouping of the commands the term matches; the memo as written is `CommandPalette.FilteredAndGroupedAsWritten` |
| CommandPalette.KeptIff | src/components/commands/command-palette.tsx:37-42 | a command is kept iff the lower-cased term occurs in its lower-cased label, command, category, or group when present |
| CommandPalette.KeptInOrder | src/components/commands/command-palette.tsx:36-42 | the kept commands are a subsequence of the input |
| CommandPalette.EmptyTermKeepsAll | src/components/commands/command-palette.tsx:36-42 | with an empty term every command is kept, and the view is the grouping of all commands |
| CommandPalette.NothingFoundIff | src/components/commands/command-palette.tsx:71-91 | the view is empty, so "No commands found." is shown, iff no command matches |
| CommandPalette.SearchShortcut | src/components/commands/command-palette.tsx:32-33 | the two registrations fire exactly for K in either case with Meta or Ctrl held |
| CommandPalette.CategoryIcon | src/components/commands/command-palette.tsx:15-26 | the lower-cased category is looked up in the git/docker/npm/system/kubectl table, and any other category gets Cog |
| CommandPalette.CategoryIconIgnoresCase | src/components/commands/command-palette.tsx:24 | the icon does not depend on the case of the category |
| CommandPalette.CategoryIconExamples | src/components/commands/command-palette.tsx:15-26 | "Docker" gives Box, "KUBECTL" gives Container, "aws" gives Cog |
| CommandPalette.CategoryIconAsWritten | src/components/commands/command-palette.tsx:23-26 | `getCategoryIcon` as written over the object literal: an inherited `Object.prototype` member is not an icon (`None`); related to `CommandPalette.CategoryIcon` by `CommandPalette.CategoryIconAsWrittenAgrees` |
| CommandPalette.ConstructorCategoryBreaksIcon | src/components/commands/command-palette.tsx:23-26 | as written, category "Constructor" yields no icon; the intended lookup gives Cog |
| CommandPalette.CategoryIconAsWrittenAgrees | src/components/commands/command-palette.tsx:23-26 | away from `Object.prototype` member names the lookup as written gives the table icon or Cog |
| CommandPalette.FilteredAndGroupedAsWritten | src/components/commands/command-palette.tsx:35-52 | the memo as written: the filter, then `Search.GroupAsWritten`; related to the intended view by `CommandPalette.FilteredAndGroupedAsWrittenAgrees` |
| CommandPalette.ToStringGroupThrows | src/components/commands/command-palette.tsx:44-51 | as written, one command in group "toString" makes the reduce throw; the intended view has a "toString" group |
| CommandPalette.FilteredAndGroupedAsWrittenAgrees | src/components/commands/command-palette.tsx:35-52 | the memo as written equals the intended view unless a kept command's group name is an `Object.prototype` member, in which case it throws |
| LinkPalette.FilteredAndGrouped | src/components/links/link-palette.tsx:36-53 | the intended `filteredAndGroupedLinks` equals the declarative grouping of the links the term matches; the memo as written is `LinkPalette.FilteredAndGroupedAsWritten` |
| LinkPalette.KeptIff | src/components/links/link-palette.tsx:38-42 | a link is kept iff the lower-cased term occurs in its lower-cased label, URL, category, or group when present |
| LinkPalette.KeptInOrder | src/components/links/link-palette.tsx:37-43 | the kept links are a subsequence of the input |
| LinkPalette.EmptyTermKeepsAll | src/components/links/link-palette.tsx:37-43 | with an empty term every link is kept, and the view is the grouping of all links |
| LinkPalette.GroupsPartitionKept | src/components/links/link-palette.tsx:45-52 | each kept link is in exactly one group, its group or "General"; every group is non-empty and keeps the filtered order |
| LinkPalette.NothingFoundIff | src/components/links/link-palette.tsx:76-98 | the view is empty, so "No links found." is shown, iff no link matches |
| LinkPalette.Palette.constructor | src/components/links/link-palette.tsx:30 | the palette starts with an empty search term, showing every link |
| LinkPalette.Palette.SetSearchTerm | src/components/links/link-palette.tsx:70 | typing sets the search term and leaves the links alone |
| LinkPalette.Palette.ReceiveLinks | src/components/links/link-palette.tsx:55-57 | a new `links` prop resets the search term to "", so the next view shows every link |
| LinkPalette.CategoryIcon | src/components/links/link-palette.tsx:17-27 | the lower-cased category is looked up in the documentation/frameworks/styling/ai table, and any other category gets Globe |
| LinkPalette.CategoryIconIgnoresCase | src/components/links/link-palette.tsx:25 | the icon does not depend on the case of the category |
| LinkPalette.CategoryIconAsWritten | src/components/links/link-palette.tsx:24-27 | `getCategoryIcon` as written over the object literal: an inherited `Object.prototype` member is not an icon (`None`); related to `LinkPalette.CategoryIcon` by `LinkPalette.CategoryIconAsWrittenAgrees` |
| LinkPalette.ProtoCategoryBreaksIcon | src/components/links/link-palette.tsx:24-27 | as written, category "__proto__" yields no icon; the intended lookup gives Globe |
| LinkPalette.CategoryIconAsWrittenAgrees | src/components/links/link-palette.tsx:24-27 | away from `Object.prototype` member names the lookup as written gives the table icon or Globe |
| LinkPalette.FilteredAndGroupedAsWritten | src/components/links/link-palette.tsx:36-53 | the memo as written: the filter, then `Search.GroupAsWritten`, which throws on a group named after an `Object.prototype` member |
| LinkPalette.ConstructorGroupThrows | src/components/links/link-palette.tsx:45-52 | as written, one link in group "constructor" makes the reduce throw; the intended view has a "constructor" group |
| Hotkey.Fires | src/hooks/use-hotkey.ts:17-21 | the condition in `handleKeyDown`: the keys are equal after lower-casing, and each modifier whose flag is true is held; its properties are the lemmas below |
| Hotkey.FiresIgnoresCase | src/hooks/use-hotkey.ts:18 | lower-casing the registered key or the event key never changes whether the shortcut fires |
| Hotkey.UpperCaseKeyFires | src/hooks/use-hotkey.ts:18 | "K" fires a shortcut registered for "k" |
| Hotkey.RequestedModifierRequired | src/hooks/use-hotkey.ts:19-21 | when ctrl, meta or shift is requested, a firing event holds that modifier |
| Hotkey.ExtraModifiersIgnored | src/hooks/use-hotkey.ts:19-21 | holding more modifiers never stops a shortcut from firing |
| Hotkey.DefaultOptionsKeyOnly | src/hooks/use-hotkey.ts:12-21 | with the default `{}` options the test is case-insensitive key equality alone |
| Hotkey.Listener.constructor | src/hooks/use-hotkey.ts:5-15 | a new listener has run its callback for no event yet |
| Hotkey.Listener.HandleKeyDown | src/hooks/use-hotkey.ts:15-26 | on a match `preventDefault` is called and the callback runs once with the event; otherwise neither happens |
| Page.AddCommandTo | src/app/page.tsx:12-17 | the new list is one longer, its head carries the submitted label, command, category and group with the clock's decimal string as id, and its tail is the previous list |
| Page.NewIdEncodesClock | src/app/page.tsx:14 | the new head's id reads back as the clock value |
| Page.SameClockSameId | src/app/page.tsx:14 | two added commands share an id iff the clock read the same both times; nothing enforces uniqueness |
| Page.Home.constructor | src/app/page.tsx:10 | the initial state is exactly the seed list |
| Page.Home.AddCommand | src/app/page.tsx:12-17 | `addCommand` replaces the list by the prepended list |
| Schema.Check | src/components/links/add-link-dialog.tsx:31 | a field check reports nothing when it holds and one issue with its message when it fails |
| Schema.MinLength | src/components/commands/add-command-dialog.tsx:30-32 | `.min(n, message)` reports nothing iff the string has at least n characters, otherwise that message |
| AddCommandDialog.Parse | src/components/commands/add-command-dialog.tsx:29-34 | values are accepted iff the label has at least 3 characters and command and category are non-empty; accepted values pass unchanged; each failing field is reported |
| AddCommandDialog.Revalidate | src/components/commands/add-command-dialog.tsx:46-54 | after an edit, each changed field shows its own check's fresh issues, and each unchanged field shows what it showed before |
| AddCommandDialog.RevalidateAfterRejection | src/components/commands/add-command-dialog.tsx:46-54 | after a rejected submit, every later edit leaves exactly the schema's issues for the new values on show |
| AddCommandDialog.BlankLabelAccepted | src/components/commands/add-command-dialog.tsx:30 | labels are not trimmed: three spaces pass |
| AddCommandDialog.GroupIrrelevant | src/components/commands/add-command-dialog.tsx:33 | any group value, present or not, is accepted |
| AddCommandDialog.EmptyFormRejected | src/components/commands/add-command-dialog.tsx:29-54 | the all-empty default form fails on label, command and category, in that order |
| AddCommandDialog.Dialog.constructor | src/components/commands/add-command-dialog.tsx:44-54 | the dialog starts closed and not yet submitted, with the all-empty defaults and no issues |
| AddCommandDialog.Dialog.SetOpen | src/components/commands/add-command-dialog.tsx:67 | opening or closing leaves the form, its issues and its submitted mark alone |
| AddCommandDialog.Dialog.Input | src/components/commands/add-command-dialog.tsx:78-129 | editing sets the form values; before any submit the issues stay, afterwards the changed fields are checked again |
| AddCommandDialog.Dialog.HandleSubmit | src/components/commands/add-command-dialog.tsx:56-64 | valid values go to `addCommand` unchanged and without an id, then the form returns to the defaults with no issues and the dialog closes; invalid values change nothing but the shown issues, which are every failing field's; either way the form is marked submitted |
| AddCommandDialog.CorrectAfterRejection | src/components/commands/add-command-dialog.tsx:46-64 | after the empty form is submitted and rejected, whatever the user types shows exactly the schema's issues for it, so a corrected field's message disappears |
| AddLinkDialog.Parse | src/components/links/add-link-dialog.tsx:29-34 | values are accepted iff the label has at least 3 characters, the URL passes the URL check and the category is non-empty; accepted values pass unchanged; each failing field is reported |
| AddLinkDialog.Revalidate | src/components/links/add-link-dialog.tsx:47-55 | after an edit, each changed field shows its own check's fresh issues, and each unchanged field shows what it showed before |
| AddLinkDialog.RevalidateAfterRejection | src/components/links/add-link-dialog.tsx:47-55 | after a rejected submit, every later edit leaves exactly the schema's issues for the new values on show |
| AddLinkDialog.GroupIrrelevant | src/components/links/add-link-dialog.tsx:33 | any group value, present or not, is accepted |
| AddLinkDialog.Merge | src/components/links/add-link-dialog.tsx:72 | the edited link keeps the original id and takes label, URL, category and group from the form |
| AddLinkDialog.MergeUnchanged | src/components/links/add-link-dialog.tsx:72 | saving an edit without changing a field gives back the same link |
| AddLinkDialog.MergeLastWins | src/components/links/add-link-dialog.tsx:72 | editing twice equals editing once with the later values |
| AddLinkDialog.Confirm | src/components/links/add-link-dialog.tsx:68-74 | the confirmed record is an edit iff `linkToEdit` is present: the merged link when editing, the form values without an id when adding |
| AddLinkDialog.ResetValues | src/components/links/add-link-dialog.tsx:59-64 | the form is reset to `linkToEdit`'s fields when editing and to all-empty values otherwise |
| AddLinkDialog.Dialog.constructor | src/components/links/add-link-dialog.tsx:45-55 | the dialog starts closed and not yet submitted, with the form and its stored defaults taken from `linkToEdit`, and no issues |
| AddLinkDialog.Dialog.SetOpen | src/components/links/add-link-dialog.tsx:57-66 | each time the dialog opens, the form is reset from `linkToEdit`: those values are shown and stored as defaults, the issues are cleared and the submitted mark dropped; otherwise nothing but `open` changes |
| AddLinkDialog.Dialog.SetLinkToEdit | src/components/links/add-link-dialog.tsx:57-66 | a new `linkToEdit` while open resets the form from it in the same way; while closed only the prop changes |
| AddLinkDialog.Dialog.Input | src/components/links/add-link-dialog.tsx:96-147 | editing sets the form values; before any submit the issues stay, afterwards the changed fields are checked again |
| AddLinkDialog.Dialog.HandleSubmit | src/components/links/add-link-dialog.tsx:70-82 | valid values are confirmed as an add or an edit, then the form returns to its stored defaults with no issues and the dialog closes; invalid values change nothing but the shown issues, which are every failing field's; either way the form is marked submitted |
| AddLinkDialog.SaveUnchangedEdit | src/components/links/add-link-dialog.tsx:57-82 | opening the edit dialog of a valid link and saving at once confirms that same link |
| AddLinkDialog.ReopenAfterSubmit | src/components/links/add-link-dialog.tsx:57-82 | after a submit, accepted or rejected, reopening an add dialog shows the empty form and no issues, whatever was typed |
| AddLinkDialog.CorrectAfterRejection | src/components/links/add-link-dialog.tsx:47-82 | after a rejected save in an edit dialog, whatever the user types shows exactly the schema's issues for it |

## Findings

| source | as written | input that shows it | evidently intended | confidence | as-written member | corrected member |
|---|---|---|---|---|---|---|
| src/components/commands/command-palette.tsx:44-51 | `acc` is `{}`, so `acc[groupName]` finds an inherited `Object.prototype` member for group names such as "toString". That value is truthy, so no list is created, and `.push` on it throws a TypeError during render | a command whose group is "toString", with an empty search term | the command is shown under a "toString" group | high (not executed) | CommandPalette.FilteredAndGroupedAsWritten, CommandPalette.ToStringGroupThrows | CommandPalette.FilteredAndGrouped |
| src/components/links/link-palette.tsx:45-52 | the same reduce over `{}`: a group named like an `Object.prototype` member throws on `.push` | a link whose group is "constructor", with an empty search term | the link is shown under a "constructor" group | high (not executed) | LinkPalette.FilteredAndGroupedAsWritten, LinkPalette.ConstructorGroupThrows | LinkPalette.FilteredAndGrouped |
| src/components/commands/command-palette.tsx:23-26 | `categoryIcons[category.toLowerCase()]` finds the inherited `Object` constructor for category "Constructor". That value is truthy but not an icon component, so React cannot render it | a command whose category is "Constructor" | the Cog fallback icon | high (not executed) | CommandPalette.CategoryIconAsWritten, CommandPalette.ConstructorCategoryBreaksIcon | CommandPalette.CategoryIcon |
| src/components/links/link-palette.tsx:24-27 | `categoryIcons["__proto__"]` is `Object.prototype`, which is not an icon component | a link whose category is "__proto__" | the Globe fallback icon | high (not executed) | LinkPalette.CategoryIconAsWritten, LinkPalette.ProtoCategoryBreaksIcon | LinkPalette.CategoryIcon |

## Left out

- The AI flows (src/ai/flows/command-safety-check.ts, src/ai/flows/command-explanation.ts) are calls to a hosted language model with nondeterministic output. They are not part of this model.
- The `Promise.all` pair of calls in src/components/commands/command-info-dialog.tsx, with its toasts and clipboard use, is concurrent network I/O. It is not part of this model.
- JSX rendering, toasts, `navigator.clipboard`, `window.open`, focusing the search input, and the components command-item.tsx, link-item.tsx, header.tsx (apart from its wiring of `addCommand`) and layout.tsx are presentation glue.
- Adding and removing the window `keydown` listener (src/hooks/use-hotkey.ts:28-32) is DOM I/O; only the handler is modelled.
- Persistence, the contents of `INITIAL_COMMANDS`, and the link update and delete operations behind `onEditLink` and `onDeleteLink` are not in the source shown, so they are not modelled.
- The render order of groups (`Object.entries`, which lists integer-like keys first) is not modelled; see `Search.GroupsPartition` above.
- Text.Lower: models `toLowerCase` for ASCII letters only; Unicode case mapping (which can change a string's length) is not modelled.
- Schema.MinLength: counts Unicode scalar values, while zod counts UTF-16 code units, so lengths differ for characters outside the Basic Multilingual Plane.
- Text.IntToDecimal: models `String(n)` for integers only; JavaScript switches to exponent notation at 10^21, which `Date.now()` never reaches.
- AddLinkDialog.Parse: zod's URL check is the uninterpreted parameter `isUrl`.
- AddLinkDialog.Merge: form values are taken to hold every schema field, as react-hook-form registers all four; the spread of a values object missing `group` is not modelled.
- AddLinkDialog.Dialog.SetLinkToEdit: React re-runs the effect when the `linkToEdit` reference changes; the model re-runs it when the value changes.
- An edit that changes several fields in one `Input` call stands for one change event per field; the issues come out the same, because each field's check reads only that field. The `onBlur`, `onTouched` and `all` validation modes are not modelled, since neither form selects them.
- LinkPalette.Palette.ReceiveLinks: the one render that still shows the old term before the effect runs is not modelled; the method gives the state after the effect.
- Toast notifications after a successful submission are left out as presentation.
