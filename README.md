# Client access rules: the rule collection

A model, in Dafny, of the client-rule collection of a configuration console
(`ClientRuleCollection`). The collection holds an ordered list of access rules
(each matches clients by key, name and address pattern and maps them to an
account); list order is match priority, and each rule's `priority` is meant
to be its index plus one. Beside the rules it keeps a snapshot of the last
server-confirmed rule records (`original`), the option lists the editor offers
for keys, names and addresses (each headed by an "Any" sentinel) and the
account options (headed by a "None" sentinel) with their index by value.

Layout:

- `wrappers.dfy` — `Option` (a value that may be JavaScript `null`) and
  `Outcome` (how a promise settles).
- `rules.dfy` (module `RuleValues`) — rule records and the value-level meaning
  of every local edit: `Renumbered` (`updatePriorities`), `Viewed` (`reset`),
  `Created` (`create`), `Deleted` (`delete`), `Loaded` (`updateRules`), the
  invariant `Contiguous` (priorities are 1..N in list order) and the lemmas
  relating them, including that any sequence of creates and deletes keeps
  priorities 1..N.
- `choices.dfy` (module `Choices`) — the option lists `updateClients` and
  `updateAccounts` build, and the index by value (`_.indexBy`).
- `render.dfy` (module `Render`) — `renderClient`, with parsers that recover
  the escaped fields from its markup.
- `collection.dfy` (module `Collection`) — `ClientRule` and
  `ClientRuleCollection` as classes whose methods update their fields in place,
  each method's new state tied to the value-level functions through
  `States()`.

Behaviour on null and unnumbered input:

- `discard` before any rules were loaded calls `updateRules(null)`: the
  snapshot stays null and `_.map(null, …)` gives an empty list, so the
  collection ends with no rules and does not fail. `Discard` models exactly
  that (`original.GetOr([])`).
- `create`, `delete` and `updatePriorities` dereference `this.rules`, which is
  null until the first `updateRules`; the model requires `loaded` for them.
  `reset` and `save` iterate with lodash, which treats null as empty, so they
  need no such requirement.
- `updateRules` keeps the priorities the records carry; only `discard`
  renumbers after it. `LoadedNeedNotBeContiguous` shows a record list for
  which the loaded rules are not numbered 1..N. So a discard right after a
  successful save renumbers the rules when the server's priorities are not
  1..N, and changes nothing when they are (`SaveThenDiscard`).

## Model

| member | source | states |
|---|---|---|
| `Collection.ClientRule.constructor` | app/scripts/models/configuration/rules/client/collection.js:31-45 | a rule built from a record holds that record's fields and the given mode (view unless edit is passed) |
| `Collection.ClientRule.Save` | app/scripts/models/configuration/rules/client/collection.js:101-105 | saving a rule puts it in view mode and leaves its fields as they were |
| `Collection.ClientRuleCollection.constructor` | app/scripts/models/configuration/rules/client/collection.js:12-24 | a new collection has null rules, snapshot and option lists |
| `Collection.ClientRuleCollection.Reset` | app/scripts/models/configuration/rules/client/collection.js:101-106 | every rule is in view mode afterwards; records, order and length are unchanged |
| `Collection.ClientRuleCollection.UpdatePriorities` | app/scripts/models/configuration/rules/client/collection.js:181-186 | rule i gets priority i+1; length, order and every other field of every rule are unchanged |
| `Collection.ClientRuleCollection.Create` | app/scripts/models/configuration/rules/client/collection.js:26-53 | exactly one fresh rule is appended after the old rule objects, which keep their order; the new state is `Created` of the old (earlier rules in view mode, a blank edit-mode rule with priority old length + 1); snapshot and option lists unchanged |
| `Collection.ClientRuleCollection.Delete` | app/scripts/models/configuration/rules/client/collection.js:55-67 | a rule not in the list changes nothing; otherwise its first occurrence is spliced out, the other rule objects keep their relative order, the rule is no longer in the list and keeps its own fields, and the priorities are renumbered 1..N |
| `Collection.ClientRuleCollection.UpdateRules` | app/scripts/models/configuration/rules/client/collection.js:188-197 | the snapshot becomes the records; the rules become fresh distinct objects, one per record in order, in view mode, with the record's fields (a null list gives no rules) |
| `Collection.ClientRuleCollection.Discard` | app/scripts/models/configuration/rules/client/collection.js:69-77 | the rules become the snapshot's records in order, renumbered 1..N, in view mode, held by fresh rule objects (none of the old objects stays in the list); the snapshot itself is unchanged |
| `Collection.DiscardTwice` | app/scripts/models/configuration/rules/client/collection.js:69-77 | a second discard leaves the rules exactly as the first one did |
| `Collection.ClientRuleCollection.Save` | app/scripts/models/configuration/rules/client/collection.js:108-120 | the payload is every rule's serialised form in list order; on success the reply becomes rules (fresh objects) and snapshot, on failure the call rejects with "Unable to update client rules" and rules and snapshot stay as they were |
| `Collection.ClientRuleCollection.Refresh` | app/scripts/models/configuration/rules/client/collection.js:79-99 | each reply that arrives updates its own half (options from clients; rules, as fresh objects, and snapshot from rule records); the refresh resolves iff both arrive, and otherwise rejects with the reason of a failed half |
| `Collection.RefreshOneClientOneRule` | app/scripts/models/configuration/rules/client/collection.js:79-99 | a refresh with one client and one rule record gives a key list of two options and one rule with priority 1 |
| `Collection.ClientRuleCollection.UpdateClients` | app/scripts/models/configuration/rules/client/collection.js:141-179 | the key, name and address lists become `Available` of the clients for that attribute; nothing else changes |
| `Collection.ClientRuleCollection.UpdateAccounts` | app/scripts/models/configuration/rules/client/collection.js:135-139 | the account list becomes the "None" sentinel followed by the input, and the index is `IndexByValue` of that list |
| `RuleValues.Renumbered` | app/scripts/models/configuration/rules/client/collection.js:181-186 | the renumbered list has the same length, priorities 1..N, and at each index the same rule and mode apart from priority |
| `RuleValues.RenumberedFixedIffContiguous` | app/scripts/models/configuration/rules/client/collection.js:181-186 | renumbering leaves a list unchanged if and only if its priorities are already 1..N |
| `RuleValues.RenumberedIdempotent` | app/scripts/models/configuration/rules/client/collection.js:181-186 | renumbering twice is renumbering once |
| `RuleValues.CreatedContiguousIff` | app/scripts/models/configuration/rules/client/collection.js:26-47 | after create the priorities are 1..N if and only if they were 1..N before |
| `RuleValues.CreatedShape` | app/scripts/models/configuration/rules/client/collection.js:26-47 | create adds exactly one rule at the end with key, name and address "*", account {"-", "None"}, edit mode and priority old length + 1; the earlier rules keep their records and order and are in view mode |
| `RuleValues.DeletedRecords` | app/scripts/models/configuration/rules/client/collection.js:55-67 | after deleting index k the serialised records are the old records without the k-th, in order, each with its new position as priority |
| `RuleValues.RemoveAt` | app/scripts/models/configuration/rules/client/collection.js:63 | splicing out index k keeps the elements before k in place and shifts those after it down by one |
| `RuleValues.IndexOf` | app/scripts/models/configuration/rules/client/collection.js:56-60 | the result is -1 exactly when the rule is absent, and otherwise the index of its first occurrence |
| `RuleValues.RecordsOfLoaded` | app/scripts/models/configuration/rules/client/collection.js:188-197 | reading back each loaded rule's serialised form reproduces the server records field for field |
| `RuleValues.LoadedNeedNotBeContiguous` | app/scripts/models/configuration/rules/client/collection.js:188-197 | loading records does not by itself number the rules 1..N |
| `RuleValues.EditsKeepContiguous` | app/scripts/models/configuration/rules/client/collection.js:26-67 | from priorities 1..N, any sequence of creates and deletes (of present or absent rules) keeps them 1..N |
| `Choices.ChoiceFor` | app/scripts/models/configuration/rules/client/collection.js:143-177 | the option derived from a client has sort tag 10, value and text equal to the client's attribute, and type key (with name, platform, product), name or address according to the attribute |
| `Choices.ClientChoices` | app/scripts/models/configuration/rules/client/collection.js:143-177 | one derived option per client, in input order |
| `Choices.Available` | app/scripts/models/configuration/rules/client/collection.js:141-179 | each attribute list has length clients + 1, starts with the "Any" sentinel (value "*", tag 1) which sorts before every other option, and element i+1 is derived from client i |
| `Choices.AvailableValues` | app/scripts/models/configuration/rules/client/collection.js:141-179 | a value is offered for an attribute if and only if it is "*" or some client's value of that attribute |
| `Choices.IndexByValue` | app/scripts/models/configuration/rules/client/collection.js:138 | the index has exactly the values of the list as keys, and each key maps to the last entry with that value |
| `Choices.AccountIndexSentinel` | app/scripts/models/configuration/rules/client/collection.js:135-139 | "-" is always indexed; it maps to the "None" sentinel unless an input account has value "-", and then to the last such account |
| `Render.UpTo` | app/scripts/models/configuration/rules/client/collection.js:127-132 | the part of a string before the first occurrence of a character is a prefix of it without that character, ending where that character first occurs or at the end of the string |
| `Render.UpToConcat` | app/scripts/models/configuration/rules/client/collection.js:127-132 | cutting a + b at the first c gives a when a has no c and b starts with c |
| `Render.OptionTextOfRender` | app/scripts/models/configuration/rules/client/collection.js:122-125 | a non-key option renders as the one-line option element around exactly the escaped text; a key option never renders as that element |
| `Render.ClientFieldsOfRender` | app/scripts/models/configuration/rules/client/collection.js:127-132 | a key option renders as the two-line layout whose name element is exactly the escaped client name and whose extra line is exactly escaped product + " / " + escaped key, followed by the closing `</small></div>` and nothing else, when escaping never emits '<' |
| `Render.RenderClient` | app/scripts/models/configuration/rules/client/collection.js:122-133 | every rendering is one option element: it opens with `<div class="option` and closes with `</div>`; a non-key option's escaped text follows the opening tag (the exact layouts are read back by `OptionTextOfRender` and `ClientFieldsOfRender`) |
| `RuleValues.BlankRecord` | app/scripts/models/configuration/rules/client/collection.js:33-43 | the record of a new rule matches any key, name and address ("*"), has account {"-", "None"} and the given priority |
| `RuleValues.Viewed` | app/scripts/models/configuration/rules/client/collection.js:101-106 | after reset the list has the same length and every rule keeps its record and is in view mode |
| `RuleValues.Created` | app/scripts/models/configuration/rules/client/collection.js:26-47 | after create the old rules, in view mode, come first and one blank edit-mode rule with priority old length + 1 follows |
| `RuleValues.Deleted` | app/scripts/models/configuration/rules/client/collection.js:55-67 | after deleting index k the list is one shorter, numbered 1..N, and holds the other rules in their relative order, priorities aside |
| `RuleValues.Loaded` | app/scripts/models/configuration/rules/client/collection.js:194-196 | one rule per record, in order, each holding that record and in view mode |
| `RuleValues.Records` | app/scripts/models/configuration/rules/client/collection.js:110-112 | the serialised form of the list is each rule's record, in list order |
| `Choices.AccountChoices` | app/scripts/models/configuration/rules/client/collection.js:136 | the account list is the "None" sentinel followed by the input accounts in order |
| `Collection.ClientRule.Current` | app/scripts/models/configuration/rules/client/collection.js:110-112 | a rule's serialised form carries its key, name, address, account and priority |
| `Collection.SaveThenDiscard` | app/scripts/models/configuration/rules/client/collection.js:69-120 | after a successful save the rules are the reply's records in view mode; a discard then renumbers them, and leaves them unchanged if and only if the reply's priorities are already 1..N |
| `Collection.DeleteAfterDiscard` | app/scripts/models/configuration/rules/client/collection.js:69-77 | a rule object held from before a discard has left the list, so deleting it afterwards leaves the discarded rules as they are |

## Left out

- The remote calls of `refresh` and `save` (the RPC gateway, `$q.all`, the promise plumbing): each reply is a parameter that is either the server's list or a failure; transport, timing and the rejection order when both halves of a refresh fail are not modelled beyond "one of the two reasons".
- The `$timeout`-scheduled `rule.focus()` of `create`: a UI side effect.
- `ClientRule` is not part of this model beyond what the collection relies on: its constructor is taken to copy the record's fields (its back-reference to the collection is dropped), `current()` to return those fields as a record, and `save()` only to return the rule to view mode.
- The sentinel options ("Any" and "None") are single shared objects in the source, put by reference into every list of every collection; the model treats them as immutable values, so sharing and any mutation through it are not captured.
- `angular.copy`: the snapshot is an immutable value, so later edits cannot reach it by construction.
- `renderClient`'s `escape` is an arbitrary caller-supplied function; HTML escaping itself is not modelled.
- Account options are modelled with the same option shape as the sentinel (sort tag, value, text); other fields of the caller's account records are not.
- `Collection.ClientRuleCollection.UpdateAccounts`: takes a list; with a null argument the source's `[].concat(accountFunctions, null)` appends the null itself, giving `[sentinel, null]`, and `_.indexBy` then stores that null under the key "undefined"; this is not modelled.
- `Collection.ClientRuleCollection.Create`: requires the rules to be loaded; on null rules the source throws a TypeError reading `this.rules.length`, which is not modelled as an outcome.
- `Collection.ClientRuleCollection.Delete`: requires the rules to be loaded; on null rules the source throws a TypeError calling `this.rules.indexOf`, which is not modelled as an outcome.
- `Collection.ClientRuleCollection.UpdatePriorities`: requires the rules to be loaded; on null rules the source throws a TypeError reading `this.rules.length`, which is not modelled as an outcome.
- `Collection.ClientRuleCollection.UpdateClients`: takes a list; a null `clients` argument (which lodash would map to sentinel-only lists) is not modelled.
- `app/scripts/services/authentication.js` (the session wrapper around sign-in, account lookup and browser storage) is not part of this model: its logic is a null check and a cache check around remote calls.
