# Proof checklist of the build page

The page (`App.tsx`) shows a build step with a footer of four proof items — UI
built, logic working, test passed, deployed. Each item is a checkbox with a
free-text proof. This project models that checklist as immutable Dafny values:

- `wrappers.dfy` — `Option`, used for the proof input that may not be rendered and for key lookup by name.
- `checklist.dfy` (module `Checklist`) — the closed key set `Key`, the `Item` record and the
  `State` map from keys to items. It defines the starting record (`Initial`) and the two updaters
  the page hands to its state hook: `Toggle` flips one item's tick and `SetProof` stores one
  item's proof verbatim. Both copy the record and override one field of one item. It also defines
  the rendering rule: the proof input of an item appears only while the item is ticked
  (`ProofInputShown`, `ProofInput`). Lemmas state involution, last-write-wins, idempotence,
  commutation and the "unticking hides but keeps the proof" rule.
- `status.dfy` (module `StatusBadge`) — the three-valued build status, its display text and the
  badge variant the page derives from that text.
- `session.dfy` (module `Session`) — user events on the checklist (toggle, proof edit, Copy)
  and `Run`, which applies any sequence of them in order. `Run` accepts more sequences than the
  page can produce: the page renders an item's proof input only while the item is ticked, so it
  cannot send a proof edit for an unticked item. `Enabled` and `EnabledRun` pick out the events
  and sessions the page can send. Lemmas describe the record after any session: an item is
  ticked iff it was toggled an odd number of times from its start state. Its proof is the last
  one typed for it, or the starting proof if none was typed. Items no event addresses are
  untouched, and Copy never changes the record. In a session the page can send, an item that
  starts unticked and is never toggled keeps its proof.

The closed key union `'ui' | 'logic' | 'test' | 'deploy'` becomes the datatype `Key`, so an
invalid key cannot be written. Where a key arrives as text, `ParseKey` returns `None` for any
other string. The page relies on its static type for this and has no run-time check.

## Model

| member | source | states |
|---|---|---|
| Checklist.Complete | App.tsx:6-12 | the record holds an item for every key of the closed key type, as the checklist record type demands |
| Checklist.FourKeysComplete | App.tsx:4-12 | a record holding the four named keys holds an item for every key of the closed key type |
| Checklist.KeyName | App.tsx:4 | the spelling of each of the four keys: "ui", "logic", "test", "deploy" |
| Checklist.ParseKey | App.tsx:4 | a string names a key only if it is that key's spelling; every other string is rejected (`None`), so no new entry can be made up |
| Checklist.KeyNameRoundTrip | App.tsx:4 | each key's spelling reads back as that key, and distinct keys have distinct spellings |
| Checklist.Initial | App.tsx:14-19 | the starting record has all four keys, each unticked with an empty proof |
| Checklist.InitialShowsNoInput | App.tsx:14-19 | in the starting record no proof input is shown for any item |
| Checklist.Toggle | App.tsx:33-41 | the addressed item's tick is negated and its proof kept; every other item is unchanged and the key set stays the four keys |
| Checklist.ToggleInvolution | App.tsx:33-41 | toggling the same item twice gives back the original record |
| Checklist.ToggleCommute | App.tsx:33-41 | toggles of any two items can be applied in either order |
| Checklist.SetProof | App.tsx:43-51 | the addressed item's proof becomes the given string verbatim and its tick is kept; every other item is unchanged and the key set stays the four keys |
| Checklist.SetProofLastWriteWins | App.tsx:43-51 | two proof writes to the same item leave only the second |
| Checklist.SetProofIdempotent | App.tsx:43-51 | writing the same proof again changes nothing |
| Checklist.SetProofUnchanged | App.tsx:43-51 | writing back the stored proof leaves the record equal to what it was |
| Checklist.SetProofCommute | App.tsx:43-51 | proof writes to two different items can be applied in either order |
| Checklist.ToggleSetProofCommute | App.tsx:33-51 | a toggle and a proof write commute for any keys, even the same key, because they override different fields |
| Checklist.ProofInputShown | App.tsx:159 | the proof input of an item is on screen exactly while the item is ticked |
| Checklist.ProofInput | App.tsx:159-166 | the proof input of an item is rendered iff the item is ticked, and when rendered it holds the stored proof |
| Checklist.UncheckHidesButKeepsProof | App.tsx:159-166 | unticking a ticked item hides its input but keeps its proof, and ticking it again shows the same proof |
| StatusBadge.Label | App.tsx:21 | the display text of each status: "Not Started", "In Progress", "Shipped" |
| StatusBadge.NormalizeLabel | App.tsx:61-62 | "In Progress" maps to "in-progress", "Shipped" to "shipped", and exactly the other texts to "not-started" |
| StatusBadge.Variant | App.tsx:21-62 | each of the three statuses gets its own variant: not-started, in-progress, shipped |
| StatusBadge.VariantInjective | App.tsx:61-62 | the variant determines the status: distinct statuses never share a variant |
| Session.Step | App.tsx:33-59 | one event changes at most the item it addresses; pressing Copy leaves the record unchanged |
| Session.Enabled | App.tsx:159-166 | a proof edit can only be sent while its item is ticked, because only then is its input rendered; toggles and Copy can always be sent |
| Session.EnabledStepKeepsHiddenProof | App.tsx:159-166 | an event the page can send never changes the proof of an unticked item |
| Session.Run | App.tsx:33-51 | every sequence of updates keeps an item for each of the four keys |
| Session.RunAppend | App.tsx:33-51 | applying two event sequences one after the other is applying their concatenation |
| Session.RunChecked | App.tsx:33-41 | after a session an item is ticked iff its starting tick differs from the parity of its toggle count |
| Session.RunProof | App.tsx:43-51 | after a session an item's proof is the value of the last edit addressed to it, or the starting proof if there was none |
| Session.LastProof | App.tsx:43-51 | the value of the latest proof edit addressed to an item: it occurs in the session and no later edit addresses that item; no value when no edit does |
| Session.RunFrame | App.tsx:33-51 | an item that no event of the session addresses ends exactly as it started |
| Session.EnabledRunKeepsUntoggledItem | App.tsx:159-166 | in a session the page can send, an item that starts unticked and is never toggled ends exactly as it started |
| Session.CopyOnlyPreservesState | App.tsx:53-59 | a session of Copy presses only leaves the record unchanged |
| Session.UncheckKeepsTypedLink | App.tsx:150-166 | from the start, ticking UI, typing a link and unticking UI leaves UI unticked with the link kept and its input hidden, and the other items as they started |

## Left out

- The clipboard write of the Copy button (App.tsx:53-59) is an asynchronous host call whose failure is swallowed. It is modelled only as the `CopyPrompt` event, which leaves the checklist unchanged.
- The state hook and re-rendering of the UI framework are not modelled; only the pure updater functions handed to it are.
- All markup, class names, styling and placeholder texts (App.tsx:64-228) are presentation only. This includes the badge class built from the variant (App.tsx:72).
- The buttons "Build in Lovable", "It Worked", "Error" and "Add Screenshot" (App.tsx:130-143) have no handlers, so there is no behaviour to model.
- The fixed values `status`, `currentStep`, `totalSteps` and `prompt` (App.tsx:25-31) are constants, not derived from the checklist. `Variant` covers every status, the fixed `InProgress` among them.
- The page relies on its static key type alone. If a cast let some other key reach the updaters, the toggle would throw while reading the tick of a missing item (App.tsx:38). The proof edit would silently add a fifth entry holding only a proof (App.tsx:46-48). The datatype `Key` rules out both cases, so neither is modelled.
- `Run` applies proof edits whatever the tick of their item. Sequences the page cannot produce are singled out by `EnabledRun` rather than excluded.
- The checklist is not persisted or sent anywhere, and nothing in the page does so.
