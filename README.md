# Standups app reducer: delegate interpretation

A model of the root reducer of the Standups example app (`AppFeature`, built
with the Composable Architecture). The root state holds two things:

- the **standups list**, an ordered collection of standups keyed by id
  (`IdentifiedArrayOf<Standup>`);
- the **navigation path**, a stack of screens (`StackState<Path.State>`).
  Each element sits under a key handed out when it was pushed. A screen is a
  detail screen, a meeting screen or a record-meeting screen.

Child screens send *delegate actions* upward, and the root reducer's `Reduce`
closure interprets them:

- A detail screen's `deleteStandup` removes its standup from the list.
- A detail screen's `standupUpdated(s)` writes `s` into the list by id.
- A detail screen's `startMeeting` pushes a record screen.
- A record screen's `save(transcript:)` looks at the screen second from the top.
  If it is a detail screen, a new meeting goes first in that screen's standup.
  That standup is then written back into the list.
  With fewer than two screens on the stack, the step raises a test failure instead.

Layout:

- `Models.dfy`: `Option`, `Meeting` and `Standup`.
- `IdentifiedArray.dfy`: the standups list. It covers lookup, removal and
  replace-or-append by id, plus a filter (`Without`) that serves as a reference
  definition of removal.
- `StackState.dfy`: the navigation stack. It covers lookup by key, the key
  beneath the top (`ids.dropLast().last`), replacement in place, and append.
- `AppFeature.dfy`: the screens, the actions, the step as a pure function
  `Reduce`, and the class `Store`. `Store.Send` updates the state's sequence
  fields in place and is proved to agree with `Reduce`.
- `AppFeatureProperties.dfy`: what one step promises, case by case.

The `uuid` and `date.now` dependencies are parameters of the step. The stack's
element-id generator is the `Store.nextId` counter; the pure `Reduce` takes the
key it would hand out as a parameter. `XCTFail` becomes the `failure` message
of the step's `Outcome`.

In four places the code does something a reader might not expect, and the
model follows the code:

- A save fails on any stack with fewer than two elements, the empty stack included.
- A save ignores which element sent it (`_` at line 49). It always uses the
  element second from the top.
- A save writes the standup back with replace-or-append. So a standup that was
  deleted from the list earlier is appended again.
- `standupUpdated(s)` writes `s` under `s.id`, which need not be the id of the
  detail screen's standup.

## Model

| member | source | states |
|---|---|---|
| `IdentifiedArray.IndexOf` | Examples/Standups/Standups/AppFeature.swift:41 | the result is the first position holding that id, and it is absent exactly when no standup has the id |
| `IdentifiedArray.Lookup` | Examples/Standups/Standups/AppFeature.swift:41 | `standups[id:]` finds a standup exactly when the id is present, and the standup it finds carries that id |
| `IdentifiedArray.Remove` | Examples/Standups/Standups/AppFeature.swift:37 | `remove(id:)` keeps ids unique; the ids afterwards are the old ids minus that one; a standup stays exactly when its id differs; length drops by one only when the id was present |
| `IdentifiedArray.RemoveIsWithout` | Examples/Standups/Standups/AppFeature.swift:36-38 | removal equals the order-preserving filter of every other standup: nothing else moves or changes |
| `IdentifiedArray.Upsert` | Examples/Standups/Standups/AppFeature.swift:40-42 | `standups[id: s.id] = s`: afterwards looking up `s.id` gives `s`, every other lookup is unchanged and ids stay unique; a present id is replaced where it stands and an absent one is appended |
| `StackState.IndexOfKey` | Examples/Standups/Standups/AppFeature.swift:32 | the position of the element under a key, absent exactly when no element has that key |
| `StackState.Get` | Examples/Standups/Standups/AppFeature.swift:32 | `path[id:]` gives an element exactly when the key is on the stack, and that element is stored under the key |
| `StackState.ElementIds` | Examples/Standups/Standups/AppFeature.swift:52 | `path.ids` lists the keys in stack order, one per element |
| `StackState.DropLast` | Examples/Standups/Standups/AppFeature.swift:52 | `dropLast()` keeps every item but the last, in order, and leaves the empty sequence empty |
| `StackState.Last` | Examples/Standups/Standups/AppFeature.swift:52 | `last` is absent exactly on the empty sequence and is otherwise its final item |
| `StackState.SecondFromTop` | Examples/Standups/Standups/AppFeature.swift:52 | `path.ids.dropLast().last` exists exactly when the stack holds at least two elements, and it is the key of the element directly beneath the top |
| `StackState.Replace` | Examples/Standups/Standups/AppFeature.swift:62-69 | writing an element back under a key on the stack replaces it in place; keys, length and every other element are unchanged |
| `StackState.Append` | Examples/Standups/Standups/AppFeature.swift:45 | `path.append` under a fresh key puts the element on top, keeps everything beneath and keeps keys unique |
| `AppFeature.DetailDelegateStep` | Examples/Standups/Standups/AppFeature.swift:35-47 | `deleteStandup` keeps the path and turns the list into the order-preserving filter without that id; `standupUpdated(u)` keeps the path, makes a lookup of `u.id` give `u` and leaves every other lookup alone; `startMeeting` keeps the list and puts one record screen with the detail screen's standup on top under the fresh key; ids stay unique |
| `AppFeature.DetailAt` | Examples/Standups/Standups/AppFeature.swift:32-33 | the detail-screen case of the element under a key: present exactly when that element is a detail screen, giving its standup |
| `AppFeature.InsertMeeting` | Examples/Standups/Standups/AppFeature.swift:62-69 | if the element under the key is a detail screen, its standup gets the meeting at index 0; otherwise the path is unchanged; other elements and the keys never change |
| `AppFeature.SaveStep` | Examples/Standups/Standups/AppFeature.swift:49-74 | a save raises the failure message exactly when the stack holds fewer than two elements, and then leaves the state as it was; otherwise the stack keeps its length and keys |
| `AppFeature.Reduce` | Examples/Standups/Standups/AppFeature.swift:29-81 | a step raises the failure exactly when it is a record screen's save and the stack holds fewer than two elements; that step leaves the state as it was |
| `AppFeature.Store.constructor` | Examples/Standups/Standups/AppFeature.swift:6-9 | the initial state has an empty path and the given standups, the key generator starts at 0, and the state invariant holds |
| `AppFeature.Store.Append` | Examples/Standups/Standups/AppFeature.swift:45 | pushes under the next key from the generator, which then advances; the invariant is kept |
| `AppFeature.Store.Send` | Examples/Standups/Standups/AppFeature.swift:29-95 | the in-place update yields exactly the state and failure of `Reduce` and keeps the invariant; the key generator advances by exactly the number of elements pushed, so it never goes back; the persistence reducer captures the list as it stands after the step |
| `AppFeature.Store.OnDetailDelegate` | Examples/Standups/Standups/AppFeature.swift:31-47 | in place: nothing changes unless the key holds a detail screen, and then the state becomes what `DetailDelegateStep` gives; the key generator advances only for a push |
| `AppFeature.Store.OnSave` | Examples/Standups/Standups/AppFeature.swift:49-74 | in place: the state and failure become what `SaveStep` gives; the stack keeps its length and the key generator does not move |
| `AppFeatureProperties.DetailDelegateWithoutDetailIsIgnored` | Examples/Standups/Standups/AppFeature.swift:31-33 | a detail delegate action whose key is missing or not a detail screen changes nothing |
| `AppFeatureProperties.DeleteStandupRemovesExactly` | Examples/Standups/Standups/AppFeature.swift:36-38 | `deleteStandup` leaves the path alone and turns the list into the order-preserving filter without the screen's standup id |
| `AppFeatureProperties.StandupUpdatedUpserts` | Examples/Standups/Standups/AppFeature.swift:40-42 | after `standupUpdated(u)` the list's entry for `u.id` is `u`, every other entry and the path are unchanged, and the invariant holds |
| `AppFeatureProperties.StartMeetingPushesRecord` | Examples/Standups/Standups/AppFeature.swift:44-46 | `startMeeting` appends exactly one record screen, seeded with the detail screen's standup, under the fresh key; the list is untouched |
| `AppFeatureProperties.SaveWithoutDetailBeneathFails` | Examples/Standups/Standups/AppFeature.swift:52-59 | a save with fewer than two elements on the stack raises the failure message and changes nothing |
| `AppFeatureProperties.SavePrependsMeeting` | Examples/Standups/Standups/AppFeature.swift:62-69 | a save over a detail screen puts the meeting (fresh id, now, transcript) at index 0 of that screen's standup; the earlier meetings shift by one, the standup's other fields stay, and no other element of the stack changes |
| `AppFeatureProperties.SaveSynchronizesList` | Examples/Standups/Standups/AppFeature.swift:70-72 | after a save over a detail screen, the list's entry for the standup equals the updated snapshot on the stack, and every other entry is unchanged |
| `AppFeatureProperties.SaveOverNonDetailIsIgnored` | Examples/Standups/Standups/AppFeature.swift:62-71 | a save whose element beneath the top is not a detail screen changes nothing |
| `AppFeatureProperties.NonDelegateActionsAreIgnored` | Examples/Standups/Standups/AppFeature.swift:76-80 | any action that is not a detail or record delegate action (push, pop, other child actions, list actions) leaves the state alone |
| `AppFeatureProperties.ReducePreservesValidity` | Examples/Standups/Standups/AppFeature.swift:29-81 | every step keeps stack keys and standup ids unique, given a fresh key for a push |
| `AppFeatureProperties.SaveScenario` | Examples/Standups/Standups/AppFeature.swift:49-74 | list `[a]` with detail and record screens for `a`: saving "hello" gives `[a']` with the new meeting first, and the detail screen shows `a'` |

## Left out

- The persistence reducer's effect (lines 87-95) is not modelled: the one-second debounce, the cancellation of in-flight saves, the JSON encoding and the file write are concurrency and I/O. `Store.Send` returns only the list that the effect captures.
- `AppView` (lines 134-161) is SwiftUI rendering, and `URL.standups` (lines 163-165) is a file-system path.
- `Path.State._$id` (lines 104-115) is left out. Its meeting case returns a fresh `StateID()` each time, and its other cases defer to child states that are not part of this model.
- The child reducers `StandupsList`, `StandupDetail` and `RecordMeeting` are not part of this model. At this level they leave the root state unchanged.
- The `Scope` and `.forEach` composition (lines 26-28, 83-85, 123-130) is left out, and so are the `push` and `popFrom` stack actions that `.forEach` applies. The model covers only the `Reduce` closure, which ignores those actions.
- The stack's key generator is modelled as an increasing counter, and the standups list and the stack are sequences. The library internals behind them are not modelled.
- `Standup` keeps its id, its meetings and a title. Its other fields (attendees, duration, theme) are defined in Models.swift, which is not part of this model; the reducer only carries them along.
- Meeting ids are not required to be unique within a standup, because the reducer does not check the id the `uuid` dependency returns.
