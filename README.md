# demo-random-users, modelled in Dafny

The application is a single page that fetches a list of random users. It shows
them as a grid of cards next to an OpenLayers map, with one marker per user. It
has two shared stores:

- the **user store** (`UsersContext`): the collection of users and the list of
  selected users;
- the **view store** (`MapContext`): the map object, zoom, centre and markers.

Hovering a card for 600 ms selects its user. The map then centres on that user,
zooms to level 3, and draws the user's marker in a separate "selected" layer.
Moving the pointer into or out of the card grid clears the selection and zooms
back out to level 1. A card can delete its user after a confirmation. Its
details dialog edits the first name, last name and phone, and refuses fields
that are blank after trimming.

## Modules

| file | module | models |
|---|---|---|
| `types.dfy` | `Types` | the user record, the map marker (`UserPoint`), notices |
| `arrays.dfy` | `Arrays` | JavaScript `map` and `filter` on sequences, and order-preserving splits (`Interleaves`) |
| `text.dfy` | `Text` | `${n}` for integers, and `String.prototype.trim` |
| `users_context.dfy` | `UsersContext` | the user store as a class, with the list functions that specify its updates |
| `surface.dfy` | `Surface` | the OpenLayers map object, as far as the application touches it |
| `map_context.dfy` | `MapContext` | the view store as a class with four independent cells |
| `ol_map.dfy` | `OLMap` | the marker partition and the map component's effects |
| `user_card.dfy` | `UserCard` | a card's hover state machine with its two timers, delete confirmation, texts and opacity |
| `user_details_modal.dfy` | `UserDetailsModal` | the details dialog and its Save validation |
| `home_page.dfy` | `HomePage` | the load guard, the user-to-marker projection, the card list, the grid handlers, and two end-to-end hover scenarios |

How the model treats the application:

- **State cells.** Each React state cell is a field of a class. A state setter
  is a method that assigns that field only.
- **Effects.** An effect is a method that runs when its dependencies change.
- **Timers.** A timer is `Idle` or `Armed(deadline)`. Firing it is a method of
  the card.
- **Effect re-runs.** Every update of the user store gives that store's
  functions a new identity, and those functions are dependencies of both card
  effects. So every update of the user store re-runs both effects of every
  card. `Card.StoreChanged` is that step: it cancels the pending timers and
  re-arms each one whose guard still holds, with a fresh deadline. The view
  store's setters are plain state setters, whose identity never changes, so
  updates of the view store re-run no card effect.

Behaviour of the code that the model keeps as written:

- **Leaving a card does not stop its select timer.** A pass across a card
  shorter than 600 ms still selects its user (`HomePage.PassOverSelects`).
- **The deselect timer rarely matters.** It is armed only for a card whose user
  is not selected. While the store is consistent, it therefore never finds
  anything to clear (`UserCard.DeselectTimerIsInert`). The selection is cleared
  by the grid handlers (`HomePage.HoverThenLeaveGrid`).
- **Deleting every user reloads the fetched users.** The load effect stores the
  cached fetch result whenever the collection is empty, so it does so again
  after the last user is deleted. The reloaded users carry their flags as
  fetched, while `selectedUsers` still holds the user selected before, and the
  store is no longer consistent (`HomePage.ReloadAfterDeletingAll`).
- **Deleting leaves `selectedUsers` stale.** Deleting a user does not touch
  `selectedUsers`, but the map's selected layer is still emptied
  (`HomePage.NoSelectedMarkerAfterDelete`).
- **Selection is by email.** With duplicate emails, every matching user is
  selected, updated or deleted together.
- **Cards are keyed by list position.** After a deletion, a card's hover state
  stays with its position and not with its user (`HomePage.CardsAfterDelete`).

## Model

| member | source | states |
|---|---|---|
| Arrays.Filter | src/contexts/UsersContext.tsx:80 | the result is no longer than the input, and holds exactly the input's elements that the predicate accepts |
| Arrays.FilterPartition | src/components/OLMap/OLMap.tsx:41-50 | filtering by a predicate and by its negation splits a list into two order-preserving parts that together make up the whole list |
| Arrays.MapFilter | src/pages/HomePage.tsx:46-57 | filtering after a map equals mapping after a filter, when the two filters agree through the map; this carries the selection from users to markers |
| Text.NatToString | src/pages/HomePage.tsx:77 | the decimal text of an index is non-empty, made of digits only, and is exactly "0" when it starts with '0' (no leading zeros) |
| Text.NatToStringRoundTrip | src/pages/HomePage.tsx:77 | reading the decimal text back gives the number |
| Text.NatToStringInjective | src/pages/HomePage.tsx:77 | different indices get different texts |
| Text.IntToString | src/components/UserCard/UserCard.tsx:170 | `${n}` of an integer: a minus sign exactly for a negative number, then digits only, with no leading zero (0 is written "0"), which read back as the number's magnitude |
| Text.IntToStringInjective | src/components/UserCard/UserCard.tsx:170 | different street numbers are written differently |
| Text.TrimStart | src/components/UserDetailsModal/UserDetailsModal.tsx:91-93 | the result is a suffix of the input, only white space is dropped before it, and it is empty or starts with a character that is not white space |
| Text.TrimEnd | src/components/UserDetailsModal/UserDetailsModal.tsx:91-93 | the result is a prefix of the input, only white space is dropped after it, and it is empty or ends with a character that is not white space |
| Text.LeadingWhiteSpace | src/components/UserDetailsModal/UserDetailsModal.tsx:91-93 | the position where the leading white space ends: everything before it is white space, and the character there, if any, is not |
| Text.Trim | src/components/UserDetailsModal/UserDetailsModal.tsx:91-93 | `trim()` is the slice of the input that starts where the leading white space ends and is followed only by white space; it neither starts nor ends with white space |
| Text.TrimEmpty | src/components/UserDetailsModal/UserDetailsModal.tsx:91-93 | `trim()` gives "" exactly when every character is white space |
| UsersContext.Replace | src/contexts/UsersContext.tsx:35-37 | the per-user step of updateUser (`Replacing` is it as a lambda): a user with the email becomes the new value, any other user is returned as it was |
| UsersContext.Updated | src/contexts/UsersContext.tsx:34-39 | updateUser keeps the length; a user with the email becomes the new value, and every other user stays as it was |
| UsersContext.UpdateWithoutMatch | src/contexts/UsersContext.tsx:34-39 | updating an email that no user has leaves the collection unchanged |
| UsersContext.UpdateThenRemove | src/contexts/UsersContext.tsx:34-39 | updating an email to a record with the same email, then deleting that email, is the same as deleting it directly |
| UsersContext.Flag | src/contexts/UsersContext.tsx:47-72 | the per-user step of setUserSelected (`Flagging` is it as a lambda): every field except the flag is kept, the flag is always written, and it is true exactly when the argument is the user's email |
| UsersContext.Selecting | src/contexts/UsersContext.tsx:47-72 | setUserSelected keeps the length and every field except the flag; the flag is always written; a user is flagged exactly when the argument is that user's email |
| UsersContext.FlaggingAppend | src/contexts/UsersContext.tsx:47-72 | flagging a collection one user longer appends that user's flagged record, which is what each turn of the loop does |
| UsersContext.SelectedAfterSelecting | src/contexts/UsersContext.tsx:47-72 | the new selectedUsers are the users with the email, flagged, in collection order |
| UsersContext.NothingSelectedAfterClear | src/contexts/UsersContext.tsx:47-72 | setUserSelected(null) leaves no user selected |
| UsersContext.UniqueEmailMatches | src/contexts/UsersContext.tsx:51 | with unique emails, an email matches one user when present and none otherwise |
| UsersContext.AtMostOneSelected | src/contexts/UsersContext.tsx:47-72 | with unique emails, selecting an email selects one user when present and none otherwise |
| UsersContext.SelectingTwice | src/contexts/UsersContext.tsx:47-72 | selecting the same argument twice gives the same collection as selecting it once |
| UsersContext.Removed | src/contexts/UsersContext.tsx:79-82 | deleteUser keeps exactly the users whose email differs, and never lengthens the collection |
| UsersContext.RemovedSplits | src/contexts/UsersContext.tsx:79-82 | deleteUser keeps no user with the email; kept and removed users together make up the collection, in order |
| UsersContext.RemoveWithoutMatch | src/contexts/UsersContext.tsx:79-82 | deleting an email that no user has leaves the collection unchanged |
| UsersContext.RemoveUniqueAt | src/contexts/UsersContext.tsx:79-82 | with unique emails, deleting the email of the user at position k removes exactly that position |
| UsersContext.ConsistentAfterLoad | src/contexts/UsersContext.tsx:23-25 | an unflagged collection with an empty selection is consistent: a user is flagged exactly when its email is among the selected users |
| UsersContext.ConsistentAfterSelecting | src/contexts/UsersContext.tsx:47-72 | setUserSelected leaves the collection and the selection consistent |
| UsersContext.ConsistentAfterRemove | src/contexts/UsersContext.tsx:79-82 | deleteUser keeps a consistent store consistent, although selectedUsers is not updated |
| UsersContext.ConsistentAfterUpdate | src/contexts/UsersContext.tsx:34-39 | updateUser keeps a consistent store consistent when the new value keeps the email and the flag |
| UsersContext.MarkSelection | src/contexts/UsersContext.tsx:47-72 | the loop of setUserSelected produces the flagged collection, and exactly its selected users as the new selection |
| UsersContext.UsersProvider.constructor | src/contexts/UsersContext.tsx:14-15 | the store starts with no users and no selection |
| UsersContext.UsersProvider.SetUsers | src/contexts/UsersContext.tsx:23-25 | replaces the collection; the selection is untouched |
| UsersContext.UsersProvider.UpdateUser | src/contexts/UsersContext.tsx:34-39 | the collection becomes the updated one; the selection is untouched |
| UsersContext.UsersProvider.SetUserSelected | src/contexts/UsersContext.tsx:47-72 | the collection becomes the flagged one, and the selection becomes its selected users |
| UsersContext.UsersProvider.DeleteUser | src/contexts/UsersContext.tsx:79-82 | the collection loses the users with the email; the selection is untouched |
| Surface.MapSurface.Empty | src/contexts/MapContext.tsx:15 | a placeholder map has no layers and is not attached; its view is not modelled |
| Surface.MapSurface.Create | src/components/OLMap/OLMap.tsx:104-145 | the built map has a tile layer and two empty marker layers, with the given initial view |
| Surface.MapSurface.SetTarget | src/components/OLMap/OLMap.tsx:146 | attaching or detaching changes nothing else |
| Surface.MapSurface.Animate | src/components/OLMap/OLMap.tsx:54-58 | one animation request is appended; the layers are untouched |
| Surface.MapSurface.Clear | src/components/OLMap/OLMap.tsx:73 | the chosen vector layer loses its features; the other layers are untouched |
| Surface.MapSurface.AddFeatures | src/components/OLMap/OLMap.tsx:74-81 | the features are appended to the chosen vector layer only |
| Surface.MapSurface.Changed | src/components/OLMap/OLMap.tsx:82 | the chosen layer's repaint counter goes up by one, and nothing else changes |
| MapContext.MapProvider.constructor | src/contexts/MapContext.tsx:15-18 | zoom 0, centre [0, 0], no markers, and a placeholder map |
| MapContext.MapProvider.SetMap | src/contexts/MapContext.tsx:15 | only the map cell changes |
| MapContext.MapProvider.SetZoom | src/contexts/MapContext.tsx:16 | only the zoom changes |
| MapContext.MapProvider.SetCenter | src/contexts/MapContext.tsx:17 | only the centre changes |
| MapContext.MapProvider.SetUserPoints | src/contexts/MapContext.tsx:18 | only the markers change |
| OLMap.SelectedUserPoints | src/components/OLMap/OLMap.tsx:41-44 | holds exactly the markers whose flag is truthy, and is no longer than the marker list |
| OLMap.NonSelectedUserPoints | src/components/OLMap/OLMap.tsx:47-50 | holds exactly the markers whose flag is falsy, and is no longer than the marker list |
| OLMap.PartitionSplits | src/components/OLMap/OLMap.tsx:41-50 | the two marker lists hold exactly the truthy and the falsy markers, in order; their sizes add up to the total and together they hold every marker once |
| OLMap.LayersCoverPoints | src/components/OLMap/OLMap.tsx:64-97 | the features of the two layers together are the features of all markers, each drawn once |
| OLMap.SyncLayers | src/components/OLMap/OLMap.tsx:64-97 | with fewer than three layers nothing changes; otherwise layer 1 holds exactly the selected markers' features and layer 2 the others', each repainted once; the base layer is kept |
| OLMap.AnimateView | src/components/OLMap/OLMap.tsx:53-59 | one animation towards the current zoom and centre, lasting 500 ms |
| OLMap.Mount | src/components/OLMap/OLMap.tsx:103-147 | a fresh three-layer map with the current zoom and centre is attached and stored in the view store |
| OLMap.Unmount | src/components/OLMap/OLMap.tsx:149-153 | the built map is detached, and a fresh placeholder is stored in its place |
| UserCard.CardOpacity | src/components/UserCard/UserCard.tsx:160-163 | the card fades to 0.4 exactly when someone is selected and its user's flag is explicitly false; otherwise it shows at 1 |
| UserCard.UserFullName | src/components/UserCard/UserCard.tsx:164-167 | the first name, one space, then the last name |
| UserCard.UserAddress | src/components/UserCard/UserCard.tsx:168-178 | the street name, a space, the street number as `${n}` writes it, then the city, the state and the postcode, each after ", " |
| UserCard.AddressLine | src/components/UserCard/UserCard.tsx:170 | each of the five parts lies at its place in the template string, with a space after the first and ", " after each of the next three |
| UserCard.OpacityAfterSelecting | src/components/UserCard/UserCard.tsx:160-163 | right after selecting a present email, the cards of users with that email show at 1 and every other card fades |
| UserCard.DeselectTimerIsInert | src/components/UserCard/UserCard.tsx:139-144 | in a consistent store, a card whose deselect timer is armed has its email outside the selection, so the timer clears nothing |
| UserCard.Card.Mount | src/components/UserCard/UserCard.tsx:39-42 | a new card has every flag off and no timer |
| UserCard.Card.MouseEnter | src/components/UserCard/UserCard.tsx:90-92 | sets the entering flag; if it was off, arms the select timer for 600 ms later; nothing else changes |
| UserCard.Card.MouseLeave | src/components/UserCard/UserCard.tsx:97-99 | sets the leaving flag; if it was off, arms the deselect timer for 100 ms later, but only when the user is not selected; the select timer is kept |
| UserCard.Card.StoreChanged | src/components/UserCard/UserCard.tsx:103-158 | the effects re-run with the new user and selection; each timer is re-armed with a fresh deadline exactly when its guard holds |
| UserCard.Card.FireEnterTimer | src/components/UserCard/UserCard.tsx:107-118 | if the user's email was not among the captured selection: select it, centre on the user, zoom to 3; otherwise the stores are untouched; the entering flag goes off |
| UserCard.Card.FireLeaveTimer | src/components/UserCard/UserCard.tsx:140-146 | if the user's email was among the captured selection: clear the whole selection and zoom to 1, keeping the centre; the leaving flag goes off |
| UserCard.Card.Unmount | src/components/UserCard/UserCard.tsx:103-158 | both effect cleanups run, the enter timer's at lines 120-122 and the leave timer's at lines 148-150, and no timer is left pending |
| UserCard.Card.ClickDelete | src/components/UserCard/UserCard.tsx:57-59 | opens the confirmation; the card stays mounted and valid |
| UserCard.Card.CancelDelete | src/components/UserCard/UserCard.tsx:65-68 | closes the confirmation and counts as leaving the card |
| UserCard.Card.ContinueDelete | src/components/UserCard/UserCard.tsx:74-77 | closes the confirmation, counts as leaving the card (arming the deselect timer exactly as a pointer leave would), then deletes the card's user's email from the store; the selection and the details dialog are untouched |
| UserCard.Card.ClickEdit | src/components/UserCard/UserCard.tsx:49-52 | opens the details dialog; the card stays mounted and valid |
| UserCard.Card.CloseDetails | src/components/UserCard/UserCard.tsx:83-85 | closes the details dialog; the card stays mounted and valid |
| UserDetailsModal.BlankFieldIsWhiteSpace | src/components/UserDetailsModal/UserDetailsModal.tsx:90-94 | Save rejects exactly the forms in which some field is nothing but white space |
| UserDetailsModal.Patched | src/components/UserDetailsModal/UserDetailsModal.tsx:100-108 | the saved record keeps the title and every field except first name, last name and phone, which are written as typed |
| UserDetailsModal.PatchWithOwnFields | src/components/UserDetailsModal/UserDetailsModal.tsx:100-108 | saving the fields as the dialog opened them writes the user back unchanged |
| UserDetailsModal.SaveKeepsSelectionConsistent | src/components/UserDetailsModal/UserDetailsModal.tsx:100-110 | a successful Save keeps a consistent store consistent |
| UserDetailsModal.ActionLabel | src/components/UserDetailsModal/UserDetailsModal.tsx:133-139 | the button reads "Edit" exactly in view mode, and "Save" exactly in edit mode |
| UserDetailsModal.ModalFullName | src/components/UserDetailsModal/UserDetailsModal.tsx:126-129 | the title, a space, the first name, a space, then the last name |
| UserDetailsModal.UserChar | src/components/UserDetailsModal/UserDetailsModal.tsx:130 | empty exactly for an empty first name; otherwise its first character |
| UserDetailsModal.DetailsModal.Open | src/components/UserDetailsModal/UserDetailsModal.tsx:28-31 | opens in view mode, with the fields taken from the user |
| UserDetailsModal.DetailsModal.ReceiveUser | src/components/UserDetailsModal/UserDetailsModal.tsx:27-31 | a new user prop does not reset the fields |
| UserDetailsModal.DetailsModal.ClickEdit | src/components/UserDetailsModal/UserDetailsModal.tsx:47-49 | switches to edit mode |
| UserDetailsModal.DetailsModal.ChangeFirstName | src/components/UserDetailsModal/UserDetailsModal.tsx:56-60 | the first-name field takes the typed value |
| UserDetailsModal.DetailsModal.ChangeLastName | src/components/UserDetailsModal/UserDetailsModal.tsx:67-71 | the last-name field takes the typed value |
| UserDetailsModal.DetailsModal.ChangePhone | src/components/UserDetailsModal/UserDetailsModal.tsx:78-82 | the phone field takes the typed value |
| UserDetailsModal.DetailsModal.Save | src/components/UserDetailsModal/UserDetailsModal.tsx:87-124 | always returns to view mode; a blank field gives the error notice and leaves the store alone; otherwise the user's email is updated with the patched record, with a success notice; the selection is untouched |
| HomePage.ToUserPoint | src/pages/HomePage.tsx:48-55 | a user's marker carries the user's position, flag as it is, and id value |
| HomePage.UserPointsOf | src/pages/HomePage.tsx:46-57 | one marker per user, in order, carrying the user's flag, position and id value |
| HomePage.MarkersFollowUsers | src/pages/HomePage.tsx:46-57 | the selected markers are the markers of the selected users, and the other markers are those of the other users, in order |
| HomePage.FlaggingKeepsPositions | src/pages/HomePage.tsx:46-57 | writing the selection flag does not move any marker |
| HomePage.SelectedLayerAfterSelecting | src/pages/HomePage.tsx:46-57 | after selecting an email, the selected layer holds the positions of the users with that email; with unique emails, that is one feature when present and none otherwise |
| HomePage.NoSelectedMarkerAfterDelete | src/pages/HomePage.tsx:79 | deleting the selected users' email leaves no selected marker, although selectedUsers is stale |
| HomePage.CardKey | src/pages/HomePage.tsx:77 | a card's key is "user-" followed by the decimal text of its position |
| HomePage.UserCards | src/pages/HomePage.tsx:73-83 | one card per user, in collection order, keyed by position, showing that user and deleting that user's email |
| HomePage.CardKeysDistinct | src/pages/HomePage.tsx:77 | cards at different positions get different keys |
| HomePage.CardsAfterDelete | src/pages/HomePage.tsx:73-83 | each card deletes its own user's email; with unique emails, after deleting a user at or before position i, the card keyed for position i shows the next user |
| HomePage.ShouldStoreFetched | src/pages/HomePage.tsx:34-42 | the fetched users are stored exactly when the fetch gave a non-empty list and the collection is empty |
| HomePage.LoadFetchedUsers | src/pages/HomePage.tsx:34-42 | a non-empty result is stored only into an empty collection; a collection that already holds users is never overwritten |
| HomePage.LoadErrorNotice | src/pages/HomePage.tsx:59-70 | a notice is raised exactly when the fetch failed, and it is an error notice |
| HomePage.ProjectUserPoints | src/pages/HomePage.tsx:46-57 | the markers become the projection of the users; zoom, centre and map are untouched |
| HomePage.EscapeSelection | src/pages/HomePage.tsx:89-105 | with some user selected, clear the selection and zoom to 1; otherwise change nothing; the centre is never moved |
| HomePage.GridMouseEnter | src/pages/HomePage.tsx:89-94 | as EscapeSelection, when the pointer enters the grid |
| HomePage.GridMouseLeave | src/pages/HomePage.tsx:100-105 | as EscapeSelection, when the pointer leaves the grid |
| HomePage.PassOverSelects | src/components/UserCard/UserCard.tsx:90-146 | entering a card at 0 ms and leaving at 50 ms still selects its user at 600 ms, centred, at zoom 3 |
| HomePage.ReloadAfterDeletingAll | src/pages/HomePage.tsx:34-42 | after selecting the only user and deleting it, the load effect stores the fetched user again, unflagged, beside the stale selection, and the store is no longer consistent |
| HomePage.HoverThenLeaveGrid | src/pages/HomePage.tsx:100-105 | after a hover selects a user, leaving and re-entering the card keeps the selection and zoom 3; leaving the grid clears it and zooms to 1, with the centre still on the user |

## Left out

- **Network and caching.** The network fetch and the query library's caching and retries are not modelled. The load effect takes the fetch result as a parameter, and the error effect takes the error flag.
- **Notifications.** The notification library is not modelled. A notification is the `Notice` value the model returns; `preventDuplicate` is not modelled.
- **OpenLayers.** Tile loading, rendering, projection (`fromLonLat`), marker styles and the interpolation of animations are not modelled. An animation is recorded as a request, and a feature as its position.
- **Coordinates.** `parseFloat` of coordinate strings is not modelled. A position keeps the two strings as they are, so invalid or NaN coordinates are not distinguished.
- **Zoom.** The zoom is an integer in the model. The application only ever writes 0, 1 and 3.
- **Time.** Real time and the event loop are not modelled. Timer deadlines are integers that the caller passes in, and a firing is a method call. Each card's `StoreChanged` has to be called after each store update; the model does not do this for every mounted card at once.
- **React itself.** Hooks, rendering, memoisation, bootstrapping, routing and styling are not modelled. The confirmation dialog component and JSX layout are not modelled either; the dialog's open flag and its two callbacks are.
- **Placeholder map view.** The view of the placeholder map the view store starts with is not modelled; nothing in the model reads it.
- **UserCard.UserAddress:** the street number is an integer in the model. In the source it is a JavaScript number, and a fractional or special number would be written differently.
- **UserDetailsModal.UserChar:** models `charAt(0)` on Dafny characters, not UTF-16 code units.
- **Other source.** The API client, the hooks that read the stores, the constants file and the application shell are not part of this model.
