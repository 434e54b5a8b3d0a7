# gamma-tunes core, modelled in Dafny

gamma-tunes is a Discord music bot. Its code comes in two generations: the `src/` tree and the older `backend/` tree, which itself has two layers (`audio/` and `infrastructure/` plus `domain/`). This project models the parts of both trees that decide what plays next and what the player panel shows, and proves properties of them:

- **Queue engines.** The three `TrackScheduler` classes are each a track list plus a cursor: `SrcTrackScheduler`, `DomainTrackScheduler` and `AudioTrackScheduler`. `QueueView` holds the shared history / current / queue split. `JavaCollections.Shuffle` is `Collections.shuffle`'s swap loop.
- **Player state machines.**
  - The src `Player` together with its `PlayerEventProcessor`, in module `SrcPlayer`.
  - The backend `LavaLinkAudioPlayer` and its event handler, in module `LavalinkAudio`.
  - `LavalinkPlaybackAdapter` and its event forwarder, in module `LavalinkPlayback`.
  - The FIFO `LavalinkPlayer`, in module `LavalinkFifoPlayer`.

  Each is a class whose fields the methods update. Calls into lavaplayer and Lavalink nodes are recorded in fields: a call log, a request log, and lavaplayer's paused flag.
- **Per-guild maps.** `PlayerRegistry`, `LavalinkPlayerRegistry`, `PlayerStateStore` and the two `PlayerPanelCache`s. The two caches are one generic class, `PanelCache.PlayerPanelCache`.
- **Query handling.** `TrackQueryService`, plus the YouTube resolvers and the first-match `AudioSourceManager`s in `TrackResolution`. A node's or lavaplayer's load result is a datatype given to the model.
- **Panel views.**
  - Queue dropdowns, progress bars and duration formats.
  - Queue-info and up-next fields, control buttons and the backend's `PlayerEmbedFactory`.
  - `PlayerViewMapper`, the progress-bar throttle in both `ProgressBarScheduler`s, `ApiRoutes` and `MessageResolver`.

Code that works step by step keeps that form:
- list and map fields reassigned by methods with `modifies` clauses;
- counted loops with their invariants, for `findTrackIndex`, the dropdown and up-next builders, the bar builders and the scheduler ticks.

Each such method is proved against a specification function, and the properties are stated as lemmas about those functions.

Java semantics are written out where they matter:
- integer division and remainder truncate toward zero (`JavaMath.JavaDiv`, `JavaRem`);
- `Duration` uses floor division;
- `(int)` casts wrap modulo 2^32 (`JavaMath.Wrap32`);
- `String.trim`, `replace`, `contains`, `Integer.parseInt` and `String.valueOf` are defined in `JavaText`;
- a Java string is a sequence of code points.

A dropdown value made by the backend is a track's raw identifier, so two options can carry the same value. A jump by identifier then lands on the first position holding it (`BackendQueueDropdown.RepeatedTrackJumpsBack`). The src renderer tags its values (`h:`, `c:`, `q:`), and they are pairwise distinct (`SrcQueueDropdown.OptionsDistinct`). Its `ensureUniqueValues` check therefore never fails on the renderer's own output.

## Model

| member | source | states |
|---|---|---|
| QueueView.Partition | src/main/java/com/gammatunes/component/audio/queue/TrackScheduler.java:173-204 | for every cursor in -1..size-1, history ++ [current] ++ queue is the whole list; a current entry exists exactly when the cursor is at least 0; the history holds max(cursor, 0) entries and the queue the size-cursor-1 after the cursor |
| QueueView.QueueAt | src/main/java/com/gammatunes/component/audio/queue/TrackScheduler.java:188-192 | the i-th entry of getQueue is the list entry i places after the cursor |
| JavaCollections.Shuffle | src/main/java/com/gammatunes/component/audio/queue/TrackScheduler.java:235 | Collections.shuffle's swap loop, driven by the supplied draws, returns a list of the same length holding the same elements (a permutation) |
| SrcTrackScheduler.FindIndex | src/main/java/com/gammatunes/component/audio/queue/TrackScheduler.java:219-225 | -1 exactly when no track has the identifier; otherwise a position holding the identifier with no earlier position holding it |
| SrcTrackScheduler.JumpTarget | src/main/java/com/gammatunes/component/audio/queue/TrackScheduler.java:118-165 | every jump that jumpToPrefixedIdentifier decides on lands inside the list |
| SrcTrackScheduler.TrackScheduler.constructor | src/main/java/com/gammatunes/component/audio/queue/TrackScheduler.java:19-20 | a new queue is empty with cursor -1, which satisfies the invariant (cursor -1 exactly when the list is empty, otherwise inside it) |
| SrcTrackScheduler.TrackScheduler.Enqueue | src/main/java/com/gammatunes/component/audio/queue/TrackScheduler.java:28-32 | keeps the invariant; the track is appended; the cursor moves to 0 when it was -1 and is otherwise unchanged |
| SrcTrackScheduler.TrackScheduler.Push | src/main/java/com/gammatunes/component/audio/queue/TrackScheduler.java:40-47 | keeps the invariant; with no current track it behaves as enqueue on the empty list; otherwise the track is inserted right after the current one, the cursor, the history, the current track and the order of the old queue are unchanged, and the list gains exactly that track |
| SrcTrackScheduler.TrackScheduler.Next | src/main/java/com/gammatunes/component/audio/queue/TrackScheduler.java:55-64 | keeps the invariant and the list; advances by exactly one and returns the new current track when a track follows; otherwise returns empty and the cursor (already on the last track) stays |
| SrcTrackScheduler.TrackScheduler.Previous | src/main/java/com/gammatunes/component/audio/queue/TrackScheduler.java:72-80 | keeps the invariant and the list; steps back one and returns that track when the cursor is at least 1; otherwise returns empty and changes nothing |
| SrcTrackScheduler.TrackScheduler.JumpToIndex | src/main/java/com/gammatunes/component/audio/queue/TrackScheduler.java:157-165 | moves to the index and returns its track exactly when the index lies inside the list; otherwise returns empty with the cursor unchanged |
| SrcTrackScheduler.TrackScheduler.FindTrackIndex | src/main/java/com/gammatunes/component/audio/queue/TrackScheduler.java:219-225 | the loop returns FindIndex of the track's identifier: the first matching position or -1 |
| SrcTrackScheduler.TrackScheduler.JumpToTrack | src/main/java/com/gammatunes/component/audio/queue/TrackScheduler.java:89-93 | moves to the first position holding the track's identifier and returns that entry; with no such position returns empty with the cursor unchanged |
| SrcTrackScheduler.TrackScheduler.JumpToIdentifier | src/main/java/com/gammatunes/component/audio/queue/TrackScheduler.java:102-108 | succeeds only when some upcoming track has the identifier, and then moves to that identifier's first position in the whole list; otherwise empty with the cursor unchanged |
| SrcTrackScheduler.TrackScheduler.JumpToPrefixedIdentifier | src/main/java/com/gammatunes/component/audio/queue/TrackScheduler.java:118-148 | the list never changes; the cursor and result follow JumpTarget: a move to the target with its track, the current track for "c:", or empty with the cursor unchanged for a non-numeric index or a target outside the list |
| SrcTrackScheduler.TrackScheduler.GetCurrentTrack | src/main/java/com/gammatunes/component/audio/queue/TrackScheduler.java:173-180 | present exactly when the cursor lies inside the list, and then the track under it |
| SrcTrackScheduler.TrackScheduler.GetQueue | src/main/java/com/gammatunes/component/audio/queue/TrackScheduler.java:188-192 | the size-cursor-1 tracks after the cursor, in order, entry k being list entry cursor+1+k; changes nothing |
| SrcTrackScheduler.TrackScheduler.GetHistory | src/main/java/com/gammatunes/component/audio/queue/TrackScheduler.java:200-204 | the tracks before the cursor (none when the cursor is at most 0), in order; changes nothing |
| SrcTrackScheduler.TrackScheduler.IsEmpty | src/main/java/com/gammatunes/component/audio/queue/TrackScheduler.java:244-246 | true exactly when the list is empty, which is exactly when history, current track and queue are all absent |
| SrcTrackScheduler.TrackScheduler.Size | src/main/java/com/gammatunes/component/audio/queue/TrackScheduler.java:253-255 | the number of all tracks: history plus current plus queue, not only the upcoming ones |
| SrcTrackScheduler.TrackScheduler.ClearAll | src/main/java/com/gammatunes/component/audio/queue/TrackScheduler.java:209-213 | empty list, cursor -1, invariant restored |
| SrcTrackScheduler.TrackScheduler.Shuffle | src/main/java/com/gammatunes/component/audio/queue/TrackScheduler.java:231-236 | keeps the invariant, the cursor, the length and every entry up to the cursor; the new queue holds the same tracks as the old one |
| SrcTrackScheduler.QueueValueJumps | src/main/java/com/gammatunes/component/audio/queue/TrackScheduler.java:120-127 | a "q:i:..." value for any upcoming position i jumps to absolute index cursor+1+i, which holds the i-th upcoming track (the round trip with the dropdown's queue values) |
| SrcTrackScheduler.QueueIndexJumps | src/main/java/com/gammatunes/component/audio/queue/TrackScheduler.java:120-127 | a "q:i:..." value whose absolute target cursor+1+i lies inside the list jumps there, the 32-bit sum not wrapping |
| SrcTrackScheduler.HistoryValueJumps | src/main/java/com/gammatunes/component/audio/queue/TrackScheduler.java:131-136 | an "h:i:..." value jumps to absolute index i, whatever the cursor |
| SrcTrackScheduler.TaggedValueFields | src/main/java/com/gammatunes/component/audio/queue/TrackScheduler.java:121-124 | in "<tag>:<i>:<rest>" the second colon-separated field is i in decimal and parses back to i |
| SrcTrackScheduler.CurrentValueKeeps | src/main/java/com/gammatunes/component/audio/queue/TrackScheduler.java:141-142 | every "c:..." value keeps the current track |
| SrcTrackScheduler.QueueMinusOneIsCurrent | src/main/java/com/gammatunes/component/audio/queue/TrackScheduler.java:124-126 | "q:-1:..." is accepted and lands on the current track itself |
| SrcTrackScheduler.IdentifierJumpMayGoBack | src/main/java/com/gammatunes/component/audio/queue/TrackScheduler.java:102-108 | a bare identifier that is upcoming but also in the history lands on the history copy (tracks [a, b, a'] with cursor 1 jump to 0) |
| DomainTrackScheduler.FindIndex | backend/src/main/java/com/gammatunes/backend/domain/player/TrackScheduler.java:202-209 | -1 exactly when no item's track has the identifier; otherwise the first such position |
| DomainTrackScheduler.TrackScheduler.constructor | backend/src/main/java/com/gammatunes/backend/domain/player/TrackScheduler.java:21-25 | empty list, cursor -1, repeat off |
| DomainTrackScheduler.TrackScheduler.Enqueue | backend/src/main/java/com/gammatunes/backend/domain/player/TrackScheduler.java:31-34 | keeps -1 <= cursor < size; appends; cursor and repeat flag unchanged, so a non-empty list can have no current item |
| DomainTrackScheduler.TrackScheduler.AddNext | backend/src/main/java/com/gammatunes/backend/domain/player/TrackScheduler.java:36-39 | inserts at cursor+1 (the front when the cursor is -1): history and current unchanged, the new item heads the queue followed by the old queue |
| DomainTrackScheduler.TrackScheduler.Next | backend/src/main/java/com/gammatunes/backend/domain/player/TrackScheduler.java:45-55 | list and repeat flag unchanged; advances by one and returns the new current item when one follows; otherwise empty with the cursor parked on the last item, which it already was on |
| DomainTrackScheduler.TrackScheduler.Previous | backend/src/main/java/com/gammatunes/backend/domain/player/TrackScheduler.java:61-70 | steps back one and returns that item when the cursor is at least 1; otherwise empty and nothing changes |
| DomainTrackScheduler.TrackScheduler.Shuffle | backend/src/main/java/com/gammatunes/backend/domain/player/TrackScheduler.java:76-93 | cursor, repeat flag, length and every item up to the cursor unchanged; the queue holds the same items as before |
| DomainTrackScheduler.TrackScheduler.ToggleRepeat | backend/src/main/java/com/gammatunes/backend/domain/player/TrackScheduler.java:99-103 | the flag is negated and the new value returned, so two toggles restore it; items and cursor unchanged |
| DomainTrackScheduler.TrackScheduler.GetCurrentItem | backend/src/main/java/com/gammatunes/backend/domain/player/TrackScheduler.java:109-114 | present exactly when the cursor is inside the list, and then the item under it |
| DomainTrackScheduler.TrackScheduler.GetQueue | backend/src/main/java/com/gammatunes/backend/domain/player/TrackScheduler.java:120-125 | the items after the cursor, in order |
| DomainTrackScheduler.TrackScheduler.GetHistory | backend/src/main/java/com/gammatunes/backend/domain/player/TrackScheduler.java:131-136 | the items before the cursor (none when the cursor is at most 0), in order |
| DomainTrackScheduler.TrackScheduler.ClearQueue | backend/src/main/java/com/gammatunes/backend/domain/player/TrackScheduler.java:141-148 | afterwards the list is its first cursor+1 items: the queue is empty, history and current item unchanged |
| DomainTrackScheduler.TrackScheduler.ClearAll | backend/src/main/java/com/gammatunes/backend/domain/player/TrackScheduler.java:153-157 | empty list and cursor -1; the repeat flag is not affected |
| DomainTrackScheduler.TrackScheduler.PeekNext | backend/src/main/java/com/gammatunes/backend/domain/player/TrackScheduler.java:163-176 | present exactly when the queue is not empty, and then its head, the item next would return; changes nothing |
| DomainTrackScheduler.TrackScheduler.PeekPrevious | backend/src/main/java/com/gammatunes/backend/domain/player/TrackScheduler.java:182-195 | present exactly when the history is not empty (cursor at least 1), and then its last entry, the item previous would return; changes nothing |
| DomainTrackScheduler.TrackScheduler.FindTrackIndex | backend/src/main/java/com/gammatunes/backend/domain/player/TrackScheduler.java:202-209 | the loop returns FindIndex: the first position with the identifier, or -1 |
| DomainTrackScheduler.TrackScheduler.SetCurrentIndex | backend/src/main/java/com/gammatunes/backend/domain/player/TrackScheduler.java:215-219 | accepted exactly for -1..size-1, otherwise a no-op; items and repeat flag unchanged |
| AudioTrackScheduler.TrackScheduler.constructor | backend/src/main/java/com/gammatunes/backend/audio/player/TrackScheduler.java:16-17 | empty list with cursor -1 |
| AudioTrackScheduler.TrackScheduler.Enqueue | backend/src/main/java/com/gammatunes/backend/audio/player/TrackScheduler.java:23-25 | keeps -1 <= cursor < size; appends with the cursor unchanged |
| AudioTrackScheduler.TrackScheduler.AddNext | backend/src/main/java/com/gammatunes/backend/audio/player/TrackScheduler.java:27-29 | inserts at cursor+1: entries up to the cursor unchanged, the new track heads the queue followed by the old queue |
| AudioTrackScheduler.TrackScheduler.Next | backend/src/main/java/com/gammatunes/backend/audio/player/TrackScheduler.java:35-43 | advances by one and returns the new current track when one follows; otherwise the cursor becomes size-1 and the result is empty |
| AudioTrackScheduler.TrackScheduler.Previous | backend/src/main/java/com/gammatunes/backend/audio/player/TrackScheduler.java:49-56 | moves back one only when the cursor is at least 1; otherwise nothing changes |
| AudioTrackScheduler.TrackScheduler.GetCurrentTrack | backend/src/main/java/com/gammatunes/backend/audio/player/TrackScheduler.java:62-67 | present exactly when 0 <= cursor < size, and then the track under it |
| AudioTrackScheduler.TrackScheduler.GetQueue | backend/src/main/java/com/gammatunes/backend/audio/player/TrackScheduler.java:73-78 | exactly the tracks after the cursor: size-cursor-1 of them, entry k being list entry cursor+1+k |
| AudioTrackScheduler.TrackScheduler.ClearQueue | backend/src/main/java/com/gammatunes/backend/audio/player/TrackScheduler.java:83-87 | truncates to the first cursor+1 tracks: queue empty, current track unchanged |
| AudioTrackScheduler.TrackScheduler.ClearAll | backend/src/main/java/com/gammatunes/backend/audio/player/TrackScheduler.java:92-95 | empty list and cursor -1 |
| SrcPlayer.Player.UISnapshot | src/main/java/com/gammatunes/component/audio/core/Player.java:313-325 | the published UI state carries the player's state, volume and repeat flag, and its history ++ [current] ++ queue is exactly the scheduler's list |
| SrcPlayer.Player.PositionSnapshot | src/main/java/com/gammatunes/component/audio/core/Player.java:333-345 | the published position is the player's position, with the current track's length, or 0 when there is no current track |
| SrcPlayer.Player.constructor | src/main/java/com/gammatunes/component/audio/core/Player.java:49-58 | a new player is STOPPED, repeat off, position 0, volume 100, with an empty queue and no node request; its UI state and position are both published for its guild |
| SrcPlayer.Player.PublishUIState | src/main/java/com/gammatunes/component/audio/core/Player.java:313-325 | the store's UI entry for the guild becomes UISnapshot; no other entry and no position changes |
| SrcPlayer.Player.PublishPosition | src/main/java/com/gammatunes/component/audio/core/Player.java:333-345 | the store's position entry for the guild becomes PositionSnapshot; the UI map is untouched |
| SrcPlayer.Player.PublishStatus | src/main/java/com/gammatunes/component/audio/core/Player.java:352-356 | both the guild's UI entry and its position entry are replaced by the current snapshots |
| SrcPlayer.Player.PlayCurrentTrack | src/main/java/com/gammatunes/component/audio/core/Player.java:64-70 | with a current track exactly one play request for it (at the player's volume) is issued; without one the call fails with "No track to play" and issues nothing; no field of the player changes |
| SrcPlayer.Player.PlayNextOrBecomeIdle | src/main/java/com/gammatunes/component/audio/core/Player.java:78-85 | when a track follows, the cursor advances by one and one play request for the new current track is issued; otherwise the cursor stays, nothing is requested and the UI state is published; the player's state is never changed |
| SrcPlayer.Player.ReplayCurrent | src/main/java/com/gammatunes/component/audio/core/Player.java:93-97 | with a current track one play request for it is issued, without one nothing happens; the state is never changed |
| SrcPlayer.Player.Play | src/main/java/com/gammatunes/component/audio/core/Player.java:107-119 | from STOPPED or PAUSED the track is inserted right after the current one (the rest of the list kept around it), the cursor moves onto it, exactly one play request for it is issued and nothing is published; in any other state it is appended (an empty queue's cursor goes to 0), nothing is requested and the UI state is published; the state and the position entry are never changed |
| SrcPlayer.Player.PushAndPublish | src/main/java/com/gammatunes/component/audio/core/Player.java:130-131 | the first half of playNow: the track is inserted right after the current one, the cursor stays (or becomes 0 on an empty queue), and the UI entry is the snapshot of that list; the position entry is untouched |
| SrcPlayer.Player.PlayNow | src/main/java/com/gammatunes/component/audio/core/Player.java:128-133 | as written: the track is inserted right after the current one and the cursor moves onto it, but one play request is issued only when the queue was not empty before; on a non-empty queue the stored UI entry is the one published before the skip, still showing the old current track with the new one at the head of its queue, while on an empty queue it shows the new track as current; the position entry is untouched |
| SrcPlayer.Player.PlayNowImmediately | src/main/java/com/gammatunes/component/audio/core/Player.java:121-133 | as documented: the track is inserted right after the current one, the cursor moves onto it and exactly one play request for it is issued, also on an empty queue; the stored UI entry is the same as playNow's in both cases and the position entry is untouched |
| SrcPlayer.Player.Stop | src/main/java/com/gammatunes/component/audio/core/Player.java:141-148 | the scheduler is emptied (no current track, queue or history), the UI state is published, the position entry is left alone and one stop request is issued; the state is not changed by stop itself |
| SrcPlayer.Player.Skip | src/main/java/com/gammatunes/component/audio/core/Player.java:156-166 | the list never changes; when a track follows, the cursor advances by one, one play request for it is issued and nothing is published; otherwise cursor, state and requests are unchanged and the UI state is published; the position entry is never touched |
| SrcPlayer.Player.Previous | src/main/java/com/gammatunes/component/audio/core/Player.java:174-182 | when the cursor is at least 1 it steps back, one play request for that track is issued and nothing is published; otherwise cursor, state and requests are unchanged and the UI state is published; the position entry is never touched |
| SrcPlayer.Player.Pause | src/main/java/com/gammatunes/component/audio/core/Player.java:190-206 | already PAUSED: no request, and only the UI state is published; otherwise one pause request is issued, the state becomes PAUSED when the node accepts it and returns to the previous state (with the node's error) when it fails, the position is kept except that a rollback to STOPPED zeroes it, and both snapshots are published |
| SrcPlayer.Player.SwitchPaused | src/main/java/com/gammatunes/component/audio/core/Player.java:197-205 | the shared part of pause and resume: switch to the target, one pause or resume request, back to the old state on a node error (position zeroed only by a switch to STOPPED), both snapshots published |
| SrcPlayer.Player.Resume | src/main/java/com/gammatunes/component/audio/core/Player.java:214-228 | the mirror image of pause: already PLAYING only publishes the UI state; otherwise one resume request, PLAYING on success, the previous state on failure (STOPPED zeroing the position), both snapshots published |
| SrcPlayer.Player.JumpToTrack | src/main/java/com/gammatunes/component/audio/core/Player.java:238-246 | the list never changes; when the scheduler's JumpTarget yields a track the cursor is where it says, one play request for that track is issued and nothing is published; otherwise cursor and requests are unchanged and the UI state is published; the position entry is never touched |
| SrcPlayer.Player.Shuffle | src/main/java/com/gammatunes/component/audio/core/Player.java:252-256 | cursor, length and entries up to the cursor unchanged, the list keeps its tracks, the UI state is published and the position entry is untouched |
| SrcPlayer.Player.ToggleRepeat | src/main/java/com/gammatunes/component/audio/core/Player.java:263-267 | the repeat flag is negated (two toggles restore it); state, position, volume and requests unchanged; the UI state is published and the position entry is untouched |
| SrcPlayer.Player.IsRepeatEnabled | src/main/java/com/gammatunes/component/audio/core/Player.java:270-272 | returns the repeat flag |
| SrcPlayer.Player.GetQueue | src/main/java/com/gammatunes/component/audio/core/Player.java:275-277 | the scheduler's upcoming tracks, which together with history and current track make up the whole list |
| SrcPlayer.Player.UpdateState | src/main/java/com/gammatunes/component/audio/core/Player.java:285-293 | the state becomes the new one; STOPPED also resets the position to 0 and any other state leaves it unchanged; both snapshots are published afterwards |
| SrcPlayer.Player.UpdatePosition | src/main/java/com/gammatunes/component/audio/core/Player.java:301-304 | only the position changes, and only the position entry is published |
| SrcPlayer.PlayerEventProcessor.constructor | src/main/java/com/gammatunes/component/audio/lavalink/PlayerEventProcessor.java:17 | the processor holds its player |
| SrcPlayer.PlayerEventProcessor.OnTrackStart | src/main/java/com/gammatunes/component/audio/lavalink/PlayerEventProcessor.java:26-30 | the player becomes PLAYING at position 0; repeat, volume, queue and requests unchanged; the guild's UI and position entries become the new snapshots |
| SrcPlayer.PlayerEventProcessor.OnPlayerUpdate | src/main/java/com/gammatunes/component/audio/lavalink/PlayerEventProcessor.java:39-42 | only the position changes and only the guild's position entry is republished; state, repeat, volume, queue, requests and the UI map stay |
| SrcPlayer.PlayerEventProcessor.OnTrackEnd | src/main/java/com/gammatunes/component/audio/lavalink/PlayerEventProcessor.java:55-88 | FINISHED with repeat replays the current track with the cursor and the store unchanged; FINISHED without repeat and LOAD_FAILED advance and play (nothing published) or go idle (the UI state published); STOPPED sets the state STOPPED and the position 0 and publishes both snapshots; REPLACED and any other reason change nothing; only STOPPED touches the position |
| SrcPlayer.PlayerEventProcessor.OnTrackException | src/main/java/com/gammatunes/component/audio/lavalink/PlayerEventProcessor.java:98-106 | behaves like a FINISHED end without repeat: advance and play with nothing published, or idle with the UI state published; the state and the position entry unchanged |
| SrcPlayer.PlayerEventProcessor.OnTrackStuck | src/main/java/com/gammatunes/component/audio/lavalink/PlayerEventProcessor.java:116-124 | behaves like a FINISHED end without repeat: advance and play with nothing published, or idle with the UI state published; the state and the position entry unchanged |
| LavalinkAudio.LavaLinkAudioPlayer.NoticeOf | backend/src/main/java/com/gammatunes/backend/infrastructure/lavalink/LavaLinkAudioPlayer.java:281-288 | a notify reaches the listener (one notice) exactly when a listener is attached |
| LavalinkAudio.LavaLinkAudioPlayer.constructor | backend/src/main/java/com/gammatunes/backend/infrastructure/lavalink/LavaLinkAudioPlayer.java:37-49 | a new player is STOPPED and unpaused, with an empty scheduler (cursor -1, repeat off), no lavaplayer call and no notice |
| LavalinkAudio.LavaLinkAudioPlayer.GotoState | backend/src/main/java/com/gammatunes/backend/infrastructure/lavalink/LavaLinkAudioPlayer.java:275-279 | the state and the paused flag become the given ones and a notice in the new state is sent exactly when an outcome is given |
| LavalinkAudio.LavaLinkAudioPlayer.Notify | backend/src/main/java/com/gammatunes/backend/infrastructure/lavalink/LavaLinkAudioPlayer.java:281-288 | only a non-null outcome reaches the listener, in the current state; nothing else changes |
| LavalinkAudio.LavaLinkAudioPlayer.PlayTrack | backend/src/main/java/com/gammatunes/backend/infrastructure/lavalink/LavaLinkAudioPlayer.java:241-244 | the state becomes LOADING, unpaused, without a notice, and one load of the track's identifier is requested |
| LavalinkAudio.LavaLinkAudioPlayer.PlayNextInQueue | backend/src/main/java/com/gammatunes/backend/infrastructure/lavalink/LavaLinkAudioPlayer.java:290-305 | with a next item: cursor +1, stop then load of that item, LOADING with SKIPPED; at the end: cursor unchanged, stop, STOPPED with NO_NEXT_TRACK; the list is never changed |
| LavalinkAudio.LavaLinkAudioPlayer.OnQueueEnd | backend/src/main/java/com/gammatunes/backend/infrastructure/lavalink/LavaLinkAudioPlayer.java:269-273 | one stop call, state STOPPED, unpaused, NO_NEXT_TRACK reported |
| LavalinkAudio.LavaLinkAudioPlayer.Play | backend/src/main/java/com/gammatunes/backend/infrastructure/lavalink/LavaLinkAudioPlayer.java:51-62 | from STOPPED or PAUSED always SKIPPED: the item is inserted after the current one, becomes current, and is stopped-then-loaded in state LOADING with SKIPPED reported; in PLAYING or LOADING it is appended, the state and cursor stay, no lavaplayer call is made and ADDED_TO_QUEUE is reported |
| LavalinkAudio.LavaLinkAudioPlayer.PlayNow | backend/src/main/java/com/gammatunes/backend/infrastructure/lavalink/LavaLinkAudioPlayer.java:64-69 | always SKIPPED: the item is inserted right after the current one (history kept, old queue after it), the cursor moves onto it, and it is stopped-then-loaded in state LOADING |
| LavalinkAudio.LavaLinkAudioPlayer.Repeat | backend/src/main/java/com/gammatunes/backend/infrastructure/lavalink/LavaLinkAudioPlayer.java:71-76 | REPEATED is reported in the unchanged state, unpaused, with no lavaplayer call |
| LavalinkAudio.LavaLinkAudioPlayer.ToggleRepeat | backend/src/main/java/com/gammatunes/backend/infrastructure/lavalink/LavaLinkAudioPlayer.java:78-92 | the scheduler's flag is negated and the outcome names the new mode; the state stays and the paused flag mirrors whether the state is PAUSED |
| LavalinkAudio.LavaLinkAudioPlayer.Skip | backend/src/main/java/com/gammatunes/backend/infrastructure/lavalink/LavaLinkAudioPlayer.java:94-103 | with no next item: NO_NEXT_TRACK with state and cursor unchanged and the lavaplayer paused unless PLAYING; otherwise the cursor advances by one, stop then load, LOADING with SKIPPED |
| LavalinkAudio.LavaLinkAudioPlayer.Previous | backend/src/main/java/com/gammatunes/backend/infrastructure/lavalink/LavaLinkAudioPlayer.java:105-120 | without history: NO_PREVIOUS_TRACK and nothing moves; otherwise the cursor steps back one, stop then load of that item, LOADING with PLAYING_PREVIOUS |
| LavalinkAudio.LavaLinkAudioPlayer.Pause | backend/src/main/java/com/gammatunes/backend/infrastructure/lavalink/LavaLinkAudioPlayer.java:122-132 | the state becomes (or stays) PAUSED and the lavaplayer is paused; ALREADY_PAUSED when it was PAUSED, PAUSED from every other state, STOPPED and LOADING included |
| LavalinkAudio.LavaLinkAudioPlayer.Resume | backend/src/main/java/com/gammatunes/backend/infrastructure/lavalink/LavaLinkAudioPlayer.java:134-158 | PLAYING gives ALREADY_PLAYING; STOPPED reloads the current item (LOADING, RESUMED, no notice) or reports QUEUE_EMPTY without one; PAUSED and LOADING become PLAYING with RESUMED |
| LavalinkAudio.LavaLinkAudioPlayer.Stop | backend/src/main/java/com/gammatunes/backend/infrastructure/lavalink/LavaLinkAudioPlayer.java:160-172 | always ends STOPPED and unpaused; from STOPPED it reports ALREADY_STOPPED and keeps the queue; otherwise the scheduler is emptied, one stop call is made and STOPPED is reported |
| LavalinkAudio.LavaLinkAudioPlayer.JumpToTrack | backend/src/main/java/com/gammatunes/backend/infrastructure/lavalink/LavaLinkAudioPlayer.java:174-187 | an unknown identifier reports ERROR and changes nothing else; otherwise the cursor lands on the first item with the identifier, which is stopped-then-loaded in state LOADING, unpaused, with SKIPPED reported |
| LavalinkAudio.LavaLinkAudioPlayer.Shuffle | backend/src/main/java/com/gammatunes/backend/infrastructure/lavalink/LavaLinkAudioPlayer.java:189-196 | cursor, length and entries up to the cursor unchanged, the queue keeps its items, the repeat flag stays and no lavaplayer call is made; SHUFFLED reported with the paused look kept |
| LavalinkAudio.LavaLinkAudioPlayer.ClearQueue | backend/src/main/java/com/gammatunes/backend/infrastructure/lavalink/LavaLinkAudioPlayer.java:198-202 | the list becomes its first cursor+1 items; cursor and repeat flag unchanged |
| LavalinkAudio.LavaLinkAudioPlayer.GetQueue | backend/src/main/java/com/gammatunes/backend/infrastructure/lavalink/LavaLinkAudioPlayer.java:204-207 | the scheduler's upcoming items |
| LavalinkAudio.LavaLinkAudioPlayer.GetHistory | backend/src/main/java/com/gammatunes/backend/infrastructure/lavalink/LavaLinkAudioPlayer.java:209-212 | the scheduler's played items |
| LavalinkAudio.LavaLinkAudioPlayer.GetCurrentItem | backend/src/main/java/com/gammatunes/backend/infrastructure/lavalink/LavaLinkAudioPlayer.java:214-217 | the scheduler's current item, if any |
| LavalinkAudio.LavaLinkAudioPlayer.IsRepeatEnabled | backend/src/main/java/com/gammatunes/backend/infrastructure/lavalink/LavaLinkAudioPlayer.java:236-239 | the scheduler's repeat flag |
| LavalinkAudio.LavaLinkAudioPlayer.OnTrackEnd | backend/src/main/java/com/gammatunes/backend/infrastructure/lavalink/LavaLinkAudioPlayer.java:262-267 | EndHandled: ignored while LOADING (nothing changes); in any other state, unpaused, either the cursor advances and the next item is stopped-then-loaded with SKIPPED reported from LOADING, or at the end one stop call is made and the player is STOPPED with NO_NEXT_TRACK; list and repeat flag kept |
| LavalinkAudio.LavaLinkAudioPlayer.TrackLoaded | backend/src/main/java/com/gammatunes/backend/infrastructure/lavalink/LavaLinkAudioPlayer.java:245-248 | the loaded track is handed to the lavaplayer; state, paused flag and notices unchanged |
| LavalinkAudio.LavaLinkAudioPlayer.PlaylistLoaded | backend/src/main/java/com/gammatunes/backend/infrastructure/lavalink/LavaLinkAudioPlayer.java:249-252 | the first track of a non-empty playlist is played; an empty one plays nothing |
| LavalinkAudio.LavaLinkAudioPlayer.NoMatches | backend/src/main/java/com/gammatunes/backend/infrastructure/lavalink/LavaLinkAudioPlayer.java:253-255 | exactly onTrackEnd (EndHandled); in the LOADING state the load started from, a missing track changes nothing |
| LavalinkAudio.LavaLinkAudioPlayer.LoadFailed | backend/src/main/java/com/gammatunes/backend/infrastructure/lavalink/LavaLinkAudioPlayer.java:256-258 | exactly onTrackEnd (EndHandled); in LOADING a failed load changes nothing |
| LavalinkAudio.LavalinkEventHandler.constructor | backend/src/main/java/com/gammatunes/backend/infrastructure/lavalink/LavalinkEventHandler.java:21-23 | the handler holds its player |
| LavalinkAudio.LavalinkEventHandler.OnTrackEnd | backend/src/main/java/com/gammatunes/backend/infrastructure/lavalink/LavalinkEventHandler.java:32-46 | an end reason that may not start the next track changes nothing; with repeat on a copy of the ended track is played and state, cursor, paused flag and notices stay; otherwise the player's onTrackEnd runs (EndHandled); the list and the repeat flag never change |
| LavalinkAudio.LavalinkEventHandler.OnTrackStart | backend/src/main/java/com/gammatunes/backend/infrastructure/lavalink/LavalinkEventHandler.java:54-58 | the player becomes PLAYING, unpaused, with PLAYING_NOW reported |
| LavalinkAudio.LavalinkEventHandler.OnTrackException | backend/src/main/java/com/gammatunes/backend/infrastructure/lavalink/LavalinkEventHandler.java:66-71 | exactly the player's onTrackEnd (EndHandled): ignored in LOADING, otherwise advance and load with SKIPPED or stop with NO_NEXT_TRACK |
| LavalinkAudio.LavalinkEventHandler.OnTrackStuck | backend/src/main/java/com/gammatunes/backend/infrastructure/lavalink/LavalinkEventHandler.java:81-86 | exactly the player's onTrackEnd (EndHandled): ignored in LOADING, otherwise advance and load with SKIPPED or stop with NO_NEXT_TRACK |
| LavalinkPlayback.LavalinkPlaybackAdapter.constructor | backend/src/main/java/com/gammatunes/backend/infrastructure/lavalink/LavalinkPlaybackAdapter.java:44-52 | a new adapter is STOPPED and unpaused, with an empty scheduler, no lavaplayer call and no event |
| LavalinkPlayback.LavalinkPlaybackAdapter.FireChange | backend/src/main/java/com/gammatunes/backend/infrastructure/lavalink/LavalinkPlaybackAdapter.java:257-259 | exactly one state-changed event is published and nothing else changes |
| LavalinkPlayback.LavalinkPlaybackAdapter.ChangeState | backend/src/main/java/com/gammatunes/backend/infrastructure/lavalink/LavalinkPlaybackAdapter.java:251-255 | compare-and-set: only when the state is `from` does it become `to` with the paused flag set; otherwise nothing changes |
| LavalinkPlayback.LavalinkPlaybackAdapter.PlayTrack | backend/src/main/java/com/gammatunes/backend/infrastructure/lavalink/LavalinkPlaybackAdapter.java:195-197 | the state becomes LOADING and one load of the track's identifier is requested |
| LavalinkPlayback.LavalinkPlaybackAdapter.Skip | backend/src/main/java/com/gammatunes/backend/infrastructure/lavalink/LavalinkPlaybackAdapter.java:79-104 | Skipped: with no next item NO_NEXT_TRACK and nothing changes; otherwise SKIPPED, the cursor advances by one, the new current item is stopped-then-loaded in state LOADING, a PAUSED player is unpaused, and one event is fired |
| LavalinkPlayback.LavalinkPlaybackAdapter.Previous | backend/src/main/java/com/gammatunes/backend/infrastructure/lavalink/LavalinkPlaybackAdapter.java:107-130 | without history: NO_PREVIOUS_TRACK and nothing changes; otherwise the cursor steps back one onto that item, stop then load, LOADING with PLAYING_PREVIOUS |
| LavalinkPlayback.LavalinkPlaybackAdapter.Play | backend/src/main/java/com/gammatunes/backend/infrastructure/lavalink/LavalinkPlaybackAdapter.java:55-70 | the track is always appended; a STOPPED or LOADING player then skips onto the next item (SKIPPED, LOADING, cursor +1, two events); PLAYING and PAUSED players keep state and cursor and report ADDED_TO_QUEUE |
| LavalinkPlayback.LavalinkPlaybackAdapter.PlayNow | backend/src/main/java/com/gammatunes/backend/infrastructure/lavalink/LavalinkPlaybackAdapter.java:72-77 | the track is inserted right after the current item (history and old queue kept around it), the cursor moves onto it, and it is stopped-then-loaded: SKIPPED, LOADING, a PAUSED player unpaused, two events |
| LavalinkPlayback.LavalinkPlaybackAdapter.Pause | backend/src/main/java/com/gammatunes/backend/infrastructure/lavalink/LavalinkPlaybackAdapter.java:133-141 | PAUSED gives ALREADY_PAUSED with nothing changed; PLAYING becomes PAUSED and paused; STOPPED and LOADING report PAUSED but keep their state |
| LavalinkPlayback.LavalinkPlaybackAdapter.Resume | backend/src/main/java/com/gammatunes/backend/infrastructure/lavalink/LavalinkPlaybackAdapter.java:143-151 | PLAYING gives ALREADY_PLAYING; PAUSED becomes PLAYING and unpaused; STOPPED and LOADING report RESUMED but keep their state |
| LavalinkPlayback.LavalinkPlaybackAdapter.Stop | backend/src/main/java/com/gammatunes/backend/infrastructure/lavalink/LavalinkPlaybackAdapter.java:153-162 | always ends STOPPED; from STOPPED it reports ALREADY_STOPPED with the queue kept; otherwise the scheduler is emptied (cursor -1), one stop call is made and STOPPED reported |
| LavalinkPlayback.LavalinkPlaybackAdapter.OnQueueEnd | backend/src/main/java/com/gammatunes/backend/infrastructure/lavalink/LavalinkPlaybackAdapter.java:245-249 | the state becomes STOPPED and one stop call is made |
| LavalinkPlayback.LavalinkPlaybackAdapter.ClearQueue | backend/src/main/java/com/gammatunes/backend/infrastructure/lavalink/LavalinkPlaybackAdapter.java:164-167 | the list keeps its first cursor+1 items; the cursor is unchanged |
| LavalinkPlayback.LavalinkPlaybackAdapter.GetQueue | backend/src/main/java/com/gammatunes/backend/infrastructure/lavalink/LavalinkPlaybackAdapter.java:169-172 | the items after the cursor |
| LavalinkPlayback.LavalinkPlaybackAdapter.GetCurrentlyPlaying | backend/src/main/java/com/gammatunes/backend/infrastructure/lavalink/LavalinkPlaybackAdapter.java:174-177 | present exactly when the scheduler has a current item, and then that item's track |
| LavalinkPlayback.LavalinkPlaybackAdapter.GetState | backend/src/main/java/com/gammatunes/backend/infrastructure/lavalink/LavalinkPlaybackAdapter.java:179-182 | the current state |
| LavalinkPlayback.LavalinkPlaybackAdapter.OnTrackEnd | backend/src/main/java/com/gammatunes/backend/infrastructure/lavalink/LavalinkPlaybackAdapter.java:241-243 | exactly skip (Skipped, and the same outcome): advance, unpause a PAUSED player, stop-then-load the next item and fire one event, or NO_NEXT_TRACK with nothing changed at the end |
| LavalinkPlayback.LavalinkPlaybackAdapter.TrackLoaded | backend/src/main/java/com/gammatunes/backend/infrastructure/lavalink/LavalinkPlaybackAdapter.java:200-214 | the loaded track is played; with resumeAfterLoad the player is PLAYING and unpaused, otherwise PAUSED and paused; one event |
| LavalinkPlayback.LavalinkPlaybackAdapter.PlaylistLoaded | backend/src/main/java/com/gammatunes/backend/infrastructure/lavalink/LavalinkPlaybackAdapter.java:216-219 | the playlist's first track is played and the state becomes PLAYING; an empty playlist changes nothing |
| LavalinkPlayback.LavalinkPlaybackAdapter.NoMatches | backend/src/main/java/com/gammatunes/backend/infrastructure/lavalink/LavalinkPlaybackAdapter.java:221-225 | exactly onTrackEnd, so Skipped: past the unmatched track when a next item exists (calls, paused flag and one event as in skip), nothing otherwise |
| LavalinkPlayback.LavalinkPlaybackAdapter.LoadFailed | backend/src/main/java/com/gammatunes/backend/infrastructure/lavalink/LavalinkPlaybackAdapter.java:227-231 | exactly onTrackEnd, so Skipped: past the failed track when a next item exists (calls, paused flag and one event as in skip), nothing otherwise |
| LavalinkPlayback.LavalinkEventHandler.constructor | backend/src/main/java/com/gammatunes/backend/infrastructure/lavalink/event/LavalinkEventHandler.java:20-22 | the handler holds its adapter |
| LavalinkPlayback.LavalinkEventHandler.OnTrackEnd | backend/src/main/java/com/gammatunes/backend/infrastructure/lavalink/event/LavalinkEventHandler.java:24-30 | forwarded iff the end reason may start the next track: then Skipped; otherwise state, cursor, paused flag, calls and events are unchanged |
| LavalinkPlayback.LavalinkEventHandler.OnTrackException | backend/src/main/java/com/gammatunes/backend/infrastructure/lavalink/event/LavalinkEventHandler.java:32-37 | always forwarded: Skipped, with its calls, paused flag and event |
| LavalinkPlayback.LavalinkEventHandler.OnTrackStuck | backend/src/main/java/com/gammatunes/backend/infrastructure/lavalink/event/LavalinkEventHandler.java:39-44 | always forwarded: Skipped, with its calls, paused flag and event |
| LavalinkFifoPlayer.LavalinkPlayer.constructor | backend/src/main/java/com/gammatunes/backend/audio/lavalink/LavalinkPlayer.java:35-40 | a new player is STOPPED with an empty FIFO, no current track and no lavaplayer call |
| LavalinkFifoPlayer.LavalinkPlayer.PlayNextInQueue | backend/src/main/java/com/gammatunes/backend/audio/lavalink/LavalinkPlayer.java:109-145 | NextStarted: a non-empty FIFO loses its head, which becomes the current track and is loaded (state kept); an empty FIFO leaves no current track, no call and the player STOPPED; the paused flag never changes |
| LavalinkFifoPlayer.LavalinkPlayer.Enqueue | backend/src/main/java/com/gammatunes/backend/audio/lavalink/LavalinkPlayer.java:42-49 | a STOPPED player goes LOADING and starts the head of the extended FIFO (current track followed by the rest is the old FIFO plus the track); any other state only appends |
| LavalinkFifoPlayer.LavalinkPlayer.Pause | backend/src/main/java/com/gammatunes/backend/audio/lavalink/LavalinkPlayer.java:51-57 | only PLAYING becomes PAUSED (and the lavaplayer paused); every other state is left alone |
| LavalinkFifoPlayer.LavalinkPlayer.Resume | backend/src/main/java/com/gammatunes/backend/audio/lavalink/LavalinkPlayer.java:59-65 | only PAUSED becomes PLAYING (and the lavaplayer unpaused); every other state is left alone |
| LavalinkFifoPlayer.LavalinkPlayer.Stop | backend/src/main/java/com/gammatunes/backend/audio/lavalink/LavalinkPlayer.java:67-74 | STOPPED with an empty FIFO and no current track, after one stop call |
| LavalinkFifoPlayer.LavalinkPlayer.Skip | backend/src/main/java/com/gammatunes/backend/audio/lavalink/LavalinkPlayer.java:76-82 | returns the track that was current and only stops the lavaplayer track; FIFO, state and current track are untouched until the end event |
| LavalinkFifoPlayer.LavalinkPlayer.GetQueue | backend/src/main/java/com/gammatunes/backend/audio/lavalink/LavalinkPlayer.java:84-87 | the FIFO in order |
| LavalinkFifoPlayer.LavalinkPlayer.GetCurrentlyPlaying | backend/src/main/java/com/gammatunes/backend/audio/lavalink/LavalinkPlayer.java:89-92 | the current track, if any |
| LavalinkFifoPlayer.LavalinkPlayer.GetState | backend/src/main/java/com/gammatunes/backend/audio/lavalink/LavalinkPlayer.java:94-97 | the current state |
| LavalinkFifoPlayer.LavalinkPlayer.OnTrackEnd | backend/src/main/java/com/gammatunes/backend/audio/lavalink/LavalinkPlayer.java:104-107 | exactly playNextInQueue (NextStarted): the FIFO's head becomes current and one load of it is requested, or with an empty FIFO the player is STOPPED with no current track and no call |
| LavalinkFifoPlayer.LavalinkPlayer.TrackLoaded | backend/src/main/java/com/gammatunes/backend/audio/lavalink/LavalinkPlayer.java:114-119 | the state becomes PLAYING and the loaded track is played; FIFO and current track unchanged |
| LavalinkFifoPlayer.LavalinkPlayer.PlaylistLoaded | backend/src/main/java/com/gammatunes/backend/audio/lavalink/LavalinkPlayer.java:121-126 | the playlist's first track is played as by trackLoaded; an empty playlist changes nothing |
| LavalinkFifoPlayer.LavalinkPlayer.NoMatches | backend/src/main/java/com/gammatunes/backend/audio/lavalink/LavalinkPlayer.java:128-132 | exactly onTrackEnd (NextStarted): the FIFO's head is loaded, or an empty FIFO stops the player; paused flag kept |
| LavalinkFifoPlayer.LavalinkPlayer.LoadFailed | backend/src/main/java/com/gammatunes/backend/audio/lavalink/LavalinkPlayer.java:134-138 | exactly onTrackEnd (NextStarted): the FIFO's head is loaded, or an empty FIFO stops the player; paused flag kept |
| SrcPlayerRegistry.PlayerRegistry.constructor | src/main/java/com/gammatunes/component/audio/core/PlayerRegistry.java:22-28 | a new registry caches no player and shares the given state store |
| SrcPlayerRegistry.PlayerRegistry.GetOrCreate | src/main/java/com/gammatunes/component/audio/core/PlayerRegistry.java:36-44 | afterwards the guild maps to the returned player, which belongs to that guild and shares the registry's store, and every cached player stays keyed by its own guild; a cached player is returned with the cache and both store maps unchanged; otherwise exactly one fresh STOPPED player on an empty queue is added for that guild, and its UI and position snapshots are published to the store |
| SrcPlayerRegistry.PlayerRegistry.Destroy | src/main/java/com/gammatunes/component/audio/core/PlayerRegistry.java:51-61 | the guild is removed from the cache, every other guild keeps its player, and every cached player stays keyed by its own guild |
| LavalinkRegistry.LavalinkPlayerRegistry.constructor | backend/src/main/java/com/gammatunes/backend/infrastructure/lavalink/LavalinkPlayerRegistry.java:23-28 | a new registry holds no adapter and has destroyed none |
| LavalinkRegistry.LavalinkPlayerRegistry.GetOrCreatePlayer | backend/src/main/java/com/gammatunes/backend/infrastructure/lavalink/LavalinkPlayerRegistry.java:38-49 | afterwards the session maps to the returned adapter; a cached one is returned with the cache unchanged, otherwise a fresh STOPPED adapter with an empty scheduler is added |
| LavalinkRegistry.LavalinkPlayerRegistry.RemovePlayer | backend/src/main/java/com/gammatunes/backend/infrastructure/lavalink/LavalinkPlayerRegistry.java:57-64 | the session is removed; the adapter it held, and only that one, has its lavaplayer destroyed; an unknown session changes nothing |
| PlayerStateStore.StateStore.constructor | src/main/java/com/gammatunes/component/audio/core/PlayerStateStore.java:18-19 | no guild has a UI state or a position |
| PlayerStateStore.StateStore.GetUI | src/main/java/com/gammatunes/component/audio/core/PlayerStateStore.java:53-55 | present exactly when the guild has a stored UI state, and then that state |
| PlayerStateStore.StateStore.GetPosition | src/main/java/com/gammatunes/component/audio/core/PlayerStateStore.java:63-65 | present exactly when the guild has a stored position, and then that position |
| PlayerStateStore.StateStore.SetUIState | src/main/java/com/gammatunes/component/audio/core/PlayerStateStore.java:72-76 | the UI map gains or replaces the entry for the state's guild; positions are unchanged |
| PlayerStateStore.StateStore.SetPosition | src/main/java/com/gammatunes/component/audio/core/PlayerStateStore.java:83-87 | the position map gains or replaces the entry for the position's guild; UI states are unchanged |
| PanelCache.PlayerPanelCache.constructor | src/main/java/com/gammatunes/component/discord/ui/PlayerPanelCache.java:19-22 | a new cache holds no message, status, bar index or edit time (the backend copy, backend/src/main/java/com/gammatunes/backend/presentation/bot/player/cache/PlayerPanelCache.java:18-21, is the same) |
| PanelCache.PlayerPanelCache.GetMessage | src/main/java/com/gammatunes/component/discord/ui/PlayerPanelCache.java:25-25 | the stored message of the guild, and empty exactly when none is stored |
| PanelCache.PlayerPanelCache.PutMessage | src/main/java/com/gammatunes/component/discord/ui/PlayerPanelCache.java:26-26 | stores or replaces the guild's message; the other three maps are unchanged |
| PanelCache.PlayerPanelCache.RemoveMessage | src/main/java/com/gammatunes/component/discord/ui/PlayerPanelCache.java:27-27 | forgets the guild's message only; its status and bar bookkeeping stay |
| PanelCache.PlayerPanelCache.SetStatus | src/main/java/com/gammatunes/component/discord/ui/PlayerPanelCache.java:30-30 | stores the guild's status text; nothing else changes |
| PanelCache.PlayerPanelCache.GetStatus | src/main/java/com/gammatunes/component/discord/ui/PlayerPanelCache.java:31-31 | the stored status text, and null exactly when none was set |
| PanelCache.PlayerPanelCache.GetBarIdx | src/main/java/com/gammatunes/component/discord/ui/PlayerPanelCache.java:34-34 | the recorded head index, or -1 when none was recorded |
| PanelCache.PlayerPanelCache.SetBarIdx | src/main/java/com/gammatunes/component/discord/ui/PlayerPanelCache.java:35-35 | records the head index; nothing else changes |
| PanelCache.PlayerPanelCache.GetEditTs | src/main/java/com/gammatunes/component/discord/ui/PlayerPanelCache.java:36-36 | the recorded edit time, or 0 when none was recorded |
| PanelCache.PlayerPanelCache.SetEditTs | src/main/java/com/gammatunes/component/discord/ui/PlayerPanelCache.java:37-37 | records the edit time; nothing else changes |
| PanelCache.PlayerPanelCache.GuildIds | src/main/java/com/gammatunes/component/discord/ui/PlayerPanelCache.java:39-41 | exactly the guilds that have a panel message |
| TrackQueryService.ProcessQuery | src/main/java/com/gammatunes/service/TrackQueryService.java:79-98 | refused with "Query cannot be null or empty" exactly when the query is missing or trims to nothing; otherwise the result is always a search query or a direct URL: the trimmed query itself when it already is one, else "ytsearch:" before it |
| TrackQueryService.ProcessQueryIdempotent | src/main/java/com/gammatunes/service/TrackQueryService.java:79-98 | processing an accepted query's result again gives the same result |
| TrackQueryService.Candidates | src/main/java/com/gammatunes/service/TrackQueryService.java:130-153 | no match and a failed load carry no track |
| TrackQueryService.FirstTrack | src/main/java/com/gammatunes/service/TrackQueryService.java:130-153 | succeeds exactly when the result carries a track and is not a playlist of more than 50, and then gives the first one; each failure case (oversized or empty playlist, empty search, no match, failed load) has its own error and message |
| TrackQueryService.Limit | src/main/java/com/gammatunes/service/TrackQueryService.java:203-205 | refused for a negative limit; otherwise the order-preserving prefix of length min(count, limit) |
| TrackQueryService.SearchResults | src/main/java/com/gammatunes/service/TrackQueryService.java:196-222 | a loaded track gives a one-element list whatever the limit; otherwise a success is a prefix of the carried tracks of at most `limit` entries, cut only at the limit; success exactly for a playlist or a non-empty search under a non-negative limit; the error cases match firstTrack's |
| TrackQueryService.FirstTrackHeadsSearchResults | src/main/java/com/gammatunes/service/TrackQueryService.java:130-222 | when play succeeds and the limit is at least one, search succeeds too and its first track is the one play takes |
| TrackResolution.LoadIdentifier | backend/src/main/java/com/gammatunes/backend/infrastructure/source/YouTubeResolverPort.java:43-43 | a query starting with "http" is loaded as is; anything else is "ytsearch:" followed by the query, which can be cut back out |
| TrackResolution.DeriveYoutubeThumb | backend/src/main/java/com/gammatunes/backend/infrastructure/source/YouTubeResolverPort.java:95-102 | a thumbnail exists exactly when the id is present and the URI names youtube.com or youtu.be, and is then the hqdefault image of that id |
| TrackResolution.ToTrack | backend/src/main/java/com/gammatunes/backend/infrastructure/source/YouTubeResolverPort.java:72-86 | the loaded URI is both identifier and source URL; title, author and length are carried over; the thumbnail is derived by the port resolver and absent for the older one |
| TrackResolution.Resolve | backend/src/main/java/com/gammatunes/backend/infrastructure/source/YouTubeResolverPort.java:39-93 | resolves exactly for a loaded track or a non-empty search playlist (its first track); a non-search playlist and no match are unresolvable with their messages, a failed load is a load error, and an unanswered load or an empty search playlist times out |
| TrackResolution.YouTubeResolver | backend/src/main/java/com/gammatunes/backend/audio/source/YouTubeResolver.java:31-84 | the resolver accepts by canResolve (no "spotify.com") and resolves what the loader reports for the query's load identifier |
| TrackResolution.FirstAccepting | backend/src/main/java/com/gammatunes/backend/infrastructure/source/AudioSourceManager.java:35-42 | the position of the first accepting resolver: no resolver before it accepts, and it accepts unless it is past the end |
| TrackResolution.FirstAcceptingIgnoresLater | backend/src/main/java/com/gammatunes/backend/audio/source/AudioSourceManager.java:34-41 | resolvers added after an accepting one never change which resolver is chosen |
| TrackResolution.ResolveTrack | backend/src/main/java/com/gammatunes/backend/infrastructure/source/AudioSourceManager.java:35-42 | the first accepting resolver's result, error included, is final; with none accepting the query is unresolvable with "Could not find a resolver for query: " and the query |
| SrcQueueDropdown.Truncate | src/main/java/com/gammatunes/component/discord/ui/renderer/QueueDropdownRenderer.java:106-109 | null gives ""; text within the limit is kept; longer text keeps its first max-1 characters plus an ellipsis, so with a positive limit the result never exceeds it |
| SrcQueueDropdown.SafeValue | src/main/java/com/gammatunes/component/discord/ui/renderer/QueueDropdownRenderer.java:132-136 | null gives "null"; otherwise a prefix of the trimmed identifier of at most 80 characters, the whole of it when it fits |
| SrcQueueDropdown.HistoryOptions | src/main/java/com/gammatunes/component/discord/ui/renderer/QueueDropdownRenderer.java:52-59 | at most 10 options; the i-th shows the i-th most recent history entry (reversed order) and is valued with i |
| SrcQueueDropdown.CurrentOptions | src/main/java/com/gammatunes/component/discord/ui/renderer/QueueDropdownRenderer.java:61-65 | one option exactly when a current track exists |
| SrcQueueDropdown.QueueOptions | src/main/java/com/gammatunes/component/discord/ui/renderer/QueueDropdownRenderer.java:67-73 | at most 14 options, the i-th for the i-th upcoming track |
| SrcQueueDropdown.Options | src/main/java/com/gammatunes/component/discord/ui/renderer/QueueDropdownRenderer.java:50-73 | history, current and queue counts add up, and the menu never exceeds Discord's 25 options |
| SrcQueueDropdown.EnsureUniqueValues | src/main/java/com/gammatunes/component/discord/ui/renderer/QueueDropdownRenderer.java:86-96 | reports no duplicate exactly when all option values differ; a reported value occurs at two positions |
| SrcQueueDropdown.IndexedValueFields | src/main/java/com/gammatunes/component/discord/ui/renderer/QueueDropdownRenderer.java:57-57 | an "h:"/"q:" value starts with its tag and its second colon-separated field parses back to the index |
| SrcQueueDropdown.IndexedValuesDiffer | src/main/java/com/gammatunes/component/discord/ui/renderer/QueueDropdownRenderer.java:71-71 | values with the same tag and different indexes differ, whatever the identifiers |
| SrcQueueDropdown.HistoryValuesDistinct | src/main/java/com/gammatunes/component/discord/ui/renderer/QueueDropdownRenderer.java:54-59 | history values are pairwise distinct and all tagged 'h' |
| SrcQueueDropdown.QueueValuesDistinct | src/main/java/com/gammatunes/component/discord/ui/renderer/QueueDropdownRenderer.java:67-73 | queue values are pairwise distinct and all tagged 'q' |
| SrcQueueDropdown.OptionsDistinct | src/main/java/com/gammatunes/component/discord/ui/renderer/QueueDropdownRenderer.java:50-75 | every option list render builds has pairwise distinct values, so its uniqueness check never throws |
| SrcQueueDropdown.BuildHistoryOptions | src/main/java/com/gammatunes/component/discord/ui/renderer/QueueDropdownRenderer.java:53-59 | the loop's options are exactly the reversed-history option list |
| SrcQueueDropdown.BuildQueueOptions | src/main/java/com/gammatunes/component/discord/ui/renderer/QueueDropdownRenderer.java:67-73 | the loop's options are exactly the queue option list |
| SrcQueueDropdown.Render | src/main/java/com/gammatunes/component/discord/ui/renderer/QueueDropdownRenderer.java:29-78 | with nothing to show, the disabled one-option "noop" menu; otherwise the history, current and queue options in that order under "Jump to a track..."; values always distinct |
| SrcQueueDropdown.QueueOptionFields | src/main/java/com/gammatunes/component/discord/ui/renderer/QueueDropdownRenderer.java:67-72 | the i-th queue option is labelled "i+1. title" cut to 100 and valued "q:i:" plus the safe identifier |
| SrcQueueDropdown.HistoryOptionFields | src/main/java/com/gammatunes/component/discord/ui/renderer/QueueDropdownRenderer.java:53-58 | the i-th history option shows the entry at |h|-1-i, cut to 95, but is valued "h:i:" |
| SrcQueueDropdown.QueueOptionJumps | src/main/java/com/gammatunes/component/discord/ui/renderer/QueueDropdownRenderer.java:67-73 | rendered from a scheduler's queue, the i-th queue option shows upcoming track i and the scheduler's jump lands on exactly that track (index cursor+1+i) |
| SrcQueueDropdown.HistoryOptionJumpsMirrored | src/main/java/com/gammatunes/component/discord/ui/renderer/QueueDropdownRenderer.java:52-59 | as written, the i-th history option shows the track at cursor-1-i yet the scheduler's jump lands on index i |
| SrcQueueDropdown.HistoryJumpMisses | src/main/java/com/gammatunes/component/discord/ui/renderer/QueueDropdownRenderer.java:52-59 | with history [a, b] and current c, the first option shows b but jumps back to a |
| SrcQueueDropdown.CorrectedHistoryOptions | src/main/java/com/gammatunes/component/discord/ui/renderer/QueueDropdownRenderer.java:52-59 | at most 10 options, the i-th being the corrected option for the i-th most recent entry |
| SrcQueueDropdown.CorrectedHistoryOptionFields | src/main/java/com/gammatunes/component/discord/ui/renderer/QueueDropdownRenderer.java:53-58 | the corrected i-th option shows the entry at k = |h|-1-i and is valued "h:k:" |
| SrcQueueDropdown.CorrectedHistoryOptionJumps | src/main/java/com/gammatunes/component/discord/ui/renderer/QueueDropdownRenderer.java:52-59 | with the corrected values, every history option jumps to the very track it shows (index cursor-1-i) |
| BackendQueueDropdown.Truncate | backend/src/main/java/com/gammatunes/backend/presentation/bot/player/view/renderer/QueueDropdownRenderer.java:82-84 | a prefix of the text of length min(length, limit), equal to the text exactly when it fits |
| BackendQueueDropdown.HistoryOptions | backend/src/main/java/com/gammatunes/backend/presentation/bot/player/view/renderer/QueueDropdownRenderer.java:50-54 | at most 10 options, the i-th for the i-th most recent history item |
| BackendQueueDropdown.CurrentOptions | backend/src/main/java/com/gammatunes/backend/presentation/bot/player/view/renderer/QueueDropdownRenderer.java:56-61 | one option exactly when there is a current item |
| BackendQueueDropdown.QueueOptions | backend/src/main/java/com/gammatunes/backend/presentation/bot/player/view/renderer/QueueDropdownRenderer.java:63-67 | at most 14 options, the i-th for the i-th upcoming item |
| BackendQueueDropdown.Options | backend/src/main/java/com/gammatunes/backend/presentation/bot/player/view/renderer/QueueDropdownRenderer.java:47-67 | never more than 25 options, and at least one exactly when there is a history, a current item or a queue |
| BackendQueueDropdown.AddHistoryOptions | backend/src/main/java/com/gammatunes/backend/presentation/bot/player/view/renderer/QueueDropdownRenderer.java:50-54 | the loop over the reversed copy yields exactly the history option list |
| BackendQueueDropdown.AddQueueOptions | backend/src/main/java/com/gammatunes/backend/presentation/bot/player/view/renderer/QueueDropdownRenderer.java:63-67 | the loop yields exactly the queue option list |
| BackendQueueDropdown.Render | backend/src/main/java/com/gammatunes/backend/presentation/bot/player/view/renderer/QueueDropdownRenderer.java:30-80 | the disabled "empty" menu when there is nothing to show; otherwise the history, current and queue options under "Jump to a track..." with the current identifier as default value; the second fallback is unreachable |
| BackendQueueDropdown.Values | backend/src/main/java/com/gammatunes/backend/presentation/bot/player/view/renderer/QueueDropdownRenderer.java:53-66 | the option values, position by position |
| BackendQueueDropdown.Identifiers | backend/src/main/java/com/gammatunes/backend/presentation/bot/player/view/renderer/QueueDropdownRenderer.java:53-66 | the items' track identifiers, position by position |
| BackendQueueDropdown.ValuesAreIdentifiers | backend/src/main/java/com/gammatunes/backend/presentation/bot/player/view/renderer/QueueDropdownRenderer.java:50-67 | the option values are exactly the identifiers of the last ten history items (most recent first), the current item and the first fourteen queued items |
| BackendQueueDropdown.DefaultIsCurrentOption | backend/src/main/java/com/gammatunes/backend/presentation/bot/player/view/renderer/QueueDropdownRenderer.java:56-61 | the default value is the value of the "Now Playing" option, which sits right after the history options |
| BackendQueueDropdown.LabelsNumberedAndBounded | backend/src/main/java/com/gammatunes/backend/presentation/bot/player/view/renderer/QueueDropdownRenderer.java:53-66 | queue labels start with "position. " and fit in 100 characters; history labels are prefixes of the cleaned title of at most 95 characters |
| BackendQueueDropdown.QueueOptionTarget | backend/src/main/java/com/gammatunes/backend/presentation/bot/player/view/renderer/QueueDropdownRenderer.java:63-67 | a queue option's identifier leads findTrackIndex to the earliest item with that identifier, which is the shown item exactly when no earlier item shares it |
| BackendQueueDropdown.RepeatedTrackJumpsBack | backend/src/main/java/com/gammatunes/backend/presentation/bot/player/view/renderer/QueueDropdownRenderer.java:50-67 | a played and a queued item sharing an identifier give two options with one value, and picking the queued one jumps back to the played one |
| DurationFormat.PartsSum | src/main/java/com/gammatunes/component/discord/ui/renderer/ProgressBarRenderer.java:63-66 | the hours, minutes part and seconds part java.time reports recombine into the whole seconds; the parts stay within ±60 and are non-negative for a non-negative length, whose seconds are the milliseconds over 1000 |
| DurationFormat.PaddedTextReadsBack | src/main/java/com/gammatunes/component/discord/ui/renderer/ProgressBarRenderer.java:67-69 | the "%02d" layouts have three fields exactly when the hours are positive, each at least two characters, and read back as the weighted sum of the parts printed |
| DurationFormat.PaddedClockReadsBack | backend/src/main/java/com/gammatunes/backend/presentation/bot/player/view/renderer/ProgressBarRenderer.java:30-40 | the padded clock has three fields exactly when there is an hour to show, each field at least two characters, and reads back as the length's whole seconds whenever that is above minus one hour |
| DurationFormat.CompactTextReadsBack | src/main/java/com/gammatunes/component/discord/ui/renderer/QueueInfoFieldRenderer.java:55-57 | the "%d" layouts have three fields exactly when the hours are positive, a two-character seconds field, and read back as the weighted sum of the parts printed |
| DurationFormat.CompactClockReadsBack | src/main/java/com/gammatunes/component/discord/ui/renderer/QueueInfoFieldRenderer.java:47-58 | the queue clock reads back as the whole seconds of a positive length and as zero otherwise ("0:00"), has three fields exactly when there is an hour, and a two-character seconds field |
| Panel.BarGlyphs | src/main/java/com/gammatunes/component/discord/ui/renderer/ProgressBarRenderer.java:46-52 | n glyphs, the head at slot `head` and a unit at every other slot |
| Panel.BarGlyphsHead | backend/src/main/java/com/gammatunes/backend/presentation/bot/player/view/renderer/ProgressBarRenderer.java:25-25 | the bar shows a head exactly when the slot lies on it, and never two heads |
| Panel.AppendBarGlyphs | backend/src/main/java/com/gammatunes/backend/presentation/bot/player/view/renderer/ProgressBarRenderer.java:24-25 | the counted loop appends exactly the glyphs of BarGlyphs after the prefix |
| SrcProgressBar.HeadIndex | src/main/java/com/gammatunes/component/discord/ui/renderer/ProgressBarRenderer.java:46-49 | the slot is always on the 15-glyph bar; before the end it is 15·position/total rounded down, at or past the end the last slot, at or before the start the first |
| SrcProgressBar.HeadIndexMonotone | src/main/java/com/gammatunes/component/discord/ui/renderer/ProgressBarRenderer.java:46-49 | the head never moves back while the position moves forward |
| SrcProgressBar.BuildBarShape | src/main/java/com/gammatunes/component/discord/ui/renderer/ProgressBarRenderer.java:42-53 | for a positive length the bar is the 15 glyphs with exactly the head at HeadIndex and units elsewhere |
| SrcProgressBar.FormatReadsBack | src/main/java/com/gammatunes/component/discord/ui/renderer/ProgressBarRenderer.java:62-70 | a formatted length reads back as its whole seconds, and as zero for a negative length |
| SrcProgressBar.Render | src/main/java/com/gammatunes/component/discord/ui/renderer/ProgressBarRenderer.java:23-33 | a field exists exactly when a track is current; it is named by a zero-width space and not inline |
| SrcProgressBar.RenderShowsPosition | src/main/java/com/gammatunes/component/discord/ui/renderer/ProgressBarRenderer.java:23-33 | for a positive length the field's first line is the bar with its head at the clamped position and the second line starts with that position's clock |
| BackendProgressBar.HeadPosition | backend/src/main/java/com/gammatunes/backend/presentation/bot/player/view/renderer/ProgressBarRenderer.java:23-23 | the slot lies on the 20-glyph bar before the end of the track, past it at or after the end, and at or before the first slot for a negative position |
| BackendProgressBar.BarTextHead | backend/src/main/java/com/gammatunes/backend/presentation/bot/player/view/renderer/ProgressBarRenderer.java:20-27 | for a positive length the text opens with 20 glyphs between "[" and "]" drawn at HeadPosition; at or after the end of the track all 20 are units, with no head |
| BackendProgressBar.Build | backend/src/main/java/com/gammatunes/backend/presentation/bot/player/view/renderer/ProgressBarRenderer.java:20-28 | the loop-built text is the live-stream text for a length of zero or less, otherwise the bracketed glyphs followed by "] position/length" |
| BackendProgressBar.Render | backend/src/main/java/com/gammatunes/backend/presentation/bot/player/view/renderer/ProgressBarRenderer.java:12-18 | a "Progress" field exactly when a track is playing, holding the bar built from the player's position and the track's length |
| PlayerEmbedFactory.BuildProgressBar | backend/src/main/java/com/gammatunes/backend/presentation/bot/player/view/factory/PlayerEmbedFactory.java:73-101 | with no current track the dashed empty bar, for a length of zero or less the live-stream text, otherwise the backtick-framed 20-glyph bar followed by the position and length clocks |
| PlayerEmbedFactory.BuildPlayingBar | backend/src/main/java/com/gammatunes/backend/presentation/bot/player/view/factory/PlayerEmbedFactory.java:86-100 | the counted loop puts the head on slot 20·position/length (rounded toward zero) among 20 glyphs, then appends "]` `position/length`" |
| PlayerEmbedFactory.BarsAgree | backend/src/main/java/com/gammatunes/backend/presentation/bot/player/view/factory/PlayerEmbedFactory.java:86-97 | the factory's bar and the backend progress renderer's bar draw identical 20 glyphs for the same player |
| PlayerEmbedFactory.Build | backend/src/main/java/com/gammatunes/backend/presentation/bot/player/view/factory/PlayerEmbedFactory.java:25-49 | no current track gives the blue idle embed with no field; otherwise a green embed titled "Now Playing: " + title, linked to the source URL, "by " + author, with the track's thumbnail when present and one "Progress" field holding the bar |
| PlayerEmbedFactory.BuildButtons | backend/src/main/java/com/gammatunes/backend/presentation/bot/player/view/factory/PlayerEmbedFactory.java:52-68 | the same four buttons the backend controls renderer shows: previous, pause when PLAYING else resume, skip, stop |
| SrcQueueInfo.Lengths | src/main/java/com/gammatunes/component/discord/ui/renderer/QueueInfoFieldRenderer.java:30-31 | one length per queued track, in queue order |
| SrcQueueInfo.ClampedSum | src/main/java/com/gammatunes/component/discord/ui/renderer/QueueInfoFieldRenderer.java:30-32 | the total of the lengths with each negative one counted as zero is never negative |
| SrcQueueInfo.ClampedSumAppend | src/main/java/com/gammatunes/component/discord/ui/renderer/QueueInfoFieldRenderer.java:30-32 | the clamped total of two runs of lengths is the sum of their totals |
| SrcQueueInfo.ClampedSumCovers | src/main/java/com/gammatunes/component/discord/ui/renderer/QueueInfoFieldRenderer.java:30-32 | no track's clamped length exceeds the total |
| SrcQueueInfo.Render | src/main/java/com/gammatunes/component/discord/ui/renderer/QueueInfoFieldRenderer.java:24-38 | no field exactly when the queue is empty; otherwise a "Queue" field, not inline |
| SrcQueueInfo.RenderReadsBack | src/main/java/com/gammatunes/component/discord/ui/renderer/QueueInfoFieldRenderer.java:24-58 | the field starts with the queue's size, which parses back to it, then the separator, then a clock reading back as the clamped total in whole seconds |
| BackendQueueInfo.Durations | backend/src/main/java/com/gammatunes/backend/presentation/bot/player/view/renderer/QueueInfoFieldRenderer.java:27-29 | one duration per queued item, in queue order |
| BackendQueueInfo.PlainSumAgrees | backend/src/main/java/com/gammatunes/backend/presentation/bot/player/view/renderer/QueueInfoFieldRenderer.java:27-29 | the backend's unclamped total never exceeds the src tree's clamped one, and they agree exactly when no length is negative |
| BackendQueueInfo.Render | backend/src/main/java/com/gammatunes/backend/presentation/bot/player/view/renderer/QueueInfoFieldRenderer.java:21-35 | no field exactly when the queue is empty; otherwise a "Queue" field, not inline |
| BackendQueueInfo.RenderReadsBack | backend/src/main/java/com/gammatunes/backend/presentation/bot/player/view/renderer/QueueInfoFieldRenderer.java:21-45 | the field starts with the queue's size, which parses back to it, then the separator, then a clock reading back as the plain total in whole seconds, or zero when that total is not positive |
| SrcUpNext.Titles | src/main/java/com/gammatunes/component/discord/ui/renderer/UpNextFieldRenderer.java:29-31 | one title per queued track, in queue order |
| SrcUpNext.Render | src/main/java/com/gammatunes/component/discord/ui/renderer/UpNextFieldRenderer.java:23-39 | no field for an empty queue; otherwise the counted loop builds the "Up Next" text: the numbered lines of the first three titles and, past three, "...and N more" |
| SrcUpNext.LineBreaks | src/main/java/com/gammatunes/component/discord/ui/renderer/UpNextFieldRenderer.java:31-31 | a line whose cleaned title holds no line break holds exactly one, at its end |
| SrcUpNext.LinesBreaks | src/main/java/com/gammatunes/component/discord/ui/renderer/UpNextFieldRenderer.java:29-32 | n listed lines hold exactly n line breaks and end with one |
| SrcUpNext.UpNextShape | src/main/java/com/gammatunes/component/discord/ui/renderer/UpNextFieldRenderer.java:23-39 | the field lists exactly min(size, 3) lines, and ends with a line break exactly when no "...and N more" follows, that is when at most three titles are queued |
| SrcUpNext.UpNextListsInOrder | src/main/java/com/gammatunes/component/discord/ui/renderer/UpNextFieldRenderer.java:29-32 | the k-th line (k < 3) is numbered k+1, shows the k-th cleaned title, and follows the earlier lines at the start of the field |
| SrcUpNext.LinesPrefix | src/main/java/com/gammatunes/component/discord/ui/renderer/UpNextFieldRenderer.java:29-32 | fewer lines are a prefix of more lines |
| BackendUpNext.Titles | backend/src/main/java/com/gammatunes/backend/presentation/bot/player/view/renderer/UpNextFieldRenderer.java:24-26 | the titles of the queued items' tracks, in queue order |
| BackendUpNext.Render | backend/src/main/java/com/gammatunes/backend/presentation/bot/player/view/renderer/UpNextFieldRenderer.java:22-43 | no field for an empty queue; otherwise the loop builds the same text as the src renderer over the items' titles |
| SrcControls.PrimaryButtons | src/main/java/com/gammatunes/component/discord/ui/renderer/ControlsRenderer.java:28-41 | five buttons in the order shuffle, previous, pause-or-resume, skip, repeat; pause (primary) exactly when the view's state is "PLAYING", resume (success) otherwise; repeat is highlighted exactly when repeat is on |
| SrcControls.SecondaryButtons | src/main/java/com/gammatunes/component/discord/ui/renderer/ControlsRenderer.java:43-47 | the second row holds only the danger-styled stop button |
| SrcControls.Render | src/main/java/com/gammatunes/component/discord/ui/renderer/ControlsRenderer.java:20-26 | two rows: the five primary buttons, then the stop button |
| SrcControls.ButtonIdsDistinct | src/main/java/com/gammatunes/component/discord/ui/renderer/ControlsRenderer.java:20-47 | the six button ids of the panel are pairwise distinct in every state |
| BackendControls.Buttons | backend/src/main/java/com/gammatunes/backend/presentation/bot/player/view/renderer/ControlsRenderer.java:12-21 | four buttons: previous, then pause exactly when the player is PLAYING (resume otherwise), then skip and stop |
| ProgressThrottle.ChooseInterval | src/main/java/com/gammatunes/component/discord/ui/ProgressBarScheduler.java:53-57 | the minimum time between two edits is 5, 8 or 12 seconds; it is 5 s exactly for tracks of at most five minutes and 12 s exactly for tracks longer than fifteen minutes (the backend copy, backend/src/main/java/com/gammatunes/backend/presentation/bot/player/service/ProgressBarScheduler.java:58-62, is the same) |
| ProgressThrottle.ChooseIntervalMonotone | src/main/java/com/gammatunes/component/discord/ui/ProgressBarScheduler.java:53-57 | a longer track never gets a shorter interval than a shorter track |
| ProgressThrottle.HeadIdxWithinTrack | src/main/java/com/gammatunes/component/discord/ui/ProgressBarScheduler.java:37-37 | for positions inside the track the head index `(int)(20*pos/dur)` lies in 0..19, never moves back as the position grows, and equals the cell the backend bar draws its head on |
| ProgressThrottle.Updated | src/main/java/com/gammatunes/component/discord/ui/ProgressBarScheduler.java:42-45 | the guilds a tick updates are among the guilds it visits |
| ProgressThrottle.NextNone | src/main/java/com/gammatunes/component/discord/ui/ProgressBarScheduler.java:27-27 | a tick with no panel messages changes no bar index and no edit time |
| ProgressThrottle.UpdatedStep | src/main/java/com/gammatunes/component/discord/ui/ProgressBarScheduler.java:45-48 | visiting one more guild adds it to the updated guilds exactly when its interval has elapsed and its head has moved |
| ProgressThrottle.NextStep | src/main/java/com/gammatunes/component/discord/ui/ProgressBarScheduler.java:27-50 | visiting one more guild changes only that guild's bookkeeping, and whether it is due does not depend on the guilds visited before it, so the visiting order of the key set does not matter |
| ProgressThrottle.TickIdempotent | src/main/java/com/gammatunes/component/discord/ui/ProgressBarScheduler.java:42-48 | a second tick at the same instant changes nothing: each guild just updated now has its edit time equal to now, and the others still fail the same test |
| ProgressThrottle.UpdatesSpaced | src/main/java/com/gammatunes/component/discord/ui/ProgressBarScheduler.java:40-48 | once a guild is updated at time now, no later tick before now plus its interval updates it again, whatever position it then reads |
| SrcProgressBarScheduler.Readings | src/main/java/com/gammatunes/component/discord/ui/ProgressBarScheduler.java:28-33 | a guild is considered exactly when its UI state exists and is PLAYING and it has a stored position, and the reading is that position and length |
| SrcProgressBarScheduler.Tick | src/main/java/com/gammatunes/component/discord/ui/ProgressBarScheduler.java:24-51 | after a tick the bar indices and edit times are those of the throttle rule applied to every guild with a panel message; messages and statuses are unchanged |
| SrcProgressBarScheduler.TickGuild | src/main/java/com/gammatunes/component/discord/ui/ProgressBarScheduler.java:28-49 | one guild: when it is due, its bar index becomes the new head index and its edit time becomes now; otherwise nothing changes |
| BackendProgressBarScheduler.Readings | backend/src/main/java/com/gammatunes/backend/presentation/bot/player/service/ProgressBarScheduler.java:26-35 | a guild is considered exactly when it had a cached player that is PLAYING (a player the tick creates is STOPPED) and its current item has a positive duration (0 when there is no item), and the reading is the player's position and that duration |
| BackendProgressBarScheduler.Tick | backend/src/main/java/com/gammatunes/backend/presentation/bot/player/service/ProgressBarScheduler.java:22-56 | after a tick the registry holds a player for every guild with a panel message: the cached ones unchanged, a fresh STOPPED adapter for each guild that had none, nothing destroyed; the bookkeeping is that of the throttle rule over those guilds, reading only players that were cached and PLAYING, and the gateway is asked to redraw exactly the guilds the rule updates; messages and statuses are unchanged |
| BackendProgressBarScheduler.TickGuild | backend/src/main/java/com/gammatunes/backend/presentation/bot/player/service/ProgressBarScheduler.java:26-54 | one guild: getOrCreatePlayer leaves a cached player in place or caches a fresh STOPPED adapter; when the guild is due, its index and edit time are recorded and a redraw is requested for its stored message; otherwise the cache is unchanged and nothing is redrawn |
| BackendProgressBarScheduler.FetchPlayer | backend/src/main/java/com/gammatunes/backend/presentation/bot/player/service/ProgressBarScheduler.java:26-29 | the player fetched with getOrCreatePlayer is PLAYING exactly when the guild had a cached PLAYING player; otherwise a fresh STOPPED adapter is cached for a guild that had none, and nothing else in the registry changes |
| PlayerViewMapper.NullIfBlank | src/main/java/com/gammatunes/component/discord/ui/panel/PlayerViewMapper.java:109-111 | the result is null exactly for a null or blank value, and otherwise the value itself |
| PlayerViewMapper.JsonText | src/main/java/com/gammatunes/component/discord/ui/panel/PlayerViewMapper.java:76-78 | a key missing from the JSON object reads as null |
| PlayerViewMapper.MapText | src/main/java/com/gammatunes/component/discord/ui/panel/PlayerViewMapper.java:86-98 | reading a key from the map fails with a class-cast exactly when the key holds an object that is not a String |
| PlayerViewMapper.ExtractRequester | src/main/java/com/gammatunes/component/discord/ui/panel/PlayerViewMapper.java:68-104 | null user data and any other object give no requester; a requester that is present has each field absent or non-blank and at least one present; JSON gives the requester of its three text fields; a map holding a non-String under one of the three keys gives none |
| PlayerViewMapper.BlankJsonHasNoRequester | src/main/java/com/gammatunes/component/discord/ui/panel/PlayerViewMapper.java:75-84 | JSON whose three fields are all missing, null, containers or blank text names no requester |
| PlayerViewMapper.ToTrackView | src/main/java/com/gammatunes/component/discord/ui/panel/PlayerViewMapper.java:51-61 | the view keeps the track's identifier, title and length, and its requester is the one extracted from the track's user data |
| PlayerViewMapper.TrackViews | src/main/java/com/gammatunes/component/discord/ui/panel/PlayerViewMapper.java:25-33 | the list of views has the tracks' length and order, one view per track |
| PlayerViewMapper.ToView | src/main/java/com/gammatunes/component/discord/ui/panel/PlayerViewMapper.java:21-45 | guild, state name, repeat and volume are copied; the position is the stored one, or 0 without one; the current track's view is present exactly when there is a current track; queue and history views keep the tracks' number, order and identifiers |
| MessageResolver.Resolve | src/main/java/com/gammatunes/component/discord/ui/MessageResolver.java:25-50 | no message exactly for LOAD_FAILED, and a non-empty line for every other outcome |
| MessageResolver.OutcomeOfResolve | src/main/java/com/gammatunes/component/discord/ui/MessageResolver.java:26-49 | every line the resolver produces can be read back to the outcome that produced it |
| MessageResolver.OutcomeOfResolveStart | src/main/java/com/gammatunes/component/discord/ui/MessageResolver.java:27-29 | the added, playing and completed lines read back to their outcomes |
| MessageResolver.OutcomeOfResolveSkip | src/main/java/com/gammatunes/component/discord/ui/MessageResolver.java:30-35 | the skip, nothing-to-skip and previous lines read back to their outcomes |
| MessageResolver.OutcomeOfResolveJump | src/main/java/com/gammatunes/component/discord/ui/MessageResolver.java:36-38 | the no-previous, jumped and invalid-jump lines read back to their outcomes |
| MessageResolver.OutcomeOfResolvePlayback | src/main/java/com/gammatunes/component/discord/ui/MessageResolver.java:39-45 | the pause, resume, stop and queue lines read back to their outcomes |
| MessageResolver.OutcomeOfResolveRepeat | src/main/java/com/gammatunes/component/discord/ui/MessageResolver.java:32-34 | the three repeat lines read back to their outcomes |
| MessageResolver.OutcomeOfResolveShuffle | src/main/java/com/gammatunes/component/discord/ui/MessageResolver.java:46-46 | the shuffle line reads back to SHUFFLED |
| MessageResolver.OutcomeOfResolveError | src/main/java/com/gammatunes/component/discord/ui/MessageResolver.java:48-48 | the error line reads back to ERROR |
| MessageResolver.ErrorShape | src/main/java/com/gammatunes/component/discord/ui/MessageResolver.java:48-48 | any 33-character line led by the warning sign is read as ERROR |
| MessageResolver.ResolveInjective | src/main/java/com/gammatunes/component/discord/ui/MessageResolver.java:25-50 | no two outcomes share a status line |
| MessageResolver.ResolveUsesButtonGlyphs | src/main/java/com/gammatunes/component/discord/ui/MessageResolver.java:15-17 | the playing and resumed lines start with the play button's glyph, the skip and previous lines with the skip button's glyph, and the paused line with the pause button's glyph |
| ApiRoutes.BuildPutsIdInPlace | backend/src/main/java/com/gammatunes/backend/common/ApiRoutes.java:12-30 | building a route made of the base and a brace-free action gives "/api/v1/music/", then the session id, then the action, for any session id, and the id can be cut back out of the path |
| ApiRoutes.RoutesBuild | backend/src/main/java/com/gammatunes/backend/common/ApiRoutes.java:13-20 | the six routes are the base followed by their action, the actions hold no brace, and each builds to the prefix, the id and the action |
| ApiRoutes.ClientPaths | backend/src/main/java/com/gammatunes/backend/common/ApiRoutes.java:28-30 | building PLAY with "123" gives "/api/v1/music/123/play" and STATUS with "456" gives "/api/v1/music/456/status" |
| ApiRoutes.BuildLeavesNoPlaceholder | backend/src/main/java/com/gammatunes/backend/common/ApiRoutes.java:28-30 | when the session id holds no "{sessionId}", the path built from any route constant holds none either |

## Left out

- Reactive plumbing is not modelled:
  - `Mono` return values, `Sinks` and the events they emit;
  - the state-changed event bus;
  - `CompletableFuture` completion.

  Each operation is modelled sequentially, and its result is returned directly.
- Concurrency is not modelled: `ConcurrentHashMap`, `AtomicReference` compare-and-set, `volatile` and `synchronized`. A compare-and-set is modelled as its sequential meaning.
- Logging and metrics are left out, because they change nothing the core computes.
- Node and lavaplayer effects are recorded, not carried out. The model cannot see their effect on audio.
  - In the backend classes, `stopTrack`, `loadItem` and `playTrack` are appended to the `calls` log.
  - In the backend classes, lavaplayer's `setPaused` is the `paused` flag, which keeps only the last value set.
  - In the src `Player`, node plays, stops and pauses are `PlayRequest`, `StopRequest` and `PauseRequest` entries in `requests`.
  - A backend `destroy` is recorded in the registry's `destroyed` list.
- Node failure in the src `Player` is the parameter `nodeOk`. PlayerActionsHandler is not part of this model. It swallows every node error, pause and resume included, so in the program as wired `nodeOk` is always true and the rollback branch is modelled only as the player codes it.
- A load's outcome is an input datatype. This covers `TrackLoaded`, `PlaylistLoaded`, search results, `NoMatches`, `LoadFailed`, and a load that never answers.
- The ten-second wait in the resolvers is the `TimedOut` outcome; no clock is modelled.
- `TrackQueryService.resolve` and `search` are not members of their own. They are `processQuery` followed by the node's load, whose result `FirstTrack` and `SearchResults` map. The node call is not part of this model.
- Wall-clock reads are left out. The schedulers take `now` as a parameter, and the `@Scheduled` timer is not modelled.
- Discord and JDA output is left out:
  - embeds, buttons and select options are plain records;
  - JDA's own builder validation (label and value lengths) is not checked;
  - the panel gateway's message edit is represented only by the set of guilds whose redraw the backend tick requests.
- `PlayerRegistry.destroy` also tears down the guild's Lavalink link. Only the map removal is modelled, because the link is foreign.
- Constructors of the Lavalink-backed classes register listeners with lavaplayer. That registration is not modelled.
- Title cleaning (`cleanTitle`'s regular expressions) is the function parameter `clean`, not a regular-expression engine.
- `%n` in `String.format` is taken to be "\n".
- Randomness in `Collections.shuffle` is the parameter `draws`, the successive results of `Random.nextInt`.
- Java strings are modelled as sequences of code points. Java's `length()` and `substring` count UTF-16 units, so text outside the Basic Multilingual Plane is measured differently.
- JavaText.ParseInt: only the ASCII digits 0-9 count as digits. `Integer.parseInt` also accepts the other Unicode decimal digits (Arabic-Indic, Devanagari, fullwidth and so on), so the model reads such text as a NumberFormatException where Java reads a number. Every number the bot writes itself is ASCII.
- SrcTrackScheduler.JumpTarget: it reads the index with ParseInt, so an index written in non-ASCII decimal digits is a non-numeric index (no jump) in the model, while `jumpToPrefixedIdentifier` in Java would parse it and may jump. The dropdown values the renderer emits are ASCII, so only a hand-made value can reach this case.
- SrcTrackScheduler.TrackScheduler.JumpToPrefixedIdentifier: it follows JumpTarget, so it has the same ASCII-only reading of the index.
- Java `long` arithmetic is not bounded in the model, so positions, lengths and sums never overflow. The one exception is the `(int)` cast of the progress head index, which wraps explicitly.
- `getTrackPosition`, `getSession` and similar accessors that only read a foreign player are inputs, not members.
- DurationFormat.PaddedTextReadsBack: the read-back parses the hours field with `Integer.parseInt`, so it is stated only for hours up to 2^31-1. Longer lengths, of over 200,000 years, are printed but not read back.
- DurationFormat.PaddedClockReadsBack: it has the same bound on hours, for the same reason.
- DurationFormat.CompactTextReadsBack: it has the same bound on hours, for the same reason.
- DurationFormat.CompactClockReadsBack: it has the same bound on hours, for the same reason.
- Distributed features (node pools, failover, snapshot replication) do not exist in these files. The command, button and HTTP layers are outside this model.

## Findings

| source | as written | input that shows it | evidently intended | confidence | as-written member | corrected member |
|---|---|---|---|---|---|---|
| src/main/java/com/gammatunes/component/discord/ui/renderer/QueueDropdownRenderer.java:52-59 | the i-th history option shows the i-th most recent track but is valued `h:i:…`. The scheduler reads i as an absolute list index (src/main/java/com/gammatunes/component/audio/queue/TrackScheduler.java:131-136). | history [a, b] with current c: the first option shows b, and choosing it jumps to a | the value names the shown track's absolute position, `h:(size-1-i):…`, so the jump lands on the track shown | high (not executed) | SrcQueueDropdown.HistoryJumpMisses | SrcQueueDropdown.CorrectedHistoryOptionJumps |
| src/main/java/com/gammatunes/component/audio/core/Player.java:128-133 | playNow pushes the track and then calls skip. On an empty queue, push makes the track current with nothing after it, so skip finds no next track and no play request is issued. | a fresh player (empty queue) calling playNow(t): t is current, but nothing plays | the track plays immediately whatever the queue held | medium (not executed) | SrcPlayer.Player.PlayNow | SrcPlayer.Player.PlayNowImmediately |

Both corrected members are proved beside the as-written ones. `SrcQueueDropdown.Render` and `SrcPlayer.Player.PlayNow` keep the behaviour the code has, so the rest of the model describes the program as it is. `SrcPlayer.Player.PlayNowImmediately` is the corrected `playNow`, and `SrcQueueDropdown.CorrectedHistoryOptions` the corrected history options.
