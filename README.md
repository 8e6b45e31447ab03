# Music service example — a Dafny model

This project models the core of an Android music player built from two
Python processes that talk over OSC (Open Sound Control) messages on
localhost.

- The **playback service** (`Player`) owns the playlist. It also holds a
  cursor `now_playing` and a `paused` flag, and drives Android's MediaPlayer
  through a small adapter.
- The **UI** (`ServiceMediaPlayer`) keeps only a play/pause button state and
  a `granted` flag. It sends commands to the service and shows the track and
  playlist text the service reports.
- A **music picker** builds a list of track ids by toggling. When it is
  dismissed, it turns that list into content URIs.
- **Media-index queries** turn cursor rows into genre, album and track lists.
  They also load thumbnails in rounds of 14.

Each source file is one module:

| module | source file | form |
|---|---|---|
| `PlayerService` | player_service.py | class `Player`. Its fields are updated in place, and every outside effect goes into one ordered log. |
| `Backend` | android_media_player.py | class `AndroidMediaPlayer` over a log of platform calls, plus the `CallbackWrapper` dispatch |
| `MainApp` | main.py | class `ServiceMediaPlayer`. Sent messages go into an `outbox`. |
| `Picker` | music_picker.py | classes `MusicPicker` and `TrackSelection` |
| `Mediastore` | mediastore_utils.py | methods over a cursor, which is a sequence of rows plus the row at which reading raises |
| `StringLines` | string_lines.py | pure functions |
| `Py` | (shared) | Python semantics the sources rely on: negative indexing, slicing, `str()` of an integer |
| `Osc` | (shared) | the message type and the nine addresses |
| `Flows` | (shared) | how the two processes fit together |

### How the model treats exceptions

A handler that raises (an `IndexError` on the playlist, a `TypeError` for the
wrong number of arguments) returns `ok == false`. Whatever it did before the
raise stays in the log. The service's loop goes on with the next event.

The UI's `set_title` and `set_artist` are `@mainthread` (main.py:121, 128):
they run later, on Kivy's main loop, not inside the OSC handler that called
them. A null title or artist column makes `len` raise there. The model runs
them at once and treats that raise as a local failure of the one call
(`ok == false`, the label unchanged); see "## Left out".

### Behaviour of the code that a simpler controller would not have

- **Skipping on an empty playlist** is not a no-op. The code calls `stop` and broadcasts the empty state. Then, when
  not paused, it raises `IndexError`: `skip_next` on `playlist[0]`
  (player_service.py:78-80 and 91-97), `skip_previous` on `playlist[-1]`
  (player_service.py:82-89). The model does what the code does.
- **Appending to an empty playlist does not reset the cursor.**
  `add_playlist` never touches `now_playing` (player_service.py:50-53).
- **Skipping back on an empty playlist leaves `now_playing` at -1.** A later
  `add_playlist` then reports "Track 0 of n", and a `play` starts the *last*
  track, through Python's negative indexing. This is proved as
  `PlayerService.SkipPreviousOnEmptyPlaylist` rather than corrected.

## Model

| member | source | states |
|---|---|---|
| Py.Index | player_service.py:101 | `playlist[i]` succeeds exactly when -len <= i < len. It then yields the i-th element for i >= 0, and the (len+i)-th, counted from the end, for negative i. |
| Py.Take | string_lines.py:22 | `lines[:k]` is a prefix; for k >= 0 its length is min(k, len) |
| Py.Drop | mediastore_utils.py:196 | `ids[k:]` is what follows `ids[:k]`: the two concatenate back to the list |
| Py.IntToString | player_service.py:107-108 | `str(i)` is a non-empty numeral, with a leading minus exactly for negative i |
| Py.ParseNatToString | player_service.py:107-108 | reading `str(n)` back gives n |
| Py.IntToStringInjective | player_service.py:107-108 | different integers print differently |
| StringLines.Split | string_lines.py:21 | `split('\n')` yields at least one piece, none containing a newline |
| StringLines.JoinSplit | string_lines.py:21-22 | `'\n'.join(s.split('\n')) == s` |
| StringLines.SplitJoin | string_lines.py:21-22 | splitting a join of newline-free lines gives the lines back |
| StringLines.JoinPrefix | string_lines.py:22 | joining the first k lines gives a prefix of joining them all |
| StringLines.MultilineString | string_lines.py:16-26 | a string within `max_columns` is returned unchanged. A longer one yields a prefix of the wrapped text, and the whole wrapped text when `max_lines` is unset. |
| StringLines.AtMostMaxLines | string_lines.py:19-22 | with `max_lines` set, the result is exactly the first `max_lines` wrapped lines, so it has at most that many lines |
| StringLines.NothingCutWhenLinesFit | string_lines.py:19-22 | when the wrapped text has no more than `max_lines` lines, nothing is cut |
| Backend.NativeCallsOf | android_media_player.py:13-44 | the platform calls of each adapter operation. `init_player` sets the completion listener. `start` makes exactly four: reset, set the source to the given URI, prepare, start. `pause`, `resume`, `stop` and `release` make one platform pause, start, stop and release. `error_handler` is one reset. Only `start` and `error_handler` reset. |
| Backend.CallbackWrapper.OnCompletion | android_media_player.py:57-59 | completion calls only the service callback, and only when it is set |
| Backend.CallbackWrapper.OnError | android_media_player.py:62-66 | an error calls each callback that is set, once each: the error callback first, the service callback last |
| Backend.ErrorIsResetThenCompletion | android_media_player.py:57-66 | with an error callback set, an error fires that callback followed by exactly what a completion fires |
| Backend.AndroidMediaPlayer.InitPlayer | android_media_player.py:13-18 | a fresh platform player whose only call sets the completion listener, wired to the service callback and `error_handler` |
| Backend.AndroidMediaPlayer.Start | android_media_player.py:20-28 | the four platform calls are issued in order up to and including the first that raises. A raise adds one warning and nothing else. |
| Backend.StartResetsFirst | android_media_player.py:20-28 | whichever platform call raises, the player has been reset first |
| Backend.AndroidMediaPlayer.Pause | android_media_player.py:30-31 | one platform pause is appended to the call log |
| Backend.AndroidMediaPlayer.Resume | android_media_player.py:33-34 | one platform start is appended |
| Backend.AndroidMediaPlayer.Stop | android_media_player.py:36-37 | one platform stop is appended |
| Backend.AndroidMediaPlayer.Release | android_media_player.py:39-40 | one platform release is appended |
| Backend.AndroidMediaPlayer.ErrorHandler | android_media_player.py:42-44 | one warning, then one platform reset |
| PlayerService.Broadcast | player_service.py:99-111 | exactly a `/track_state` message, then a `/playlist_state` message, with one argument each. An empty playlist reports '' and "The Music Playlist is Empty.". Otherwise the message carries the current URI, which is in the playlist, and a "Track k of n" text different from the empty one. |
| PlayerService.StartEffects | player_service.py:96-97 | one start of `playlist[now_playing]` when that index is valid, and none when it raises |
| PlayerService.Advance | player_service.py:92-94 | the next cursor is 0 or one more than the old one. From -1 or above, it lies within the playlist, or is 0 when the playlist is empty. |
| PlayerService.Retreat | player_service.py:83-85 | the previous cursor is one less than the old one, or the last position. From a valid cursor on a non-empty playlist it stays valid. |
| PlayerService.AdvanceRetreatInverse | player_service.py:83-94 | on a valid cursor, a skip forward and a skip back undo each other |
| PlayerService.ErrorMovesOn | player_service.py:91-94 | with two or more tracks, an advance always moves to another track, also from cursor -1, which Python reads as the last track |
| PlayerService.PlaylistTextInjective | player_service.py:107-108 | distinct (position, count) pairs give distinct "Track k of n" texts |
| PlayerService.SkipPreviousOnEmptyPlaylist | player_service.py:82-89 | a skip back on an empty playlist leaves the cursor at -1. Once tracks are added, the report says "Track 0 of n" and names the last track, and a start plays the last track. |
| PlayerService.Player.constructor | player_service.py:17-39 | empty playlist, cursor 0, not paused, loop running; the only effect is the player's initialisation |
| PlayerService.Player.ServiceState | player_service.py:99-111 | on success the two report messages are appended. An out-of-range cursor on a non-empty playlist raises before anything is sent. |
| PlayerService.Player.StartCurrent | player_service.py:96-97 | the current track is started, or an IndexError is raised with nothing issued |
| PlayerService.Player.AddPlaylist | player_service.py:50-53 | the URIs are appended in order, and cursor and pause flag are untouched. Then one report follows. A running service keeps its invariant and never raises here. |
| PlayerService.Player.Terminate | player_service.py:55-63 | the playlist is emptied and the loop stops. The effects are then exactly: the empty report, stop, release, terminate server, close server. |
| PlayerService.Player.Play | player_service.py:65-71 | on an empty playlist nothing happens. When paused, the flag is cleared and the track resumes. Otherwise the current track is started. No message is sent. |
| PlayerService.Player.Pause | player_service.py:73-76 | only a non-empty, unpaused playlist is paused, with one platform pause; otherwise nothing changes |
| PlayerService.Player.PlayNext | player_service.py:91-97 | the cursor advances, wrapping to 0. The report follows, then a start unless paused. On a running service it raises exactly when the playlist is empty and playback is not paused. |
| PlayerService.Player.SkipNext | player_service.py:78-80 | stop first, then everything `play_next` does |
| PlayerService.Player.SkipPrevious | player_service.py:82-89 | the cursor moves back, wrapping to the end, then stop, report, and a start unless paused. It raises in the same cases as `play_next`. |
| PlayerService.Player.OnMediaCompletion | android_media_player.py:57-59 | a finished track runs `play_next` |
| PlayerService.Player.OnMediaError | android_media_player.py:62-66 | a failed track is reset, then `play_next` runs, so the failing track is skipped |
| PlayerService.Player.Dispatch | player_service.py:30-36 | each message has exactly the effect of the handler bound to its address. The effect is stated per address as that handler's own postcondition: `add_playlist`, `terminate`, `play`, `pause`, `skip_next`, `skip_previous`, `service_state`. Unbound addresses change nothing. Arguments sent to a handler declared without parameters raise TypeError before it runs, and nothing changes. |
| PlayerService.Player.HandlePlaylist | player_service.py:50-63 | a bound `/add_playlist`, `/terminate` or `/service_state` has exactly its handler's effect, the log only grows, and the invariant holds except after `/terminate` |
| PlayerService.Player.HandleTransport | player_service.py:65-89 | a bound `/play`, `/pause`, `/skip_next` or `/skip_previous` has exactly its handler's effect, the log only grows, and the invariant is kept |
| PlayerService.Player.Step | player_service.py:39-44 | an OSC message has exactly the effect `Dispatch` states. A completion advances the cursor, reports and starts unless paused. An error does the same after one reset. Only a `/terminate` stops the loop, and any other event keeps the invariant. |
| PlayerService.Player.Serve | player_service.py:41-44 | the effect log only grows and the number of events handled is returned. If the loop stops, the last event handled was the first `/terminate`: the playlist is empty and the log ends with terminate's shutdown sequence followed by stopping the service. Otherwise every event was handled, none was `/terminate`, and the invariant holds. |
| Mediastore.IdToUri | mediastore_utils.py:42-43 | the URI is the media table's URI, followed by "/" and the id |
| Mediastore.IdToUriInjective | mediastore_utils.py:42-43 | distinct ids give distinct URIs |
| Mediastore.GenresOf | mediastore_utils.py:53-58 | at most one genre per row read; what the genres are is stated by `GenresOfNamed`, `GenresOfOne` and `GenresOfAppend` |
| Mediastore.GenresOfNamed | mediastore_utils.py:54-58 | no genre is named 'None' (null names are dropped), and every row with a name yields its genre |
| Mediastore.GenresPrefix | mediastore_utils.py:45-63 | a cursor that raises part way gives a prefix of the full result, in order |
| Mediastore.GenresOfOne | mediastore_utils.py:54-58 | one row yields its genre exactly when its name is not 'None' (null prints as 'None') |
| Mediastore.GenresOfAppend | mediastore_utils.py:53-58 | the genres of two runs of rows are those of the first followed by those of the second. With `GenresOfOne`, the result is one genre per kept row, in cursor order, and nothing else. |
| Mediastore.ListGenres | mediastore_utils.py:45-63 | the genres of the rows read before the cursor raises |
| Mediastore.KeptAlbumRows | mediastore_utils.py:79-90 | every kept position is a row of the cursor |
| Mediastore.KeptAlbumRowsExactly | mediastore_utils.py:79-90 | the kept positions increase, and a row is kept exactly when its album name differs from the previous row's, or from '' for the first row |
| Mediastore.KeptAlbumRowsStep | mediastore_utils.py:81-90 | reading one more row keeps it exactly when its name differs from the row before |
| Mediastore.ListAlbumsInGenre | mediastore_utils.py:65-95 | one album for each kept row, in order, with the art request numbered by position and carrying that row's media id |
| Mediastore.AdjacentAlbumsDiffer | mediastore_utils.py:84-90 | no two neighbouring albums in the result share a name |
| Mediastore.FirstEmptyAlbumDropped | mediastore_utils.py:79-84 | a first row whose album name is '' is dropped |
| Mediastore.ListTracksInAlbum | mediastore_utils.py:97-114 | exactly one entry per row read, in order, with that row's title and id |
| Mediastore.FirstRowInfo | mediastore_utils.py:116-140 | with no row, the name and artist are '' and no thumbnail is scheduled. Otherwise they are the first row's columns, and a thumbnail of that row's id is scheduled exactly when the id is non-zero. |
| Mediastore.InfoReadsFirstRowOnly | mediastore_utils.py:129-131 | rows after the first are never read |
| Mediastore.ListAlbumInfo | mediastore_utils.py:136-138 | an album thumbnail is requested at size 300 |
| Mediastore.ListTrackInfo | mediastore_utils.py:163-165 | a track thumbnail is requested at size 800 |
| Mediastore.AddThumbnail | mediastore_utils.py:169-187 | the callback receives the default image exactly when the thumbnail does not load, and otherwise that track's thumbnail at the requested size |
| Mediastore.ThumbnailsFound | mediastore_utils.py:198-214 | at most one callback per pair |
| Mediastore.ThumbnailsFoundExactly | mediastore_utils.py:198-214 | each callback is a loaded thumbnail, at the requested resolution, of a listed pair, with that pair's index; every pair whose thumbnail loads gets one |
| Mediastore.ThumbnailsFoundOne | mediastore_utils.py:207-213 | a single pair calls back exactly when its thumbnail loads |
| Mediastore.ThumbnailsFoundAppend | mediastore_utils.py:195-217 | handling a list in two parts gives the same callbacks as handling it whole |
| Mediastore.AddManyThumbnails | mediastore_utils.py:189-217 | the first 14 pairs are handled now and the rest are handed to the next round |
| Mediastore.ThumbnailChain | mediastore_utils.py:215-217 | across the rounds every pair is handled exactly once, in order, and one round is scheduled for every 14 pairs or part of them |
| Picker.RemoveFirst | music_picker.py:359 | `list.remove` removes the first occurrence of the id and keeps the other elements in order: the list before that position, then the list after it |
| Picker.FirstIndex | music_picker.py:359 | the position `remove` acts on holds the id, and no earlier position does |
| Picker.Without | music_picker.py:357-363 | the list with that id removed and every other id kept |
| Picker.ToggleFlips | music_picker.py:357-363 | with no duplicates, a pick flips whether the id is in the list |
| Picker.TogglePreservesNoDuplicates | music_picker.py:358-363 | picking keeps the list free of duplicate ids |
| Picker.ToggleTwiceRestores | music_picker.py:357-363 | picking an unselected id twice restores the list exactly |
| Picker.ToggleKeepsOthers | music_picker.py:357-363 | every other id keeps its place in the relative order |
| Picker.RemoveFirstWithout | music_picker.py:358-360 | with no duplicates, `remove` removes every copy of the id and changes nothing else |
| Picker.MusicPicker.constructor | music_picker.py:97-101 | the picker starts with no selected ids |
| Picker.MusicPicker.OnPreDismiss | music_picker.py:105-109 | one URI per selected id, in list order |
| Picker.DismissedUrisDistinct | music_picker.py:105-109 | distinct selected ids are handed over as distinct URIs |
| Picker.TrackSelection.constructor | music_picker.py:345-355 | a new row is highlighted exactly when its id is non-zero and already selected; `on_picker_root` skips a zero id |
| Picker.TrackSelection.Rebind | music_picker.py:349-355 | a row given a different id is highlighted if it already was or the new id is selected; the same id changes nothing |
| Picker.TrackSelection.PickItem | music_picker.py:357-363 | the list is toggled in place and the row's highlight follows. The no-duplicates invariant is kept, and the highlight then matches membership. |
| MainApp.ServiceMediaPlayer.constructor | main.py:107-111 | play button shown, permissions not granted, nothing sent, empty title and artist; also the default art that `on_start` sets (main.py:157) and the empty-playlist text of the layout (main.py:36) |
| MainApp.ServiceMediaPlayer.SetAlbumArt | main.py:133-137 | no texture means the default image |
| MainApp.ServiceMediaPlayer.QueryServiceState | main.py:201-206 | a running service is sent one `/service_state`. Otherwise nothing is sent, the play button shows and the art is reset. |
| MainApp.ServiceMediaPlayer.AppStart | main.py:168-171 | permissions are granted, then the service is queried |
| MainApp.ServiceMediaPlayer.OnResume | main.py:173-174 | resuming queries the service |
| MainApp.ServiceMediaPlayer.SetTitle | main.py:121-126 | the title becomes the 24sp-wrapped text. A null title raises and leaves it unchanged. |
| MainApp.ServiceMediaPlayer.SetArtist | main.py:128-131 | the artist becomes the 16sp-wrapped text. A null artist raises and leaves it unchanged. |
| MainApp.ServiceMediaPlayer.TrackState | main.py:212-222 | an empty URI clears title and artist and resets the art. Otherwise the first info row's title and artist are wrapped and shown, a null one leaving its label as it was, the art is left for the scheduled load, and that thumbnail load is returned. |
| MainApp.ServiceMediaPlayer.UpdatePlaylistInfo | main.py:148-150 | the playlist label shows the reported text |
| MainApp.ServiceMediaPlayer.Receive | main.py:163-164 | `/track_state` has exactly `track_state`'s effect, empty URI or not. `/playlist_state` sets the playlist label and nothing else. A wrong argument count raises and changes nothing, and other addresses are ignored. Only `/track_state` schedules a thumbnail. |
| MainApp.ServiceMediaPlayer.AddToPlaylist | main.py:228-231 | the picker opens exactly when permissions are granted, and the service is started only if it is not running |
| MainApp.ServiceMediaPlayer.PickerCallback | main.py:233-238 | one `/add_playlist` carries every URI in order; an empty selection sends nothing |
| MainApp.ServiceMediaPlayer.TerminateService | main.py:240-243 | without permissions, nothing. Otherwise one `/terminate` is sent and the play button shows. |
| MainApp.ServiceMediaPlayer.PlayPause | main.py:245-252 | without permissions, nothing. Otherwise the command the button offers is sent and the button flips. |
| MainApp.ServiceMediaPlayer.SkipNext | main.py:254-256 | without permissions, nothing; otherwise one `/skip_next` |
| MainApp.ServiceMediaPlayer.SkipPrevious | main.py:258-260 | without permissions, nothing; otherwise one `/skip_previous` |
| MainApp.PlayPauseTwice | main.py:245-252 | two presses restore the button, after sending play and pause in the order offered |
| Flows.BroadcastReachesUi | main.py:163-164 | every state report the service sends names a UI handler and carries the single argument it takes |
| Flows.UiMessagesAreServed | player_service.py:30-36 | under the UI's invariant, which every UI method keeps, every message the UI has sent names a handler the service binds, and none passes arguments to a handler declared without parameters |
| Flows.PickerToPlaylist | music_picker.py:105-109 | after the picker is dismissed and the message delivered, the picked tracks' URIs sit at the end of the service's playlist, in picking order |
| Flows.AddPlaySkipSkip | player_service.py:50-97 | two tracks are added, play is pressed, then skip twice. The exact effect log is: report and start the first track; stop, report and start the second; stop, wrap round, report and start the first again. |
| Flows.TwoTrackReports | player_service.py:99-111 | for a two-track playlist, the reports are "Track 1 of 2 in the Playlist." with the first URI, and "Track 2 of 2 in the Playlist." with the second |
| Flows.TwoTrackTexts | player_service.py:107-108 | the position texts for a two-track playlist, written out |
| Flows.SmallNumerals | player_service.py:107-108 | `str(1)` is "1" and `str(2)` is "2" |

## Left out

- OSC transport is left out: ports, sockets, byte encoding, and the timing between the processes. A message is its address and its arguments. UTF-8 encoding and decoding of the ASCII texts involved is the identity.
- Threading is left out. Each OSC handler and each media callback runs as one atomic step, and `sleep` calls are dropped. The UI's `@mainthread` methods run at once instead of on Kivy's next frame.
- oscpy's behaviour when a handler raises is not part of this model. The model takes it that the server logs the error and goes on with the next message.
- Whether the service is running (`service_is_running`) is a parameter. Starting the service is left out: `AddToPlaylist` only reports whether it would start it.
- Android permissions are reduced to the `granted` flag that `app_start` sets.
- The Kivy layout is left out: icons, colours, size hints (`set_size_hints`, and the line count of the title) and textures. Images are the `Art` values.
- `estimate_columns` depends on font metrics and random text, so the column widths are natural-number parameters. A negative estimate is not modelled.
- `textwrap.fill` is a function parameter, so nothing is claimed about how it wraps.
- `Uri.parse` and `Uri.toString` are left out, since URIs are their strings. The media table's base URI is a Java constant outside this model.
- The genre, album and track screens of the picker only display query rows, and they are left out. The picker's failure path (`MS_FAIL` dismissing at once) is left out too, because the dismiss behaviour of Kivy's `ModalView` is not part of this model.
- Querying, `loadThumbnail` and `BitmapUtil` are left out. A query is the sequence of rows it returns. Whether a thumbnail loads is membership in a set of loadable ids.
- Mediastore exceptions are modelled only between rows, or before the first. An exception part-way through reading an info row is not modelled.
- `Clock.schedule_once` is left out. A scheduled thumbnail load is returned as a request, and the rounds of `add_many_thumbnails` are the loop of `ThumbnailChain`.
- The backend's warning text and the failure of calls other than `start` are left out. Only `start` is guarded by a `try` in the source.
- PlayerService.Player.Serve: states which events were handled, where the loop stops, the shutdown effects that end the log and the invariant, but not each earlier event's individual effects. Those are stated by `Step`, which gives each event its handler's postcondition.
- Picker.TrackSelection.constructor: takes it that `track_id` is set before `picker_root`, as for a row the RecycleView fills from a data dict. A reused row is never cleared: `Rebind` keeps a stale highlight, as `update_selected` does.
- MainApp.ServiceMediaPlayer.SetTitle: a null title column makes `len` raise on Kivy's main loop, since `set_title` is `@mainthread`. The model treats this as a failure of the one call with the label unchanged. What Kivy's exception handling then does (possibly stopping the app) is not modelled, and neither is the delay before the call runs.
- MainApp.ServiceMediaPlayer.SetArtist: the same holds for a null artist column, for example a track without an `ALBUM_ARTIST` (mediastore_utils.py:157).
