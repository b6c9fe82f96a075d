# Per-chat playback orchestrator of a Telegram voice-chat music bot

The bot, `main.py` in the musikkk repository, keeps one playback state per Telegram
chat:
- a FIFO queue of tracks;
- the track currently playing, if any;
- a paused flag.

Users send `/play` and `/cplay` with a link or search words. Only a direct stream
link (an `http(s)://` URL containing an audio/playlist extension) is queued and
played in the chat's voice call. `/pause`, `/resume`, `/skip` and `/stop`, and the
equivalent inline buttons, drive the state. The voice-call library reports the end
of a stream, and the bot then moves on to the next track.

This project models that orchestrator in Dafny and proves its behaviour.

- `classifier.dfy` (module `Classifier`) holds the input classifiers `is_url`,
  `is_stream_url` and `is_youtube`:
  - every classifier trims the input like Python's `str.strip()` (the full `isspace`
    set) and lower-cases it;
  - the three-way `YT_RE` pattern becomes a search for three literal fragments, with
    letters compared as the `re.I` flag compares them on lower-cased text (`ſ` matches
    `s`, `ı` matches `i`);
  - `Classify` is the branch `handle_play` takes for a query.
- `commands.dfy` (module `Commands`) holds the token handling:
  - `parse_c_command`;
  - the query `/play` reads;
  - the requester fallback;
  - the target resolution used by `/cplay`.
- `playback.dfy` (module `Playback`) is the state machine on values:
  - a `Chat` snapshot and one pure function for each state-changing operation;
  - each function returns a `Step`: the new snapshot, the single voice-call request it
    issues (join, change stream, leave, pause, resume), the kinds of message the user
    gets, and whether an exception escapes;
  - the outcome of the voice-call request (`Ok`, `NoActiveGroupCall`, `OtherError`)
    is a parameter.
- `player.dfy` (module `Player`) follows the source's own form:
  - class `ChatState` has the three mutable fields, and its methods update them step by
    step as the Python does (`pop(0)`, `append`, `clear`, field assignments around the
    transport call);
  - class `Registry` is `STATE` with the get-or-create `st`, plus one method per handler;
  - every method is proved to have exactly the effect of the matching `Playback`
    function;
  - each registry handler may modify only the map and the state object of its own chat.
- `trace.dfy` (module `Trace`) covers whole sequences of handler invocations. Along all
  of them:
  - the invariants hold: paused ⇒ playing, and nothing playing ⇒ nothing queued;
  - tracks are served first in, first out: what is left to hear is always a suffix of
    what was left before, followed by the tracks queued since.
- `scenarios.dfy` (module `Scenarios`) holds the expected runs, such as two streams into
  a new chat, a refused join, pause then resume, and a stream ending. Each is stated for
  every input that fits the situation.

Each handler is one atomic step: the bot has no locks and the model has no interleaving.

## Model

| member | source | states |
|---|---|---|
| Classifier.Strip | main.py:35 | `strip()`: the result is a slice of the input that neither starts nor ends with whitespace, and only whitespace was cut off either side |
| Classifier.NormalizeIdempotent | main.py:40-41 | trimming and lower-casing twice equals doing it once, so `is_url(u)` on the already normalised `u` sees the same text |
| Classifier.IsUrl | main.py:34-36 | holds iff the stripped text starts with `http://` or `https://` in any letter case |
| Classifier.IsStreamUrl | main.py:39-43 | holds iff `is_url` holds of the raw text and some `STREAM_EXTS` element occurs anywhere in the normalised text |
| Classifier.IsYoutube | main.py:46-48 | holds iff one of the three `YT_RE` alternatives occurs somewhere in the stripped text, letters compared ignoring case as the regex engine does |
| Classifier.StreamUrlIsUrl | main.py:39-43 | every stream URL is an `http://`/`https://` URL |
| Classifier.BlankIsNothing | main.py:34-48 | empty or whitespace-only text is neither a URL, a stream URL nor a video link |
| Classifier.VideoLinkNeedsNoScheme | main.py:29-48 | a bare `youtu.be/` link is a video link but not a URL: the video-host test needs no scheme |
| Classifier.FoldedLettersStillMatch | main.py:29 | a music-host link spelled with `ſ` and `ı` is still a video link, because `re.I` folds them although `lower()` does not |
| Classifier.ExtensionMatchedAnywhere | main.py:31-43 | an extension followed by a query string still makes a stream URL: the extension need not be a suffix |
| Classifier.Classify | main.py:264-325 | the query kind `handle_play` acts on: empty iff the query is empty; a stream link iff non-empty and `is_stream_url`; the video/search branch only when it is a video link or not a URL; the refusal branch only for other URLs |
| Commands.JoinWords | main.py:242 | `" ".join`: the text starts with the first word and ends with the last, with a space right after the first word when there are more |
| Commands.PlayQuery | main.py:332 | the `/play` query is the joined arguments with only surrounding whitespace removed: a slice of the join, with non-space ends |
| Commands.IsTargetToken | main.py:238 | a token is a target iff it starts with `@` or with `-100` |
| Commands.ParseCCommand | main.py:233-242 | a target is taken iff there is a first argument starting with `@` or `-100`; the query is then the remaining arguments, joined and stripped; without a target it is all arguments joined and stripped, which is the `/play` query of the same tokens |
| Commands.TargetAndQueryMakePlayQuery | main.py:233-242 | for whitespace-free tokens, the parsed target followed by a space and the parsed query (or the target alone when the query is empty) is exactly the `/play` query: nothing is lost or reordered |
| Commands.PlainNegativeIdIsQuery | main.py:238 | `-12345` is not a target (it becomes part of the query), while `-1001234` and `@radio` are |
| Playback.EnsureJoinAndPlay | main.py:154-175 | a no-op (no request) iff something plays or the queue is empty; otherwise it joins with the head's source, removes exactly the head, clears the flag, keeps the head as playing only when the join succeeds, and never re-queues it; the notice depends on the failure kind; keeps paused ⇒ playing; a no-op on every consistent chat; the lineup only loses a prefix |
| Playback.PlayNext | main.py:178-199 | always clears the flag; with an empty queue, becomes idle and attempts a leave whose failure is ignored; otherwise the head plays through a stream change (never a join), the rest keeps its order, and a failed change escapes with the state already advanced; the result is consistent from any state |
| Playback.OnEnd | main.py:202-217 | with a queue, it is `play_next` with the failure absorbed; without one, it becomes idle and unpaused and attempts a leave; never raises; the result is consistent |
| Playback.EnqueueStream | main.py:267-276 | appends the track at the tail; while something plays, the reported position is the new queue length; otherwise a join starts at once, and in a consistent chat it joins with the new track itself, with "joining" then the outcome as notices; preserves both invariants; the lineup is a suffix of the old lineup plus the track |
| Playback.PlayRequest | main.py:261-325 | only a stream link is queued, as `Track(query, query, requester)`, and it is then an `http(s)` URL; every other query leaves the chat untouched, issues no request and gets its kind's reply |
| Playback.Pause | main.py:346-356 | with nothing playing: no request, no change; otherwise a pause request, and the flag is set only when it succeeds |
| Playback.Resume | main.py:359-369 | with nothing playing: no request, no change; otherwise a resume request, and the flag is cleared only when it succeeds |
| Playback.TogglePause | main.py:424-438 | with something playing, resumes a paused stream or pauses a running one, and flips the flag only on success; queue and playing are untouched |
| Playback.Skip | main.py:372-381 | `skip_cmd`, and the skip button: with nothing playing: no change; otherwise exactly `play_next`'s new state and request, and a skip-failed notice iff `play_next` raised; preserves both invariants |
| Playback.Stop | main.py:384-394 | `stop_cmd`, and the stop button: from any state and whatever the leave outcome: empty queue, nothing playing, unpaused, one leave request |
| Playback.ActionOf | main.py:424-478 | `pause`, `skip`, `stop` and `queue` each select their own action and no other name does; every other name is unknown |
| Playback.Button | main.py:414-478 | the pause button is exactly `TogglePause` and the skip button exactly `Skip`; stop results in a new chat with a leave request; queue and unknown actions change nothing; never raises; preserves both invariants; the lineup only loses a prefix |
| Trace.Apply | main.py:261-478 | every handler keeps paused ⇒ playing and consistency, and leaves a lineup that is a suffix of the old lineup plus the track it queued |
| Trace.Run | main.py:154-478 | after any sequence of handler invocations, paused ⇒ playing still holds if it held at the start, and so does consistency |
| Trace.ReachableIsConsistent | main.py:61-74 | every state reachable from a new chat is consistent |
| Trace.RunServesInOrder | main.py:154-276 | FIFO: after any sequence, the lineup is a suffix of the initial lineup followed by every queued track in arrival order |
| Player.ChatState.constructor | main.py:61-65 | a new state is empty, idle and unpaused |
| Player.ChatState.EnsureJoinAndPlay | main.py:154-175 | the in-place update has exactly the effect of `Playback.EnsureJoinAndPlay` |
| Player.ChatState.PlayNext | main.py:178-199 | the in-place update has exactly the effect of `Playback.PlayNext`, including the escaping failure |
| Player.ChatState.OnEnd | main.py:202-217 | the in-place update has exactly the effect of `Playback.OnEnd` |
| Player.ChatState.EnqueueStream | main.py:268-276 | the in-place append-then-join has exactly the effect of `Playback.EnqueueStream` |
| Player.ChatState.Pause | main.py:346-356 | exactly `Playback.Pause` |
| Player.ChatState.Resume | main.py:359-369 | exactly `Playback.Resume` |
| Player.ChatState.TogglePause | main.py:424-438 | exactly `Playback.TogglePause` |
| Player.ChatState.Skip | main.py:372-381 | exactly `Playback.Skip` |
| Player.ChatState.Stop | main.py:384-394 | exactly `Playback.Stop` |
| Player.ChatState.Button | main.py:422-478 | exactly `Playback.Button` |
| Player.Registry.constructor | main.py:68 | the registry starts empty |
| Player.Registry.St | main.py:71-74 | a known id returns its state object, and the map is unchanged; an unknown id gets a fresh default state, which is the only entry added |
| Player.Registry.EnsureJoinAndPlay | main.py:154-175 | acts on that chat's state alone, creating it if needed, with `Playback.EnsureJoinAndPlay`'s effect |
| Player.Registry.PlayNext | main.py:178-199 | likewise for `play_next` |
| Player.Registry.OnStreamEnd | main.py:202-217 | likewise for `on_end` |
| Player.Registry.EnqueueStream | main.py:268-276 | likewise for the stream branch of `handle_play` |
| Player.Registry.PauseCmd | main.py:346-356 | likewise for `pause_cmd` |
| Player.Registry.ResumeCmd | main.py:359-369 | likewise for `resume_cmd` |
| Player.Registry.SkipCmd | main.py:372-381 | likewise for `skip_cmd` |
| Player.Registry.StopCmd | main.py:384-394 | likewise for `stop_cmd` |
| Player.Registry.Callback | main.py:414-478 | likewise for `callbacks` after its data is parsed; the state is created even for queue and unknown actions |
| Player.Registry.HandlePlay | main.py:261-325 | a stream link changes only the target chat, as `PlayRequest` says; any other query changes no chat |
| Player.Registry.PlayCmd | main.py:328-333 | refused in a private chat (positive id) with no change; otherwise `handle_play` on the sending chat's `/play` query |
| Player.Registry.CPlayCmd | main.py:336-343 | plays in the resolved target with the parsed query; an unresolvable target changes nothing and is reported |
| Scenarios.TwoStreamsIntoNewChat | main.py:268-276 | two stream links into a new chat whose join succeeds: the first joins and plays, the second waits at position 1 |
| Scenarios.JoinIsIdempotent | main.py:156-157 | after a successful join, or while something plays, a second attempt issues no request |
| Scenarios.AdvanceWithOneQueued | main.py:191-194 | with one track queued, advancing plays it through a stream change and empties the queue |
| Scenarios.StreamEndsWithOneQueued | main.py:206-210 | a stream ending with one track queued plays it next, and a failed change is absorbed |
| Scenarios.StreamEndsWhenIdle | main.py:211-217 | a stream ending in an idle chat only attempts a leave |
| Scenarios.InactiveVoiceChatDropsTrack | main.py:170-172 | a join refused for lack of a live voice chat drops the track, leaves nothing playing and says so |
| Scenarios.PauseThenResume | main.py:346-369 | a confirmed pause then a confirmed resume issue one request each and leave the chat unpaused, which restores it exactly when it was not paused before |
| Scenarios.FirstStreamPlays | main.py:268-274 | a new chat's first stream link, with a successful join, plays that link at once with nothing left queued |

## Left out

- Messaging: the text of replies, `bot.send_message`, `m.reply`, `q.answer` and message edits. Each message is only a `Notice` kind, and a message that fails to send is assumed not to happen. Such failures would change behaviour in these places, none of which the model captures:
  - main.py:165-168: the now-playing announcement inside `ensure_join_and_play`'s `try` fails after a successful join; the handler reverts `playing` to none while the stream plays.
  - main.py:172 and main.py:175: the failure report itself fails; the exception escapes `ensure_join_and_play` after `playing` was reverted.
  - main.py:188 and main.py:195-199: an announcement in `play_next` fails; the exception escapes after the state advanced, so `/skip` and the skip button report a failed skip.
  - main.py:273: the "joining" reply comes after the append at main.py:270 and before `ensure_join_and_play` at main.py:274; if it fails, the track stays queued while nothing plays, which breaks "nothing playing ⇒ nothing queued".
  - main.py:377 and main.py:443: the "Skipping…" reply of `/skip` and of the skip button comes before `play_next`; if it fails, nothing advances.
  - main.py:354, main.py:367, main.py:431, main.py:435 and main.py:436: a pause or resume confirmation fails after the flag changed; the handler then reports a failure although the stream was paused or resumed.
  - main.py:394, main.py:457 and main.py:276: a reply after the state change fails; the exception escapes, but the state is as modelled.
- The keyboards `player_kb` and `yt_kb`, and the queue listing in `queue_cmd` and the `queue` button: these only render text. `queue_cmd` also calls `st` and can create an empty state; the model has no member for that.
- `yt_search` and the video/search replies of `handle_play` are not modelled. The search is a network call, and those replies neither read nor change playback state. The model keeps only which branch is taken (`Classify`).
- `resolve_target_chat_id`'s `@handle` lookup and `int()` parsing are given as the parameter `lookup`. The lookup is a call to the bot framework; the parsing is plain Python `int()`.
- Callback data parsing (`split(":")` and `int()`), and its "invalid button" reply: `Registry.Callback` receives the action name and chat id already split.
- `config.py`, the startup guard and `main()` are process set-up and are not part of this model.
- The pyrogram and pytgcalls clients are not modelled. Each transport call is one request whose outcome is an input.
- Concurrency: each handler runs as one atomic step. Interleavings at `await` points are not modelled.
- Classifier.LowerChar: lower-cases ASCII letters only. Python's `str.lower()` also maps non-ASCII letters, two of which become ASCII (`İ` to `i` plus a combining dot, and the Kelvin sign to `k`). The model treats such input as not matching the ASCII patterns.
- Commands.TargetAndQueryMakePlayQuery: stated for tokens that are non-empty and free of whitespace. How the bot framework splits a command into tokens is not modelled; a quoted token can contain spaces, and then stripping may cut more than the model's statement allows for.
- Classifier.Normalize: the `(s or "")` guard against `None` is not modelled, because every input here is a string.

## Notes on the behaviour

- Pause followed by resume, both confirmed, always ends unpaused. `pause_cmd` pauses even a paused stream, so the pre-pause flag is restored only when it was clear (`Scenarios.PauseThenResume`).
- Between handlers, a chat with nothing playing has nothing queued, because every failed join also drops the track. So in every reachable state, `ensure_join_and_play` acts only inside the stream branch of `handle_play`.
- A basic-group id such as `-12345` given to `/cplay` is read as the start of the query (`Commands.PlainNegativeIdIsQuery`). That query starts with `-12345`, so it is not a URL and never a stream link: nothing is queued, and the reply is the search offer of main.py:279-296.
