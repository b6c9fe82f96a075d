/**
 * The orchestrator as the bot runs it: each chat's state is an object whose
 * fields the handlers update step by step, and the registry maps chat ids to
 * those objects, creating one on first use. Every method is proved to have
 * exactly the effect of the corresponding operation of module Playback, so
 * the invariants and the FIFO discipline proved there hold of these objects.
 */
module Player {
  import opened Wrappers
  import opened Classifier
  import opened Commands
  import opened Playback

  /** `ChatState`: one chat's queue, playing track and paused flag. */
  class ChatState {
    var queue: seq<Track>
    var playing: Option<Track>
    var paused: bool

    /** `ChatState()`: the dataclass defaults. */
    constructor ()
      ensures View() == NewChat
    {
      queue := [];
      playing := None;
      paused := false;
    }

    /** The current field values. */
    function View(): Chat
      reads this
    {
      Chat(queue, playing, paused)
    }

    /** `ensure_join_and_play` once the chat's state is at hand. */
    method EnsureJoinAndPlay(join: CallResult) returns (call: Option<Request>, notices: seq<Notice>)
      modifies this
      ensures Step(View(), call, notices, false) == Playback.EnsureJoinAndPlay(old(View()), join)
    {
      if playing.Some? || queue == [] {
        return None, [];
      }
      var next := queue[0];
      ghost var r := Playback.EnsureJoinAndPlay(View(), join);
      assert r.call == Some(Join(next.source)) && r.after.queue == queue[1..];
      queue := queue[1..];
      playing := Some(next);
      paused := false;
      call := Some(Join(next.source));
      match join {
        case Ok =>
          notices := [NowPlaying(next)];
        case NoActiveGroupCall =>
          playing := None;
          notices := [VoiceChatInactive];
        case OtherError =>
          playing := None;
          notices := [JoinFailed];
      }
    }

    /** `play_next` once the chat's state is at hand; `raised` reports the escaping failure. */
    method PlayNext(change: CallResult) returns (call: Option<Request>, notices: seq<Notice>, raised: bool)
      modifies this
      ensures Step(View(), call, notices, raised) == Playback.PlayNext(old(View()), change)
    {
      paused := false;
      if queue == [] {
        playing := None;
        return Some(Leave), [QueueFinished], false;
      }
      var next := queue[0];
      queue := queue[1..];
      playing := Some(next);
      call := Some(ChangeStream(next.source));
      if change == Ok {
        notices, raised := [NowPlaying(next)], false;
      } else {
        notices, raised := [], true;
      }
    }

    /** `on_end` once the chat's state is at hand. */
    method OnEnd(outcome: CallResult) returns (call: Option<Request>, notices: seq<Notice>)
      modifies this
      ensures Step(View(), call, notices, false) == Playback.OnEnd(old(View()), outcome)
    {
      if queue != [] {
        var raised;
        call, notices, raised := PlayNext(outcome);
      } else {
        playing := None;
        paused := false;
        call, notices := Some(Leave), [];
      }
    }

    /** The stream branch of `handle_play` once the chat's state is at hand. */
    method EnqueueStream(t: Track, join: CallResult) returns (call: Option<Request>, notices: seq<Notice>)
      modifies this
      ensures Step(View(), call, notices, false) == Playback.EnqueueStream(old(View()), t, join)
    {
      queue := queue + [t];
      if playing.None? {
        call, notices := EnsureJoinAndPlay(join);
        notices := [JoiningVoiceChat] + notices;
      } else {
        call, notices := None, [Queued(|queue|)];
      }
    }

    /** `pause_cmd` once the chat's state is at hand. */
    method Pause(outcome: CallResult) returns (call: Option<Request>, notices: seq<Notice>)
      modifies this
      ensures Step(View(), call, notices, false) == Playback.Pause(old(View()), outcome)
    {
      if playing.None? {
        return None, [NothingPlaying];
      }
      call := Some(PauseStream);
      if outcome == Ok {
        paused := true;
        notices := [Paused];
      } else {
        notices := [PauseFailed];
      }
    }

    /** `resume_cmd` once the chat's state is at hand. */
    method Resume(outcome: CallResult) returns (call: Option<Request>, notices: seq<Notice>)
      modifies this
      ensures Step(View(), call, notices, false) == Playback.Resume(old(View()), outcome)
    {
      if playing.None? {
        return None, [NothingPlaying];
      }
      call := Some(ResumeStream);
      if outcome == Ok {
        paused := false;
        notices := [Resumed];
      } else {
        notices := [ResumeFailed];
      }
    }

    /** The pause branch of `callbacks`. */
    method TogglePause(outcome: CallResult) returns (call: Option<Request>, notices: seq<Notice>)
      modifies this
      ensures Step(View(), call, notices, false) == Playback.TogglePause(old(View()), outcome)
    {
      if playing.None? {
        return None, [NothingPlaying];
      }
      if paused {
        call := Some(ResumeStream);
        if outcome == Ok {
          paused := false;
          notices := [Resumed];
        } else {
          notices := [ToggleFailed];
        }
      } else {
        call := Some(PauseStream);
        if outcome == Ok {
          paused := true;
          notices := [Paused];
        } else {
          notices := [ToggleFailed];
        }
      }
    }

    /** `skip_cmd` and the skip branch of `callbacks`. */
    method Skip(outcome: CallResult) returns (call: Option<Request>, notices: seq<Notice>)
      modifies this
      ensures Step(View(), call, notices, false) == Playback.Skip(old(View()), outcome)
    {
      if playing.None? {
        return None, [NothingPlaying];
      }
      var raised;
      call, notices, raised := PlayNext(outcome);
      notices := [Skipping] + notices + (if raised then [SkipFailed] else []);
    }

    /** `stop_cmd` and the stop branch of `callbacks`; the leave outcome is ignored. */
    method Stop(leave: CallResult) returns (call: Option<Request>, notices: seq<Notice>)
      modifies this
      ensures Step(View(), call, notices, false) == Playback.Stop(old(View()), leave)
    {
      queue := [];
      playing := None;
      paused := false;
      call, notices := Some(Leave), [Stopped];
    }

    /** `callbacks` once the chat's state is at hand. */
    method Button(action: ButtonAction, outcome: CallResult) returns (call: Option<Request>, notices: seq<Notice>)
      modifies this
      ensures Step(View(), call, notices, false) == Playback.Button(old(View()), action, outcome)
    {
      match action {
        case PauseButton =>
          call, notices := TogglePause(outcome);
        case SkipButton =>
          call, notices := Skip(outcome);
        case StopButton =>
          call, notices := Stop(outcome);
        case QueueButton =>
          call, notices := None, [QueueListing];
        case OtherButton =>
          call, notices := None, [UnknownAction];
      }
    }
  }

  /**
   * `STATE`: the process-wide map from chat id to that chat's state object.
   * A handler for chat `id` may change the map and `Slot(id)`, that chat's
   * own object, and nothing else: every other chat's state is left as it was.
   */
  class Registry {
    var chats: map<int, ChatState>

    /** No two chats share a state object. */
    ghost predicate Valid()
      reads this
    {
      forall a, b | a in chats && b in chats && a != b :: chats[a] != chats[b]
    }

    /** The state `st(id)` would hand out: the stored one, or a fresh default. */
    ghost function ChatOf(id: int): Chat
      reads this, chats.Values
    {
      if id in chats then chats[id].View() else NewChat
    }

    /** The object a handler for chat `id` may update: its state object, if it has one. */
    ghost function Slot(id: int): set<object>
      reads this
    {
      if id in chats then {chats[id]} else {}
    }

    /** The object a `cplay` may update: the resolved target's state object, if any. */
    ghost function TargetSlot(target: Option<int>): set<object>
      reads this
    {
      if target.Some? then Slot(target.value) else {}
    }

    constructor ()
      ensures Valid() && chats == map[]
    {
      chats := map[];
    }

    /**
     * `st`: an existing chat's state object is returned as it is; an unknown
     * id gets a new default state. No other entry changes.
     */
    method St(id: int) returns (s: ChatState)
      requires Valid()
      modifies this
      ensures Valid()
      ensures id in chats && chats[id] == s
      ensures id in old(chats) ==> s == old(chats[id]) && chats == old(chats)
      ensures id !in old(chats) ==> fresh(s) && s.View() == NewChat && chats == old(chats)[id := s]
    {
      if id in chats {
        s := chats[id];
      } else {
        s := new ChatState();
        chats := chats[id := s];
      }
    }

    /** `ensure_join_and_play(chat_id, …)`: acts on that chat alone, creating its state if needed. */
    method EnsureJoinAndPlay(id: int, join: CallResult) returns (call: Option<Request>, notices: seq<Notice>)
      requires Valid()
      modifies this, Slot(id)
      ensures Valid() && id in chats
      ensures chats == old(chats)[id := chats[id]]
      ensures Step(ChatOf(id), call, notices, false) == Playback.EnsureJoinAndPlay(old(ChatOf(id)), join)
    {
      var s := St(id);
      call, notices := s.EnsureJoinAndPlay(join);
    }

    /** `play_next(chat_id, …)`; `raised` reports the failure that escapes to the caller. */
    method PlayNext(id: int, change: CallResult) returns (call: Option<Request>, notices: seq<Notice>, raised: bool)
      requires Valid()
      modifies this, Slot(id)
      ensures Valid() && id in chats
      ensures chats == old(chats)[id := chats[id]]
      ensures Step(ChatOf(id), call, notices, raised) == Playback.PlayNext(old(ChatOf(id)), change)
    {
      var s := St(id);
      call, notices, raised := s.PlayNext(change);
    }

    /** `on_end`: the stream-ended notification for chat `id`. */
    method OnStreamEnd(id: int, outcome: CallResult) returns (call: Option<Request>, notices: seq<Notice>)
      requires Valid()
      modifies this, Slot(id)
      ensures Valid() && id in chats
      ensures chats == old(chats)[id := chats[id]]
      ensures Step(ChatOf(id), call, notices, false) == Playback.OnEnd(old(ChatOf(id)), outcome)
    {
      var s := St(id);
      call, notices := s.OnEnd(outcome);
    }

    /** The stream branch of `handle_play` for chat `id`, creating its state if needed. */
    method EnqueueStream(id: int, t: Track, join: CallResult) returns (call: Option<Request>, notices: seq<Notice>)
      requires Valid()
      modifies this, Slot(id)
      ensures Valid() && id in chats
      ensures chats == old(chats)[id := chats[id]]
      ensures Step(ChatOf(id), call, notices, false) == Playback.EnqueueStream(old(ChatOf(id)), t, join)
    {
      var s := St(id);
      call, notices := s.EnqueueStream(t, join);
    }

    /** `pause_cmd` in chat `id`. */
    method PauseCmd(id: int, outcome: CallResult) returns (call: Option<Request>, notices: seq<Notice>)
      requires Valid()
      modifies this, Slot(id)
      ensures Valid() && id in chats
      ensures chats == old(chats)[id := chats[id]]
      ensures Step(ChatOf(id), call, notices, false) == Playback.Pause(old(ChatOf(id)), outcome)
    {
      var s := St(id);
      call, notices := s.Pause(outcome);
    }

    /** `resume_cmd` in chat `id`. */
    method ResumeCmd(id: int, outcome: CallResult) returns (call: Option<Request>, notices: seq<Notice>)
      requires Valid()
      modifies this, Slot(id)
      ensures Valid() && id in chats
      ensures chats == old(chats)[id := chats[id]]
      ensures Step(ChatOf(id), call, notices, false) == Playback.Resume(old(ChatOf(id)), outcome)
    {
      var s := St(id);
      call, notices := s.Resume(outcome);
    }

    /** `skip_cmd` in chat `id`. */
    method SkipCmd(id: int, outcome: CallResult) returns (call: Option<Request>, notices: seq<Notice>)
      requires Valid()
      modifies this, Slot(id)
      ensures Valid() && id in chats
      ensures chats == old(chats)[id := chats[id]]
      ensures Step(ChatOf(id), call, notices, false) == Playback.Skip(old(ChatOf(id)), outcome)
    {
      var s := St(id);
      call, notices := s.Skip(outcome);
    }

    /** `stop_cmd` in chat `id`. */
    method StopCmd(id: int, leave: CallResult) returns (call: Option<Request>, notices: seq<Notice>)
      requires Valid()
      modifies this, Slot(id)
      ensures Valid() && id in chats
      ensures chats == old(chats)[id := chats[id]]
      ensures Step(ChatOf(id), call, notices, false) == Playback.Stop(old(ChatOf(id)), leave)
    {
      var s := St(id);
      call, notices := s.Stop(leave);
    }

    /** `callbacks` for a button whose data names chat `id` and the action `action`. */
    method Callback(id: int, action: string, outcome: CallResult) returns (call: Option<Request>, notices: seq<Notice>)
      requires Valid()
      modifies this, Slot(id)
      ensures Valid() && id in chats
      ensures chats == old(chats)[id := chats[id]]
      ensures Step(ChatOf(id), call, notices, false) == Playback.Button(old(ChatOf(id)), ActionOf(action), outcome)
    {
      var s := St(id);
      var a := ActionOf(action);
      call, notices := s.Button(a, outcome);
    }

    /**
     * `handle_play`: only a stream link reaches the registry, and then only
     * the target chat's entry; any other query leaves every chat untouched.
     */
    method HandlePlay(target: int, query: string, sender: Option<string>, join: CallResult)
      returns (call: Option<Request>, notices: seq<Notice>)
      requires Valid()
      modifies this, Slot(target)
      ensures Valid()
      ensures Step(ChatOf(target), call, notices, false)
        == PlayRequest(old(ChatOf(target)), query, RequesterName(sender), join)
      ensures Classify(query) == StreamLink ==> target in chats && chats == old(chats)[target := chats[target]]
      ensures Classify(query) != StreamLink ==> chats == old(chats) && unchanged(Slot(target))
    {
      var requester := RequesterName(sender);
      var kind := Classify(query);
      if kind != StreamLink {
        return None, [NotQueued(kind)];
      }
      call, notices := EnqueueStream(target, Track(query, query, requester), join);
    }

    /** `play_cmd`: refused in a private chat (positive id), otherwise `handle_play` in the same chat. */
    method PlayCmd(chatId: int, command: seq<string>, sender: Option<string>, join: CallResult)
      returns (call: Option<Request>, notices: seq<Notice>)
      requires Valid()
      modifies this, Slot(chatId)
      ensures Valid()
      ensures chatId > 0 ==>
        chats == old(chats) && unchanged(Slot(chatId)) && call == None && notices == [PrivateChat]
      ensures chatId <= 0 ==>
        Step(ChatOf(chatId), call, notices, false)
        == PlayRequest(old(ChatOf(chatId)), PlayQuery(command), RequesterName(sender), join)
      ensures chatId <= 0 && Classify(PlayQuery(command)) == StreamLink ==>
        chatId in chats && chats == old(chats)[chatId := chats[chatId]]
      ensures chatId <= 0 && Classify(PlayQuery(command)) != StreamLink ==>
        chats == old(chats) && unchanged(Slot(chatId))
    {
      if chatId > 0 {
        return None, [PrivateChat];
      }
      call, notices := HandlePlay(chatId, PlayQuery(command), sender, join);
    }

    /**
     * `cplay_cmd`: the target is the sending chat when no target token is
     * given, and otherwise `lookup`, the id the bot framework resolves the
     * token to (`None` when that fails, which changes nothing).
     */
    method CPlayCmd(chatId: int, command: seq<string>, sender: Option<string>, lookup: Option<int>, join: CallResult)
      returns (call: Option<Request>, notices: seq<Notice>)
      requires Valid()
      modifies this, TargetSlot(ResolveTarget(chatId, ParseCCommand(command).0, lookup))
      ensures Valid()
      ensures var target := ResolveTarget(chatId, ParseCCommand(command).0, lookup);
        && (target.None? ==> chats == old(chats) && call == None && notices == [InvalidTarget])
        && (target.Some? ==>
             Step(ChatOf(target.value), call, notices, false)
             == PlayRequest(old(ChatOf(target.value)), ParseCCommand(command).1, RequesterName(sender), join))
        && (target.Some? && Classify(ParseCCommand(command).1) == StreamLink ==>
             target.value in chats && chats == old(chats)[target.value := chats[target.value]])
        && (target.Some? && Classify(ParseCCommand(command).1) != StreamLink ==>
             chats == old(chats) && unchanged(Slot(target.value)))
    {
      var parsed := ParseCCommand(command);
      var target := ResolveTarget(chatId, parsed.0, lookup);
      if target.None? {
        return None, [InvalidTarget];
      }
      call, notices := HandlePlay(target.value, parsed.1, sender, join);
    }
  }
}
