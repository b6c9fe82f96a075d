/**
 * The playback state machine of one chat, stated on values. `Chat` is a
 * snapshot of a chat's `ChatState` (its FIFO queue, the optional playing
 * track and the paused flag). Each operation of the orchestrator maps a
 * snapshot and the outcome of the one voice-call transport request it may
 * issue to a `Step`: the new snapshot, the request issued, what the user is
 * told, and whether an exception escapes to the caller.
 */
module Playback {
  import opened Wrappers
  import opened Classifier

  /** One playback request: display title, stream URL and requester. */
  datatype Track = Track(title: string, source: string, requester: string)

  /** The fields of a chat's state. */
  datatype Chat = Chat(queue: seq<Track>, playing: Option<Track>, paused: bool)

  /** A freshly created chat state: nothing queued, nothing playing. */
  const NewChat: Chat := Chat([], None, false)

  /** How a voice-call transport request ended. */
  datatype CallResult = Ok | NoActiveGroupCall | OtherError

  /** The voice-call transport requests, for the chat the operation acts on. */
  datatype Request =
    | Join(source: string)
    | ChangeStream(source: string)
    | Leave
    | PauseStream
    | ResumeStream

  /** What the user is told (the kind of message, not its text). */
  datatype Notice =
    | NowPlaying(track: Track)
    | VoiceChatInactive       // join refused: the chat has no live voice chat
    | JoinFailed              // join failed for another reason
    | QueueFinished
    | JoiningVoiceChat        // a stream was accepted and a join is attempted
    | Queued(position: nat)
    | NothingPlaying
    | Paused
    | Resumed
    | PauseFailed
    | ResumeFailed
    | ToggleFailed
    | Skipping
    | SkipFailed
    | Stopped
    | QueueListing
    | UnknownAction
    | NotQueued(kind: QueryKind)  // the query is not a playable stream
    | PrivateChat                 // /play sent in a private chat
    | InvalidTarget               // /cplay's target could not be resolved

  /** The effect of one operation. */
  datatype Step = Step(after: Chat, call: Option<Request>, notices: seq<Notice>, raised: bool)

  /** The flag is only ever set while something is playing. */
  predicate PausedImpliesPlaying(c: Chat) {
    c.paused ==> c.playing.Some?
  }

  /** Between operations, a chat with nothing playing has nothing queued. */
  predicate IdleMeansEmptyQueue(c: Chat) {
    c.playing.None? ==> c.queue == []
  }

  predicate Consistent(c: Chat) {
    PausedImpliesPlaying(c) && IdleMeansEmptyQueue(c)
  }

  /** The tracks still to be heard, in order: the playing one, then the queue. */
  function Lineup(c: Chat): seq<Track> {
    (if c.playing.Some? then [c.playing.value] else []) + c.queue
  }

  predicate IsSuffix<T(==)>(a: seq<T>, b: seq<T>) {
    |a| <= |b| && b[|b| - |a|..] == a
  }

  /** The queue is what remains of the lineup once the playing track is over. */
  lemma QueueEndsLineup(c: Chat)
    ensures IsSuffix(c.queue, Lineup(c))
  {
    var l := Lineup(c);
    assert l[|l| - |c.queue|..] == c.queue;
  }

  /** Taking the head off a non-empty sequence leaves a suffix of it, and so does keeping it. */
  lemma HeadLeavesSuffix<T>(q: seq<T>)
    requires q != []
    ensures IsSuffix(q[1..], q) && IsSuffix([q[0]] + q[1..], q)
  {
    assert [q[0]] + q[1..] == q;
  }

  /**
   * `ensure_join_and_play`: when nothing plays and something is queued, the
   * head moves to `playing` and a join is attempted; a failed join of either
   * kind leaves nothing playing and drops the track. Otherwise nothing
   * happens, which is every case of a consistent chat.
   */
  function EnsureJoinAndPlay(c: Chat, join: CallResult): (r: Step)
    ensures r.call == None <==> c.playing.Some? || c.queue == []
    ensures r.call == None ==> r.after == c && r.notices == []
    ensures r.call != None ==>
      && r.call == Some(Join(c.queue[0].source))
      && r.after.queue == c.queue[1..]
      && r.after.playing == (if join == Ok then Some(c.queue[0]) else None)
      && !r.after.paused
      && r.notices == [if join == Ok then NowPlaying(c.queue[0])
                       else if join == NoActiveGroupCall then VoiceChatInactive
                       else JoinFailed]
    ensures !r.raised
    ensures PausedImpliesPlaying(c) ==> PausedImpliesPlaying(r.after)
    ensures Consistent(c) ==> r.after == c
    ensures IsSuffix(Lineup(r.after), Lineup(c))
  {
    if c.playing.Some? || c.queue == [] then
      Step(c, None, [], false)
    else
      var next := c.queue[0];
      var started := Chat(c.queue[1..], if join == Ok then Some(next) else None, false);
      HeadLeavesSuffix(c.queue);
      assert Lineup(c) == c.queue;
      Step(started, Some(Join(next.source)),
           [if join == Ok then NowPlaying(next)
            else if join == NoActiveGroupCall then VoiceChatInactive
            else JoinFailed],
           false)
  }

  /**
   * `play_next`: clears the flag; on an empty queue nothing plays and a
   * leave is attempted whose failure is ignored; otherwise the head becomes
   * the playing track through a stream change (never a join), and a failed
   * change escapes to the caller with the state already advanced.
   */
  function PlayNext(c: Chat, change: CallResult): (r: Step)
    ensures !r.after.paused
    ensures c.queue == [] ==>
      r.after == NewChat && r.call == Some(Leave) && r.notices == [QueueFinished] && !r.raised
    ensures c.queue != [] ==>
      && r.after == Chat(c.queue[1..], Some(c.queue[0]), false)
      && r.call == Some(ChangeStream(c.queue[0].source))
      && (r.raised <==> change != Ok)
      && r.notices == (if change == Ok then [NowPlaying(c.queue[0])] else [])
    ensures Consistent(r.after)
    ensures IsSuffix(Lineup(r.after), Lineup(c))
  {
    if c.queue == [] then
      Step(Chat(c.queue, None, false), Some(Leave), [QueueFinished], false)
    else
      var next := c.queue[0];
      var advanced := Chat(c.queue[1..], Some(next), false);
      assert Lineup(advanced) == c.queue;
      QueueEndsLineup(c);
      if change == Ok then Step(advanced, Some(ChangeStream(next.source)), [NowPlaying(next)], false)
      else Step(advanced, Some(ChangeStream(next.source)), [], true)
  }

  /**
   * `on_end`: with a queue it advances as `play_next` does but absorbs a
   * failure; with an empty queue nothing plays, the flag is cleared and a
   * leave is attempted whose failure is ignored.
   */
  function OnEnd(c: Chat, outcome: CallResult): (r: Step)
    ensures !r.raised
    ensures c.queue != [] ==> r == PlayNext(c, outcome).(raised := false)
    ensures c.queue == [] ==> r.after == NewChat && r.call == Some(Leave) && r.notices == []
    ensures Consistent(r.after)
    ensures IsSuffix(Lineup(r.after), Lineup(c))
  {
    if c.queue != [] then
      var advanced := PlayNext(c, outcome);
      advanced.(raised := false)
    else
      Step(c.(playing := None, paused := false), Some(Leave), [], false)
  }

  /**
   * The stream branch of `handle_play`: the track is appended at the tail.
   * If something plays, the user is told the track's position, which is the
   * new queue length; otherwise playback of the queue head starts at once.
   * In a consistent chat that head is the new track itself.
   */
  function EnqueueStream(c: Chat, t: Track, join: CallResult): (r: Step)
    ensures c.playing.Some? ==>
      && r.after == c.(queue := c.queue + [t]) && r.call == None
      && r.notices == [Queued(|r.after.queue|)] && |r.after.queue| == |c.queue| + 1
    ensures c.playing.None? ==>
      r.call.Some? && r.after.queue == (c.queue + [t])[1..] && !r.after.paused
    ensures Consistent(c) && c.playing.None? ==>
      && r.call == Some(Join(t.source)) && r.after.queue == []
      && r.after.playing == (if join == Ok then Some(t) else None)
      && r.notices == [JoiningVoiceChat, if join == Ok then NowPlaying(t)
                                         else if join == NoActiveGroupCall then VoiceChatInactive
                                         else JoinFailed]
    ensures !r.raised
    ensures PausedImpliesPlaying(c) ==> PausedImpliesPlaying(r.after)
    ensures Consistent(c) ==> Consistent(r.after)
    ensures IsSuffix(Lineup(r.after), Lineup(c) + [t])
  {
    var appended := c.(queue := c.queue + [t]);
    assert Lineup(appended) == Lineup(c) + [t];
    if appended.playing.None? then
      var joined := EnsureJoinAndPlay(appended, join);
      assert appended.queue[0] == if c.queue == [] then t else c.queue[0];
      joined.(notices := [JoiningVoiceChat] + joined.notices)
    else
      Step(appended, None, [Queued(|appended.queue|)], false)
  }

  /**
   * `handle_play` for its target chat: only a stream link is queued, as a
   * track whose title and source are the query itself; every other kind of
   * query leaves the chat untouched and issues no transport request.
   */
  function PlayRequest(c: Chat, query: string, requester: string, join: CallResult): (r: Step)
    ensures Classify(query) == StreamLink ==>
      r == EnqueueStream(c, Track(query, query, requester), join) && IsUrl(query)
    ensures Classify(query) != StreamLink ==>
      r.after == c && r.call == None && r.notices == [NotQueued(Classify(query))]
    ensures !r.raised
    ensures PausedImpliesPlaying(c) ==> PausedImpliesPlaying(r.after)
    ensures Consistent(c) ==> Consistent(r.after)
  {
    var kind := Classify(query);
    if kind == StreamLink then EnqueueStream(c, Track(query, query, requester), join)
    else Step(c, None, [NotQueued(kind)], false)
  }

  /** `pause_cmd`: with something playing, the flag is set only when the transport confirms. */
  function Pause(c: Chat, outcome: CallResult): (r: Step)
    ensures r.after.queue == c.queue && r.after.playing == c.playing && !r.raised
    ensures c.playing.None? ==> r.after == c && r.call == None && r.notices == [NothingPlaying]
    ensures c.playing.Some? ==>
      && r.call == Some(PauseStream)
      && r.after.paused == (if outcome == Ok then true else c.paused)
      && r.notices == [if outcome == Ok then Paused else PauseFailed]
    ensures PausedImpliesPlaying(c) ==> PausedImpliesPlaying(r.after)
    ensures Consistent(c) ==> Consistent(r.after)
  {
    if c.playing.None? then Step(c, None, [NothingPlaying], false)
    else if outcome == Ok then Step(c.(paused := true), Some(PauseStream), [Paused], false)
    else Step(c, Some(PauseStream), [PauseFailed], false)
  }

  /** `resume_cmd`: with something playing, the flag is cleared only when the transport confirms. */
  function Resume(c: Chat, outcome: CallResult): (r: Step)
    ensures r.after.queue == c.queue && r.after.playing == c.playing && !r.raised
    ensures c.playing.None? ==> r.after == c && r.call == None && r.notices == [NothingPlaying]
    ensures c.playing.Some? ==>
      && r.call == Some(ResumeStream)
      && r.after.paused == (if outcome == Ok then false else c.paused)
      && r.notices == [if outcome == Ok then Resumed else ResumeFailed]
    ensures PausedImpliesPlaying(c) ==> PausedImpliesPlaying(r.after)
    ensures Consistent(c) ==> Consistent(r.after)
  {
    if c.playing.None? then Step(c, None, [NothingPlaying], false)
    else if outcome == Ok then Step(c.(paused := false), Some(ResumeStream), [Resumed], false)
    else Step(c, Some(ResumeStream), [ResumeFailed], false)
  }

  /**
   * The pause button: with something playing, resumes a paused stream or
   * pauses a running one, and flips the flag only when the transport confirms.
   */
  function TogglePause(c: Chat, outcome: CallResult): (r: Step)
    ensures r.after.queue == c.queue && r.after.playing == c.playing && !r.raised
    ensures c.playing.None? ==> r.after == c && r.call == None && r.notices == [NothingPlaying]
    ensures c.playing.Some? ==>
      && r.call == Some(if c.paused then ResumeStream else PauseStream)
      && r.after.paused == (if outcome == Ok then !c.paused else c.paused)
    ensures PausedImpliesPlaying(c) ==> PausedImpliesPlaying(r.after)
    ensures Consistent(c) ==> Consistent(r.after)
  {
    if c.playing.None? then Step(c, None, [NothingPlaying], false)
    else if c.paused then
      if outcome == Ok then Step(c.(paused := false), Some(ResumeStream), [Resumed], false)
      else Step(c, Some(ResumeStream), [ToggleFailed], false)
    else
      if outcome == Ok then Step(c.(paused := true), Some(PauseStream), [Paused], false)
      else Step(c, Some(PauseStream), [ToggleFailed], false)
  }

  /**
   * `skip_cmd` and the skip button: with something playing, advances as
   * `play_next` does and reports a failed stream change instead of raising.
   */
  function Skip(c: Chat, outcome: CallResult): (r: Step)
    ensures !r.raised
    ensures c.playing.None? ==> r.after == c && r.call == None && r.notices == [NothingPlaying]
    ensures c.playing.Some? ==>
      && r.after == PlayNext(c, outcome).after && r.call == PlayNext(c, outcome).call
      && (SkipFailed in r.notices <==> PlayNext(c, outcome).raised)
    ensures PausedImpliesPlaying(c) ==> PausedImpliesPlaying(r.after)
    ensures Consistent(c) ==> Consistent(r.after)
    ensures IsSuffix(Lineup(r.after), Lineup(c))
  {
    if c.playing.None? then Step(c, None, [NothingPlaying], false)
    else
      var advanced := PlayNext(c, outcome);
      Step(advanced.after, advanced.call,
           [Skipping] + advanced.notices + (if advanced.raised then [SkipFailed] else []), false)
  }

  /**
   * `stop_cmd` and the stop button: from any state, whatever the leave
   * request's outcome, the chat ends empty, idle and unpaused.
   */
  function Stop(c: Chat, leave: CallResult): (r: Step)
    ensures r.after == NewChat && r.call == Some(Leave) && r.notices == [Stopped] && !r.raised
  {
    Step(c.(queue := [], playing := None, paused := false), Some(Leave), [Stopped], false)
  }

  /** The actions an inline button can carry. */
  datatype ButtonAction = PauseButton | SkipButton | StopButton | QueueButton | OtherButton

  /** The action named by the middle field of a button's callback data. */
  function ActionOf(name: string): (a: ButtonAction)
    ensures a == PauseButton <==> name == "pause"
    ensures a == SkipButton <==> name == "skip"
    ensures a == StopButton <==> name == "stop"
    ensures a == QueueButton <==> name == "queue"
    ensures a == OtherButton <==> name !in ["pause", "skip", "stop", "queue"]
  {
    if name == "pause" then PauseButton
    else if name == "skip" then SkipButton
    else if name == "stop" then StopButton
    else if name == "queue" then QueueButton
    else OtherButton
  }

  /**
   * `callbacks` once the chat is known: pause toggles, skip and stop act as
   * their commands do, the queue button and unknown actions change nothing.
   */
  function Button(c: Chat, action: ButtonAction, outcome: CallResult): (r: Step)
    ensures action == PauseButton ==> r == TogglePause(c, outcome)
    ensures action == SkipButton ==> r == Skip(c, outcome)
    ensures action == StopButton ==> r.after == NewChat && r.call == Some(Leave)
    ensures action in {QueueButton, OtherButton} ==> r.after == c && r.call == None
    ensures !r.raised
    ensures PausedImpliesPlaying(c) ==> PausedImpliesPlaying(r.after)
    ensures Consistent(c) ==> Consistent(r.after)
    ensures IsSuffix(Lineup(r.after), Lineup(c))
  {
    match action
    case PauseButton => TogglePause(c, outcome)
    case SkipButton => Skip(c, outcome)
    case StopButton => Stop(c, outcome)
    case QueueButton => Step(c, None, [QueueListing], false)
    case OtherButton => Step(c, None, [UnknownAction], false)
  }
}
