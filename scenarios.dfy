/**
 * Concrete runs of the orchestrator on one chat, each stated for every
 * input that fits the situation rather than for one sample value.
 */
module Scenarios {
  import opened Wrappers
  import opened Classifier
  import opened Playback

  /**
   * Two stream links sent to a new chat whose join succeeds: the first
   * plays at once, the second waits at queue position 1, and only the first
   * request reached the transport as a join.
   */
  lemma TwoStreamsIntoNewChat(q1: string, q2: string, who: string, join2: CallResult)
    requires Classify(q1) == StreamLink && Classify(q2) == StreamLink
    ensures var r1 := PlayRequest(NewChat, q1, who, Ok);
      var r2 := PlayRequest(r1.after, q2, who, join2);
      && r1.call == Some(Join(q1))
      && r2.after == Chat([Track(q2, q2, who)], Some(Track(q1, q1, who)), false)
      && r2.call == None
      && r2.notices == [Queued(1)]
  {
    var r1 := PlayRequest(NewChat, q1, who, Ok);
    assert r1 == EnqueueStream(NewChat, Track(q1, q1, who), Ok);
    assert r1.after == Chat([], Some(Track(q1, q1, who)), false);
  }

  /**
   * Once a join has succeeded, or something is already playing, a second
   * join-and-play attempt issues no transport request; in a consistent chat
   * no attempt ever does.
   */
  lemma JoinIsIdempotent(c: Chat, join: CallResult, again: CallResult)
    requires join == Ok || c.playing.Some?
    ensures EnsureJoinAndPlay(EnsureJoinAndPlay(c, join).after, again).call == None
    ensures Consistent(c) ==> EnsureJoinAndPlay(c, join).call == None
  {
    var r := EnsureJoinAndPlay(c, join);
    assert r.after.playing.Some? || r.after.queue == [];
  }

  /**
   * Advancing with one track queued while another plays: the playing one is
   * discarded, the queued one plays through a stream change (not a join) and
   * the queue is left empty.
   */
  lemma AdvanceWithOneQueued(now: Track, next: Track, paused: bool, change: CallResult)
    ensures var r := PlayNext(Chat([next], Some(now), paused), change);
      && r.after == Chat([], Some(next), false)
      && r.call == Some(ChangeStream(next.source))
  {
  }

  /**
   * A stream ending with one track queued: that track plays through a
   * stream change, and a failed change is absorbed.
   */
  lemma StreamEndsWithOneQueued(now: Track, next: Track, outcome: CallResult)
    ensures var r := OnEnd(Chat([next], Some(now), false), outcome);
      && r.after == Chat([], Some(next), false)
      && r.call == Some(ChangeStream(next.source))
      && !r.raised
  {
  }

  /** A stream ending in an idle chat only attempts a leave; the chat stays idle. */
  lemma StreamEndsWhenIdle(outcome: CallResult)
    ensures OnEnd(NewChat, outcome) == Step(NewChat, Some(Leave), [], false)
  {
  }

  /**
   * A join refused because the voice chat is not live: nothing plays, the
   * track is gone rather than re-queued, and the requester is told to start
   * the voice chat first.
   */
  lemma InactiveVoiceChatDropsTrack(c: Chat, t: Track)
    requires Consistent(c) && c.playing.None?
    ensures var r := EnqueueStream(c, t, NoActiveGroupCall);
      && r.after == NewChat
      && r.call == Some(Join(t.source))
      && r.notices == [JoiningVoiceChat, VoiceChatInactive]
  {
    assert c.queue == [];
    assert (c.queue + [t])[0] == t;
  }

  /**
   * A confirmed pause followed by a confirmed resume issues one pause and
   * one resume request and leaves the chat unpaused, which restores the
   * state exactly when it was not paused before.
   */
  lemma PauseThenResume(c: Chat)
    requires c.playing.Some?
    ensures var p := Pause(c, Ok);
      var r := Resume(p.after, Ok);
      && p.call == Some(PauseStream) && r.call == Some(ResumeStream)
      && r.after == c.(paused := false)
      && (r.after == c <==> !c.paused)
  {
  }

  /**
   * A new chat's first stream link, when the join succeeds: the transport
   * is asked to join with the link itself, which then plays with nothing
   * left queued.
   */
  lemma FirstStreamPlays(query: string, who: string)
    requires Classify(query) == StreamLink
    ensures var r := PlayRequest(NewChat, query, who, Ok);
      && r.call == Some(Join(query))
      && r.after == Chat([], Some(Track(query, query, who)), false)
      && r.notices == [JoiningVoiceChat, NowPlaying(Track(query, query, who))]
  {
    assert PlayRequest(NewChat, query, who, Ok) == EnqueueStream(NewChat, Track(query, query, who), Ok);
  }
}
