/**
 * Sequences of operations on one chat. Every handler runs as one atomic
 * step with a given transport outcome; a trace is a list of such steps.
 * The lemmas here are the orchestrator's promises over whole traces: the
 * state stays consistent, and tracks are served first-in first-out, only
 * ever dropped from the front and never re-queued.
 */
module Trace {
  import opened Wrappers
  import opened Classifier
  import opened Playback

  /** One handler invocation for the chat, with the outcome its transport request gets. */
  datatype Event =
    | PlayCommand(query: string, requester: string, outcome: CallResult)
    | PauseCommand(outcome: CallResult)
    | ResumeCommand(outcome: CallResult)
    | SkipCommand(outcome: CallResult)
    | StopCommand(outcome: CallResult)
    | StreamEnded(outcome: CallResult)
    | ButtonPress(action: ButtonAction, outcome: CallResult)

  /** The track an event adds to the chat: only a stream-link play request adds one. */
  function Arrivals(e: Event): seq<Track> {
    if e.PlayCommand? && Classify(e.query) == StreamLink then [Track(e.query, e.query, e.requester)]
    else []
  }

  /** All arrivals of a trace, in order. */
  function AllArrivals(evs: seq<Event>): seq<Track> {
    if evs == [] then [] else Arrivals(evs[0]) + AllArrivals(evs[1..])
  }

  /**
   * One event. Each keeps both invariants, and what is left to hear after
   * it is a suffix of what was left before it followed by its arrival.
   */
  function Apply(c: Chat, e: Event): (r: Step)
    ensures PausedImpliesPlaying(c) ==> PausedImpliesPlaying(r.after)
    ensures Consistent(c) ==> Consistent(r.after)
    ensures IsSuffix(Lineup(r.after), Lineup(c) + Arrivals(e))
  {
    match e
    case PlayCommand(query, requester, outcome) =>
      var r := PlayRequest(c, query, requester, outcome);
      assert Lineup(c) + Arrivals(e) == Lineup(c) || Arrivals(e) == [Track(query, query, requester)];
      r
    case PauseCommand(outcome) => Pause(c, outcome)
    case ResumeCommand(outcome) => Resume(c, outcome)
    case SkipCommand(outcome) => Skip(c, outcome)
    case StopCommand(outcome) => Stop(c, outcome)
    case StreamEnded(outcome) => OnEnd(c, outcome)
    case ButtonPress(action, outcome) => Button(c, action, outcome)
  }

  /**
   * The chat after a whole trace. Both invariants survive any trace: the
   * flag is never set while nothing plays, and a chat that starts
   * consistent stays consistent.
   */
  function Run(c: Chat, evs: seq<Event>): (r: Chat)
    ensures PausedImpliesPlaying(c) ==> PausedImpliesPlaying(r)
    ensures Consistent(c) ==> Consistent(r)
    decreases |evs|
  {
    if evs == [] then c else Run(Apply(c, evs[0]).after, evs[1..])
  }

  /** Every state reachable from a new chat is consistent. */
  lemma ReachableIsConsistent(evs: seq<Event>)
    ensures Consistent(Run(NewChat, evs))
  {
    assert Consistent(NewChat);
  }

  /** A suffix of a suffix, each extended at the back, is a suffix of the extended whole. */
  lemma SuffixChain<T>(a: seq<T>, x: seq<T>, b: seq<T>, y: seq<T>, c: seq<T>)
    requires IsSuffix(b, a + x)
    requires IsSuffix(c, b + y)
    ensures IsSuffix(c, a + (x + y))
  {
    var p := (a + x)[..|a + x| - |b|];
    assert a + x == p + b;
    assert a + (x + y) == p + (b + y);
    var w := a + (x + y);
    assert w[|w| - |c|..] == (b + y)[|b + y| - |c|..];
  }

  /**
   * First in, first out: after any trace, what is left to hear (the playing
   * track, then the queue) is a suffix of what was left at the start
   * followed by every track the trace queued, in arrival order. Tracks leave
   * only from the front, are never re-queued and never overtake each other.
   */
  lemma {:induction false} RunServesInOrder(c: Chat, evs: seq<Event>)
    ensures IsSuffix(Lineup(Run(c, evs)), Lineup(c) + AllArrivals(evs))
    decreases |evs|
  {
    if evs == [] {
      assert Lineup(c) + AllArrivals(evs) == Lineup(c);
    } else {
      var c1 := Apply(c, evs[0]).after;
      var rest := evs[1..];
      var before, now, first, later := Lineup(c), Lineup(c1), Arrivals(evs[0]), AllArrivals(rest);
      assert Run(c, evs) == Run(c1, rest);
      assert AllArrivals(evs) == first + later;
      assert IsSuffix(now, before + first);
      RunServesInOrder(c1, rest);
      SuffixChain(before, first, now, later, Lineup(Run(c1, rest)));
    }
  }
}
