/**
 * Reading the argument tokens of /play and /cplay. The bot framework hands
 * over a command as its token list: the command name first, then the
 * arguments.
 */
module Commands {
  import opened Wrappers
  import opened Classifier

  /**
   * `" ".join(words)`: the words in order with one space between each pair,
   * so the text starts with the first word and ends with the last.
   */
  function JoinWords(words: seq<string>): (r: string)
    ensures words != [] ==> StartsWith(r, words[0]) && EndsWith(r, words[|words| - 1])
    ensures |words| > 1 ==> |r| > |words[0]| && r[|words[0]|] == ' '
  {
    if words == [] then ""
    else if |words| == 1 then
      var only := words[0];
      assert only[..|only|] == only == only[|only| - |only|..];
      only
    else
      var first, last := words[0], words[|words| - 1];
      var rest := JoinWords(words[1..]);
      assert words[1..][|words[1..]| - 1] == last;
      assert EndsWith(rest, last);
      var r := first + " " + rest;
      assert r[..|first|] == first;
      assert r[|first|] == ' ';
      assert r[|r| - |last|..] == rest[|rest| - |last|..];
      r
  }

  /** `s.endswith(suffix)`. */
  predicate EndsWith(s: string, suffix: string) {
    |suffix| <= |s| && s[|s| - |suffix|..] == suffix
  }

  /** A token as the bot framework splits a command: non-empty and free of whitespace. */
  predicate IsWord(w: string) {
    w != [] && forall k | 0 <= k < |w| :: !IsSpace(w[k])
  }

  /** `m.command[1:] if m.command else []`: the tokens after the command name. */
  function Arguments(command: seq<string>): seq<string> {
    if command == [] then [] else command[1..]
  }

  /** The query `/play` reads: its arguments joined by spaces and stripped. */
  function PlayQuery(command: seq<string>): (q: string)
    ensures q == [] || (!IsSpace(q[0]) && !IsSpace(q[|q| - 1]))
    ensures exists i | 0 <= i <= |JoinWords(Arguments(command))| :: StrippedAt(JoinWords(Arguments(command)), q, i)
  {
    var joined := JoinWords(Arguments(command));
    if command == [] then
      assert StrippedAt(joined, "", 0);
      ""
    else
      Strip(joined)
  }

  /** A first argument that names another chat: a `@handle` or a `-100…` channel id. */
  function IsTargetToken(token: string): (b: bool)
    ensures b <==> (token != [] && token[0] == '@') || (|token| >= 4 && token[..4] == "-100")
  {
    StartsWith(token, "@") || StartsWith(token, "-100")
  }

  /** The requester's display name, `"Unknown"` when the message has no sender. */
  function RequesterName(sender: Option<string>): string {
    match sender
    case Some(mention) => mention
    case None => "Unknown"
  }

  /**
   * `parse_c_command`: an optional target token and the query. The first
   * argument is taken as the target exactly when it looks like a handle or
   * a channel id; otherwise every argument belongs to the query, which is
   * then the very query `/play` would read from the same tokens.
   */
  function ParseCCommand(command: seq<string>): (r: (Option<string>, string))
    ensures r.0.Some? <==> Arguments(command) != [] && IsTargetToken(Arguments(command)[0])
    ensures r.0.Some? ==>
      r.0.value == Arguments(command)[0] && r.1 == Strip(JoinWords(Arguments(command)[1..]))
    ensures r.0.None? ==> r.1 == PlayQuery(command)
  {
    var args := Arguments(command);
    if args == [] then
      assert PlayQuery(command) == "" by {
        assert JoinWords(args) == "";
        StripOfTrimmed("");
      }
      (None, "")
    else
      var first := args[0];
      if IsTargetToken(first) then
        (Some(first), Strip(JoinWords(args[1..])))
      else
        assert PlayQuery(command) == Strip(JoinWords(args));
        (None, Strip(JoinWords(args)))
  }

  /** Every token is a word. */
  predicate AllWords(words: seq<string>) {
    forall i | 0 <= i < |words| :: IsWord(words[i])
  }

  /** Words joined by spaces neither start nor end with whitespace, so stripping keeps them. */
  lemma JoinedWordsAreStripped(words: seq<string>)
    requires words != [] && AllWords(words)
    ensures Strip(JoinWords(words)) == JoinWords(words) != ""
  {
    var j := JoinWords(words);
    var first, last := words[0], words[|words| - 1];
    assert IsWord(first) && IsWord(last);
    assert j[0] == j[..|first|][0] == first[0];
    assert j[|j| - 1] == j[|j| - |last|..][|last| - 1] == last[|last| - 1];
    StripOfTrimmed(j);
  }

  /** Dropping the first token keeps every remaining one a word. */
  lemma TailAllWords(words: seq<string>)
    requires words != [] && AllWords(words)
    ensures AllWords(words[1..])
  {
    forall i | 0 <= i < |words| - 1 ensures IsWord(words[1..][i]) {
      assert words[1..][i] == words[i + 1];
    }
  }

  /**
   * When `/cplay` takes a target from tokens as the framework splits them,
   * the target followed by the query is exactly what `/play` would have
   * read: the target is the first word and nothing else is lost or moved.
   */
  lemma TargetAndQueryMakePlayQuery(command: seq<string>)
    requires AllWords(command)
    requires ParseCCommand(command).0.Some?
    ensures var r := ParseCCommand(command);
      PlayQuery(command) == if r.1 == "" then r.0.value else r.0.value + " " + r.1
  {
    var r := ParseCCommand(command);
    var args := Arguments(command);
    var rest := args[1..];
    assert r.0.value == args[0] && r.1 == Strip(JoinWords(rest));
    assert PlayQuery(command) == Strip(JoinWords(args));
    TailAllWords(command);
    JoinedWordsAreStripped(args);
    if rest == [] {
      assert JoinWords(rest) == "";
      StripOfTrimmed("");
      assert JoinWords(args) == args[0];
    } else {
      TailAllWords(args);
      JoinedWordsAreStripped(rest);
      assert JoinWords(args) == args[0] + " " + JoinWords(rest);
    }
  }

  /**
   * `resolve_target_chat_id`: no token means the chat the command came from;
   * a token is resolved by the bot framework, given here as `lookup` (`None`
   * when the handle is unknown or the number does not parse).
   */
  function ResolveTarget(own: int, token: Option<string>, lookup: Option<int>): Option<int> {
    if token.None? then Some(own) else lookup
  }

  /**
   * A basic-group id such as `-12345` is not recognised as a target: it is
   * read as the first word of the query. That query is then not a URL, so
   * it is never a stream link: nothing is queued and the user is only
   * offered a search.
   */
  lemma PlainNegativeIdIsQuery()
    ensures ParseCCommand(["cplay", "-12345", "x"]).0 == None
    ensures ParseCCommand(["cplay", "-1001234", "x"]).0 == Some("-1001234")
    ensures ParseCCommand(["cplay", "@radio", "x"]).0 == Some("@radio")
  {
    var plain, channel, handle := "-12345", "-1001234", "@radio";
    assert Arguments(["cplay", plain, "x"])[0] == plain;
    assert !IsTargetToken(plain) by {
      assert plain[0] != '@';
      assert plain[..4][2] != "-100"[2];
    }
    assert Arguments(["cplay", channel, "x"])[0] == channel;
    assert IsTargetToken(channel) by {
      assert channel[..4] == "-100";
    }
    assert Arguments(["cplay", handle, "x"])[0] == handle;
    assert IsTargetToken(handle) by {
      assert handle[0] == '@';
    }
  }
}
