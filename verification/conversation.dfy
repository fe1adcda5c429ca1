/** The session-backed conversation memory of the chat backend:
    `get_conversation_context` and `save_conversation_context`. The Flask
    session's `messages` entry is either absent or the whole history as
    one string. */
module Conversation {
  import opened Wrappers
  import opened TextUtil

  type Session = Option<string>

  const DefaultMaxTokens: int := 1000

  /** Python's `xs[start:]`: a negative start counts from the end, and a
      start past either end is clamped. */
  function SliceFrom<T>(xs: seq<T>, start: int): (r: seq<T>)
    ensures |r| <= |xs| && r == xs[|xs| - |r|..]
    ensures start < 0 ==> |r| == Min(-start, |xs|)
    ensures start >= 0 ==> |r| == Max(|xs| - start, 0)
  {
    if start >= 0 then (if start <= |xs| then xs[start..] else [])
    else if -start <= |xs| then xs[|xs| + start..]
    else xs
  }

  /** One exchange as the session stores it. */
  function Turn(message: string, response: string): string {
    "User: " + message + "\nBot: " + response
  }

  /** `save_conversation_context`: the exchange is appended on a new line,
      or starts the history. */
  function SaveConversationContext(session: Session, message: string, response: string): (s: Session)
    ensures s.Some? && EndsWith(s.value, Turn(message, response))
    ensures session.Some? ==> session.value + "\n" <= s.value
    ensures session.None? ==> s.value == Turn(message, response)
  {
    match session
    case None => Some(Turn(message, response))
    case Some(prev) =>
      var t := prev + "\n" + Turn(message, response);
      assert t[|t| - |Turn(message, response)|..] == Turn(message, response);
      Some(t)
  }

  /** `get_conversation_context`, as written: past the limit, the words
      kept are `split()[-max_tokens:]`, rejoined by single spaces. */
  function GetConversationContext(session: Session, maxTokens: int): (r: string)
    ensures session.None? ==> r == ""
    ensures session.Some? && |Words(session.value)| <= maxTokens ==> r == session.value
  {
    match session
    case None => ""
    case Some(ctx) =>
      var ws := Words(ctx);
      if |ws| > maxTokens then Join(" ", SliceFrom(ws, -maxTokens)) else ctx
  }

  /** The same with the limit read as "at most `max_tokens` words", which
      differs from the code only for a limit of zero or less. */
  function GetConversationContextBounded(session: Session, maxTokens: int): (r: string)
    ensures session.None? ==> r == ""
    ensures session.Some? ==>
              var ws := Words(session.value);
              Words(r) == ws[|ws| - Min(|ws|, Max(0, maxTokens))..]
  {
    match session
    case None => ""
    case Some(ctx) =>
      var ws := Words(ctx);
      if |ws| > maxTokens then
        var kept := ws[|ws| - Max(0, maxTokens)..];
        SuffixWordsOfJoin(ws, |ws| - Max(0, maxTokens));
        Join(" ", kept)
      else
        assert ws[|ws| - Min(|ws|, Max(0, maxTokens))..] == ws;
        ctx
  }

  lemma SuffixWordsOfJoin(ws: seq<string>, from: nat)
    requires from <= |ws|
    requires forall i :: 0 <= i < |ws| ==> IsWord(ws[i])
    ensures Words(Join(" ", ws[from..])) == ws[from..]
  {
    var t := ws[from..];
    forall i | 0 <= i < |t| ensures IsWord(t[i]) {
      assert t[i] == ws[from + i];
    }
    WordsOfJoin(t);
  }

  /** Over a positive limit the context keeps exactly the last `maxTokens`
      words; the two readings agree on every positive limit. */
  lemma {:induction false} ContextKeepsLastWords(session: Session, maxTokens: int)
    requires maxTokens > 0
    ensures GetConversationContext(session, maxTokens) == GetConversationContextBounded(session, maxTokens)
    ensures session.Some? && |Words(session.value)| > maxTokens ==>
              var ws := Words(session.value);
              Words(GetConversationContext(session, maxTokens)) == ws[|ws| - maxTokens..]
  {
  }

  /** With a limit of zero, `[-0:]` is the whole list: the code keeps every
      word instead of none. */
  lemma {:induction false} ZeroLimitKeepsEverything(ctx: string, maxTokens: int)
    requires maxTokens == 0 && |Words(ctx)| > 0
    ensures Words(GetConversationContext(Some(ctx), maxTokens)) == Words(ctx)
    ensures Words(GetConversationContextBounded(Some(ctx), maxTokens)) == []
  {
    var ws := Words(ctx);
    assert SliceFrom(ws, -maxTokens) == ws;
    SuffixWordsOfJoin(ws, 0);
    assert ws[0..] == ws;
  }

  /** Two marker words around two free texts. */
  lemma {:induction false} MarkedWords(u: string, m: string, b: string, r: string)
    requires IsWord(u) && IsWord(b)
    ensures Words(u + [' '] + (m + ['\n'] + (b + [' '] + r))) == [u] + Words(m) + [b] + Words(r)
  {
    WordsAppendSpace(u, ' ', m + ['\n'] + (b + [' '] + r));
    WordsAppendSpace(m, '\n', b + [' '] + r);
    WordsAppendSpace(b, ' ', r);
    WordsCons(u, "");
    WordsCons(b, "");
    assert u + "" == u && b + "" == b;
  }

  lemma MarkersAreWords()
    ensures IsWord("User:") && IsWord("Bot:")
  {
  }

  /** The words of one stored exchange. */
  lemma TurnWords(message: string, response: string)
    ensures Words(Turn(message, response)) == ["User:"] + Words(message) + ["Bot:"] + Words(response)
  {
    var user, bot := "User:", "Bot:";
    assert Turn(message, response) == user + [' '] + (message + ['\n'] + (bot + [' '] + response));
    MarkersAreWords();
    MarkedWords(user, message, bot, response);
  }

  /** Saving adds the exchange's words after the stored history's words. */
  lemma SavedWords(session: Session, message: string, response: string)
    ensures Words(SaveConversationContext(session, message, response).value)
            == Words(session.GetOr("")) + ["User:"] + Words(message) + ["Bot:"] + Words(response)
  {
    var t := Turn(message, response);
    SavedTurnWords(session, t, SaveConversationContext(session, message, response).value);
    TurnWords(message, response);
    AppendAfter(Words(session.GetOr("")), ["User:"], Words(message), ["Bot:"], Words(response));
  }

  lemma AppendAfter<T>(a: seq<T>, b: seq<T>, c: seq<T>, d: seq<T>, e: seq<T>)
    ensures a + (b + c + d + e) == a + b + c + d + e
  {
  }

  lemma SavedTurnWords(session: Session, t: string, saved: string)
    requires session.None? ==> saved == t
    requires session.Some? ==> saved == session.value + "\n" + t
    ensures Words(saved) == Words(session.GetOr("")) + Words(t)
  {
    match session
    case None =>
      assert Words("") == [];
    case Some(prev) =>
      assert saved == prev + ['\n'] + t;
      WordsAppendSpace(prev, '\n', t);
  }

  /** Reading back after a save, under any limit at least as large as the
      reply, ends with the reply's words: the newest answer is never
      truncated away. */
  lemma ReplySurvivesTruncation(session: Session, message: string, response: string, maxTokens: int)
    requires maxTokens >= |Words(response)|
    ensures var ctx := GetConversationContext(SaveConversationContext(session, message, response), maxTokens);
            var rw := Words(response);
            |rw| <= |Words(ctx)| && Words(ctx)[|Words(ctx)| - |rw|..] == rw
  {
    var saved := SaveConversationContext(session, message, response);
    SavedWords(session, message, response);
    var ws := Words(saved.value);
    var rw := Words(response);
    assert ws[|ws| - |rw|..] == rw;
    if |ws| > maxTokens && maxTokens > 0 {
      ContextKeepsLastWords(saved, maxTokens);
      assert ws[|ws| - maxTokens..][maxTokens - |rw|..] == rw;
    }
  }
}
