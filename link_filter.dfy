/**
 * The anti-link rule of the message handler: a message from a human that
 * contains an http or https link is removed unless its author is an
 * Administrator. The pattern is `https?://` followed by one or more
 * characters outside JavaScript's `\s` class; the pattern object is built
 * afresh for every message, so its global-flag position never carries over.
 */
module LinkFilter {
  import opened Platform

  /** JavaScript's `\s`: the WhiteSpace and LineTerminator code points of ECMAScript. */
  predicate IsJsWhitespace(c: char) {
    c == '\t' || c == '\n' || c == '\U{B}' || c == '\U{C}' || c == '\r' || c == ' ' ||
    c == '\U{A0}' || c == '\U{1680}' || ('\U{2000}' <= c <= '\U{200A}') ||
    c == '\U{2028}' || c == '\U{2029}' || c == '\U{202F}' || c == '\U{205F}' ||
    c == '\U{3000}' || c == '\U{FEFF}'
  }

  /** A match of the pattern starts at index `i` of `s`. */
  predicate LinkAt(s: string, i: nat) {
    (i + 8 < |s| && s[i..i + 8] == "https://" && !IsJsWhitespace(s[i + 8])) ||
    (i + 7 < |s| && s[i..i + 7] == "http://" && !IsJsWhitespace(s[i + 7]))
  }

  /** The pattern matches somewhere in `s`. */
  ghost predicate ContainsLink(s: string) {
    exists i: nat :: LinkAt(s, i)
  }

  /**
   * The pattern tried at one start position, character by character as a
   * backtracking matcher does: `http`, an optional `s` taken greedily, `://`,
   * then at least one non-whitespace character.
   */
  predicate MatchFrom(s: string, i: nat)
    requires i <= |s|
  {
    i + 4 <= |s| && s[i] == 'h' && s[i + 1] == 't' && s[i + 2] == 't' && s[i + 3] == 'p' &&
    var k := if i + 4 < |s| && s[i + 4] == 's' then i + 5 else i + 4;
    k + 3 < |s| && s[k] == ':' && s[k + 1] == '/' && s[k + 2] == '/' && !IsJsWhitespace(s[k + 3])
  }

  /** The search: try each start position from `i` on, left to right. */
  predicate SearchFrom(s: string, i: nat)
    requires i <= |s|
    decreases |s| - i
  {
    i < |s| && (MatchFrom(s, i) || SearchFrom(s, i + 1))
  }

  /** The matcher at one position agrees with the pattern's meaning there. */
  lemma MatchFromIsLinkAt(s: string, i: nat)
    requires i <= |s|
    ensures MatchFrom(s, i) <==> LinkAt(s, i)
  {
    if i + 8 < |s| && s[i..i + 8] == "https://" {
      var w := s[i..i + 8];
      assert s[i] == w[0] && s[i + 1] == w[1] && s[i + 2] == w[2] && s[i + 3] == w[3];
      assert s[i + 4] == w[4] && s[i + 5] == w[5] && s[i + 6] == w[6] && s[i + 7] == w[7];
    }
    if i + 7 < |s| && s[i..i + 7] == "http://" {
      var w := s[i..i + 7];
      assert s[i] == w[0] && s[i + 1] == w[1] && s[i + 2] == w[2] && s[i + 3] == w[3];
      assert s[i + 4] == w[4] && s[i + 5] == w[5] && s[i + 6] == w[6];
    }
    if MatchFrom(s, i) {
      if i + 4 < |s| && s[i + 4] == 's' {
        assert s[i..i + 8] == "https://";
      } else {
        assert s[i..i + 7] == "http://";
      }
    }
  }

  /** The search from `i` succeeds exactly when a match starts at `i` or later. */
  lemma {:induction false} SearchFromFindsLink(s: string, i: nat)
    requires i <= |s|
    decreases |s| - i
    ensures SearchFrom(s, i) <==> exists j: nat :: i <= j && LinkAt(s, j)
  {
    if i < |s| {
      MatchFromIsLinkAt(s, i);
      SearchFromFindsLink(s, i + 1);
      if exists j: nat :: i <= j && LinkAt(s, j) {
        var j: nat :| i <= j && LinkAt(s, j);
        if j != i {
          assert i + 1 <= j;
        }
      }
    } else {
      forall j: nat | i <= j ensures !LinkAt(s, j) {
      }
    }
  }

  /** Searching the whole content decides the pattern. */
  lemma SearchDecidesLink(s: string)
    ensures SearchFrom(s, 0) <==> ContainsLink(s)
  {
    SearchFromFindsLink(s, 0);
  }

  /** A posted message, with the author facts the handler reads. */
  datatype Message = Message(
    id: string,
    channel: ChannelId,
    content: string,
    author: UserId,
    authorIsBot: bool,
    authorIsAdmin: bool)

  function LinkNotice(author: UserId): string {
    "\U{1F6AB} " + UserMention(author) +
    ", hanya pengguna dengan role **Administrator** yang dapat mengirim tautan."
  }

  /**
   * What the handler does with a message: nothing, or delete it and then
   * post the notice in the same channel.
   */
  function Moderate(m: Message): (actions: seq<Action>)
    ensures actions != [] <==> !m.authorIsBot && ContainsLink(m.content) && !m.authorIsAdmin
    ensures actions != [] ==>
              actions == [DeleteMessage(m.channel, m.id), SendText(m.channel, LinkNotice(m.author))]
  {
    SearchDecidesLink(m.content);
    if m.authorIsBot then []
    else if !SearchFrom(m.content, 0) then []
    else if m.authorIsAdmin then []
    else [DeleteMessage(m.channel, m.id), SendText(m.channel, LinkNotice(m.author))]
  }

  /** A non-administrator posting a plain http link has it removed; an administrator does not. */
  lemma ExampleLinkPost(id: string, channel: ChannelId, author: UserId)
    ensures Moderate(Message(id, channel, "check this out http://example.com", author, false, false)) != []
    ensures Moderate(Message(id, channel, "check this out http://example.com", author, false, true)) == []
  {
    var s := "check this out http://example.com";
    assert s[15..22] == "http://";
    assert LinkAt(s, 15);
  }

  /** A scheme with nothing but whitespace after it is not a link. */
  lemma BareSchemeIsNoLink(id: string, channel: ChannelId, author: UserId)
    ensures Moderate(Message(id, channel, "see https:// x", author, false, false)) == []
  {
    var s := "see https:// x";
    forall j: nat ensures !LinkAt(s, j) {
      if j <= |s| {
        MatchFromIsLinkAt(s, j);
        if j != 4 {
          assert j + 4 > |s| || s[j] != 'h';
        }
      }
    }
  }
}
