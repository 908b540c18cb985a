/** The `/socket` command (src/commands/socket.ts): stores a trimmed token for the guild,
    replacing any earlier one, and hands the new list to the socket server. */
module SocketCommand {
  import opened Common
  import opened Interfaces
  import Utils
  import Socket

  /** The characters `String.prototype.trim` removes: white space and line terminators as
      ECMAScript defines them (section 12.2 and 12.3 of ECMA-262). */
  predicate IsJsSpace(c: char)
  {
    c == '\t' || c == '\n' || c == '\U{000B}' || c == '\U{000C}' || c == '\r' || c == ' '
    || c == '\U{00A0}' || c == '\U{1680}' || ('\U{2000}' <= c <= '\U{200A}')
    || c == '\U{2028}' || c == '\U{2029}' || c == '\U{202F}' || c == '\U{205F}'
    || c == '\U{3000}' || c == '\U{FEFF}'
  }

  /** Every character of x is white space. */
  predicate AllSpace(x: string)
  {
    forall i :: 0 <= i < |x| ==> IsJsSpace(x[i])
  }

  /** `s.trimStart()`: drops the leading white space and nothing else. */
  function TrimStart(s: string): (r: string)
    ensures |r| <= |s| && r == s[|s| - |r|..]
    ensures r == [] || !IsJsSpace(r[0])
    ensures AllSpace(s[..|s| - |r|])
  {
    if s != [] && IsJsSpace(s[0]) then
      var r := TrimStart(s[1..]);
      var n := |s| - |r|;
      assert forall i :: 1 <= i < n ==> s[..n][i] == s[1..][..n - 1][i - 1];
      r
    else s
  }

  /** `s.trimEnd()`: drops the trailing white space and nothing else. */
  function TrimEnd(s: string): (r: string)
    ensures |r| <= |s| && r == s[..|r|]
    ensures r == [] || !IsJsSpace(r[|r| - 1])
    ensures AllSpace(s[|r|..])
  {
    if s != [] && IsJsSpace(s[|s| - 1]) then
      var r := TrimEnd(s[..|s| - 1]);
      assert forall i :: 0 <= i < |s| - 1 - |r| ==> s[|r|..][i] == s[..|s| - 1][|r|..][i];
      r
    else s
  }

  /** `s.trim()`: the longest infix of s that neither starts nor ends with white space, reached
      by removing only white space: what lies before it and what follows it is all white
      space. */
  function Trim(s: string): (r: string)
    ensures r == [] || (!IsJsSpace(r[0]) && !IsJsSpace(r[|r| - 1]))
    ensures exists k :: InfixAt(s, r, k) && AllSpace(s[..k]) && AllSpace(s[k + |r|..])
  {
    var t := TrimStart(s);
    var r := TrimEnd(t);
    TrimParts(s, t, r);
    r
  }

  /** The start trimmed off s, then the end trimmed off what is left, leave an infix of s with
      white space only around it and none at its ends. */
  lemma TrimParts(s: string, t: string, r: string)
    requires |t| <= |s| && t == s[|s| - |t|..] && AllSpace(s[..|s| - |t|])
    requires t == [] || !IsJsSpace(t[0])
    requires |r| <= |t| && r == t[..|r|] && AllSpace(t[|r|..])
    requires r == [] || !IsJsSpace(r[|r| - 1])
    ensures r == [] || (!IsJsSpace(r[0]) && !IsJsSpace(r[|r| - 1]))
    ensures exists k :: InfixAt(s, r, k) && AllSpace(s[..k]) && AllSpace(s[k + |r|..])
  {
    var k := |s| - |t|;
    assert r != [] ==> r[0] == t[0];
    assert r == s[k..k + |r|];
    assert s[k + |r|..] == t[|r|..];
    assert InfixAt(s, r, k) && AllSpace(s[..k]) && AllSpace(s[k + |r|..]);
  }

  lemma TrimIdempotent(s: string)
    ensures Trim(Trim(s)) == Trim(s)
  {
  }

  function OtherGuild(guildId: string): GuildToken -> bool
  {
    (t: GuildToken) => t.guildId != guildId
  }

  /** The list after the command, from the list before it: entries of the guild are filtered
      out when there are any, and the new entry is pushed. */
  function UpsertToken(tokens: seq<GuildToken>, data: GuildToken): (r: seq<GuildToken>)
    ensures |r| >= 1 && r[|r| - 1] == data
    ensures forall i :: 0 <= i < |r| - 1 ==> r[i].guildId != data.guildId
    ensures Filter(r, OtherGuild(data.guildId)) == Filter(tokens, OtherGuild(data.guildId))
  {
    var f := OtherGuild(data.guildId);
    var kept := if Socket.FindToken(tokens, data.guildId) >= 0 then Filter(tokens, f) else tokens;
    FilterKeepsAll(kept, f);
    FilterAppend(kept, [data], f);
    FilterSingle(data, f);
    assert Socket.FindToken(tokens, data.guildId) < 0 ==> Filter(tokens, f) == tokens by {
      if Socket.FindToken(tokens, data.guildId) < 0 {
        FilterKeepsAll(tokens, f);
      }
    }
    kept + [data]
  }

  /** A guild's token is whatever the command last stored for it: a handshake for the guild
      is accepted with exactly that token and refused as invalid with any other. */
  lemma HandshakeAfterSet(tokens: seq<GuildToken>, guildId: string, token: string, offered: string, client: string)
    requires guildId != "" && token != "" && offered != "" && client != ""
    ensures var auth := Socket.Auth(Some(offered), Some(client), Some(guildId));
      var r := Socket.Handshake(UpsertToken(tokens, GuildToken(guildId, token)), auth);
      (offered == token ==> r == Socket.Accepted(Socket.SocketData(guildId, client)))
      && (offered != token ==> r == Socket.Rejected(Socket.InvalidToken))
  {
    var r := UpsertToken(tokens, GuildToken(guildId, token));
    assert Socket.FindToken(r, guildId) == |r| - 1;
  }

  /** The statements of execute that change the token list: the find, the filter that
      reassigns the list, and the push, in that order on a local copy. UpsertToken is the value
      they compute; this method is that computation done step by step. */
  method ReplaceToken(tokens: seq<GuildToken>, data: GuildToken) returns (r: seq<GuildToken>)
    ensures r == UpsertToken(tokens, data)
  {
    r := tokens;
    if Socket.FindToken(r, data.guildId) >= 0 {
      r := Filter(r, OtherGuild(data.guildId));
    }
    r := r + [data];
  }

  /** execute: the token is trimmed, stored in place of the guild's earlier one, and the same
      list goes to the socket server when there is one. Returns the reply text. */
  method Execute(guildId: string, rawToken: string, config: Utils.Config, server: Socket.SocketServer?)
    returns (reply: string)
    modifies config, server
    ensures config.guildTokens == UpsertToken(old(config.guildTokens), GuildToken(guildId, Trim(rawToken)))
    ensures config.musicChannels == old(config.musicChannels)
    ensures server != null ==> server.tokens == config.guildTokens
    ensures reply == "Token for this guild set to:\n" + Trim(rawToken)
  {
    var token := Trim(rawToken);
    var tokens := ReplaceToken(config.guildTokens, GuildToken(guildId, token));
    config.guildTokens := tokens;
    if server != null {
      server.SetTokens(tokens);
    }
    reply := "Token for this guild set to:\n" + token;
  }
}
