/** The remote-control socket (src/classes/SocketServer.ts): the handshake check, the greeting
    a new connection gets, the player events it forwards, and setTokens. */
module Socket {
  import opened Common
  import opened Interfaces
  import opened Player

  /** `socket.handshake.auth`; a field is None when the client did not send it. */
  datatype Auth = Auth(token: Option<string>, client: Option<string>, guildId: Option<string>)

  /** A value passes `!value` as present: sent and not the empty string. */
  predicate Present(v: Option<string>)
  {
    v.Some? && v.value != ""
  }

  /** `socket.data` of an accepted connection. */
  datatype SocketData = SocketData(guildId: string, client: string)

  datatype HandshakeResult = Accepted(data: SocketData) | Rejected(error: string)

  const AuthError := "Authentication Error"
  const TokenNotSet := "Token not set"
  const InvalidToken := "Invalid Token"

  /** `tokens.find(t => t.guildId === guildId)` as an index, -1 for none. */
  function FindToken(tokens: seq<GuildToken>, guildId: string): (i: int)
    ensures -1 <= i < |tokens|
    ensures i >= 0 ==> tokens[i].guildId == guildId
    ensures forall j :: 0 <= j < |tokens| && (i < 0 || j < i) ==> tokens[j].guildId != guildId
  {
    if tokens == [] then -1
    else if tokens[0].guildId == guildId then 0
    else
      var k := FindToken(tokens[1..], guildId);
      if k < 0 then -1 else k + 1
  }

  /** The `io.use` check: missing data first, then a guild without a token, then a wrong token;
      a connection is accepted only with the token stored for its guild. */
  function Handshake(tokens: seq<GuildToken>, auth: Auth): (r: HandshakeResult)
    ensures r == Rejected(AuthError) <==>
      !Present(auth.token) || !Present(auth.client) || !Present(auth.guildId)
    ensures r == Rejected(TokenNotSet) <==>
      Present(auth.token) && Present(auth.client) && Present(auth.guildId)
      && forall j :: 0 <= j < |tokens| ==> tokens[j].guildId != auth.guildId.value
    ensures r == Rejected(InvalidToken) <==>
      Present(auth.token) && Present(auth.client) && Present(auth.guildId)
      && FindToken(tokens, auth.guildId.value) >= 0
      && tokens[FindToken(tokens, auth.guildId.value)].token != auth.token.value
    ensures r.Accepted? <==>
      Present(auth.token) && Present(auth.client) && Present(auth.guildId)
      && FindToken(tokens, auth.guildId.value) >= 0
      && tokens[FindToken(tokens, auth.guildId.value)].token == auth.token.value
    ensures r.Accepted? ==> r.data == SocketData(auth.guildId.value, auth.client.value)
  {
    if !Present(auth.token) || !Present(auth.client) || !Present(auth.guildId) then Rejected(AuthError)
    else
      var i := FindToken(tokens, auth.guildId.value);
      if i < 0 then Rejected(TokenNotSet)
      else if tokens[i].token != auth.token.value then Rejected(InvalidToken)
      else Accepted(SocketData(tokens[i].guildId, auth.client.value))
  }

  /** What a new connection is sent first. */
  datatype Greeting = StateChange(state: PlayerState, current: Option<Track>) | Disconnected

  /** What skip calls, in the order of its three `if`s: each test reads the flags, which play()
      and repeatPlay() do not change. */
  datatype SkipAction = PlayAction | RepeatPlayAction | RepeatAllPlayAction

  function SkipActions(repeat: bool, repeatAll: bool): (r: seq<SkipAction>)
    ensures PlayAction in r <==> !repeat && !repeatAll
    ensures RepeatPlayAction in r <==> repeat
    ensures RepeatAllPlayAction in r <==> repeatAll
    ensures |r| >= 1
  {
    (if !repeat && !repeatAll then [PlayAction] else [])
    + (if repeat then [RepeatPlayAction] else [])
    + (if repeatAll then [RepeatAllPlayAction] else [])
  }

  /** The player events a connected client may send. `search`, `repeatall`, `shuffle` and
      `test` are not modelled. */
  datatype SocketEvent = PauseEvent | StopEvent | SkipEvent | RepeatEvent | VolumeEvent(volume: int)

  /** What an event does to the guild's session. Repeat-all is never on in a session, so skip
      is play() or repeatPlay(). */
  function EventEffect(s: Session, ev: SocketEvent, fetched: Track -> bool): (r: Session)
    requires Wf(s)
    ensures Wf(r)
    ensures ev == PauseEvent ==> r == s
    ensures ev == SkipEvent ==> (if s.state.repeat then r == Replayed(s, fetched) else r == PlayNext(s, fetched))
  {
    match ev
    case PauseEvent => s
    case StopEvent => Stopped(s, false)
    case SkipEvent => if s.state.repeat then Replayed(s, fetched) else PlayNext(s, fetched)
    case RepeatEvent => RepeatToggled(s)
    case VolumeEvent(n) => SetVolume(s, n)
  }

  /** In a session, skip makes exactly one call: play() without repeat, repeatPlay() with it. */
  lemma SkipCallsOne(s: Session)
    requires Wf(s)
    ensures SkipActions(s.state.repeat, s.state.repeatAll)
      == if s.state.repeat then [RepeatPlayAction] else [PlayAction]
  {
  }

  class SocketServer {
    var tokens: seq<GuildToken>
    const registry: Registry

    constructor (tokens: seq<GuildToken>, registry: Registry)
      ensures this.tokens == tokens && this.registry == registry
    {
      this.tokens := tokens;
      this.registry := registry;
    }

    /** Handshakes from now on are checked against the new list. */
    method SetTokens(tokens: seq<GuildToken>)
      modifies this
      ensures this.tokens == tokens
      ensures forall auth :: Authenticate(auth) == Handshake(tokens, auth)
    {
      this.tokens := tokens;
    }

    function Authenticate(auth: Auth): HandshakeResult
      reads this
    {
      Handshake(tokens, auth)
    }

    /** The state and current track of the guild's session, or `disconnected` when the guild
        has none. */
    method Greet(guildId: string) returns (g: Greeting)
      ensures guildId in registry.instances ==>
        g == StateChange(registry.instances[guildId].state, registry.instances[guildId].current)
      ensures guildId !in registry.instances ==> g == Disconnected
    {
      if guildId in registry.instances {
        var pm := registry.instances[guildId];
        g := StateChange(pm.state, pm.current);
      } else {
        g := Disconnected;
      }
    }

    /** An event from a client of `guildId`: forwarded to the guild's session if it has one;
        pause returns what is asked of the audio player. No other session changes. */
    method HandleEvent(guildId: string, ev: SocketEvent, fetched: Track -> bool) returns (cmd: Option<PlayerCommand>)
      requires registry.Valid()
      modifies registry.instances.Values
      ensures registry.Valid()
      ensures guildId !in registry.instances ==> cmd == None
      ensures guildId in registry.instances ==>
        registry.instances[guildId].Snapshot() == EventEffect(old(registry.instances[guildId].Snapshot()), ev, fetched)
        && cmd == (if ev == PauseEvent then PauseRequest(old(registry.instances[guildId].Snapshot())) else None)
      ensures forall g :: g in registry.instances && g != guildId ==> unchanged(registry.instances[g])
    {
      cmd := None;
      if guildId !in registry.instances {
        return;
      }
      var pm := registry.instances[guildId];
      match ev {
        case PauseEvent =>
          cmd := pm.Pause();
        case StopEvent =>
          pm.Stop(false);
        case SkipEvent =>
          if !pm.state.repeat && !pm.state.repeatAll {
            pm.Play(fetched);
          }
          if pm.state.repeat {
            pm.RepeatPlay(fetched);
          }
        case RepeatEvent =>
          pm.Repeat();
        case VolumeEvent(n) =>
          pm.Volume(n);
      }
    }
  }
}
