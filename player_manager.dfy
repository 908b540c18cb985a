/** The per-guild playback session (src/classes/PlayerManager.ts).

    The session's state is given twice: as the fields of class PlayerManager, which its
    methods update in place as the source does, and as the value `Session`, on which pure
    functions state what each operation does. Every method ensures that its new Snapshot()
    is the matching function of the old one; the lemmas and contracts below say what
    those functions mean. */
module Player {
  import opened Common
  import opened Interfaces

  /** A voice connection, known by the channel it joined (`joinConfig.channelId`). */
  datatype Connection = Connection(channelId: string)

  /** An audio resource made for a track at a volume (in percent). */
  datatype Resource = Resource(track: Track, volume: int)

  /** What pause() asks of the audio player. */
  datatype PlayerCommand = PauseCmd | UnpauseCmd

  /** All fields of a PlayerManager, as one value: `hasPlayer` stands for `player !== null`. */
  datatype Session = Session(
    connection: Option<Connection>,
    hasPlayer: bool,
    resource: Option<Resource>,
    state: PlayerState,
    current: Option<Track>,
    queue: seq<Track>)

  /** What the constructor builds and destroyVoiceConnection restores. */
  const InitialSession := Session(None, false, None, InitialState, None, [])

  /** The invariant every operation keeps: one phase flag, `connected` and the player exist
      exactly when there is a connection, repeat only with a current track, the never-set
      repeatAll stays false, and a playing session has idletime 0. */
  predicate Wf(s: Session)
  {
    && OnePhase(s.state)
    && (s.state.connected <==> s.connection.Some?)
    && (s.hasPlayer <==> s.connection.Some?)
    && (s.state.repeat ==> s.current.Some?)
    && !s.state.repeatAll
    && (s.state.playing ==> s.state.idletime == 0)
  }

  /** createResourceStream succeeds for t: it has a branch for YouTube, SoundCloud and media
      tracks and throws for any other type; `fetched` is whether fetching the stream worked. */
  predicate Playable(t: Track, fetched: Track -> bool)
  {
    t.kind != Spotify && fetched(t)
  }

  /** How many tracks one play() takes off the queue: up to and including the first one a
      resource can be made for, or all of them. */
  function Attempts(q: seq<Track>, fetched: Track -> bool): (n: nat)
    ensures n <= |q|
    ensures q != [] <==> n >= 1
    ensures forall i :: 0 <= i < n - 1 ==> !Playable(q[i], fetched)
    ensures 0 < n < |q| ==> Playable(q[n - 1], fetched)
  {
    if q == [] then 0
    else if Playable(q[0], fetched) then 1
    else 1 + Attempts(q[1..], fetched)
  }

  // ---- queue methods ----

  /** addTrack: the track goes to the tail; nothing else changes. */
  function Enqueued(s: Session, t: Track): (r: Session)
    ensures r.queue == s.queue + [t]
    ensures r.(queue := s.queue) == s
  {
    s.(queue := s.queue + [t])
  }

  /** getNextTrack (`queue.shift()`): the head comes out, the rest stays in order. */
  function NextTrack(s: Session): (r: (Option<Track>, Session))
    ensures s.queue == [] ==> r == (None, s)
    ensures s.queue != [] ==> r.0 == Some(s.queue[0]) && r.1 == s.(queue := s.queue[1..])
  {
    if s.queue == [] then (None, s) else (Some(s.queue[0]), s.(queue := s.queue[1..]))
  }

  /** FIFO: adding at the tail and taking from the head commute, except on an empty queue,
      where the added track is the one taken. */
  lemma AddThenNext(s: Session, t: Track)
    ensures s.queue == [] ==> NextTrack(Enqueued(s, t)) == (Some(t), s)
    ensures s.queue != [] ==>
      NextTrack(Enqueued(s, t)) == (NextTrack(s).0, Enqueued(NextTrack(s).1, t))
  {
    if s.queue != [] {
      assert (s.queue + [t])[1..] == s.queue[1..] + [t];
    } else {
      assert (s.queue + [t])[1..] == [];
    }
  }

  // ---- player methods ----

  /** play(): without a player or with an empty queue nothing happens; otherwise tracks are
      taken from the head, each becoming `current`, until a resource can be made for one,
      which is then played at the current volume. When every attempt fails, `current` is
      the last track tried and the queue is empty. */
  function PlayNext(s: Session, fetched: Track -> bool): (r: Session)
    requires Wf(s)
    ensures Wf(r)
    ensures !s.hasPlayer || s.queue == [] ==> r == s
    ensures s.hasPlayer && s.queue != [] ==>
      var n := Attempts(s.queue, fetched);
      var t := s.queue[n - 1];
      r == s.(queue := s.queue[n..], current := Some(t),
              resource := if Playable(t, fetched) then Some(Resource(t, s.state.volume)) else s.resource)
    decreases |s.queue|
  {
    if !s.hasPlayer || s.queue == [] then s
    else
      var t := s.queue[0];
      var taken := s.(queue := s.queue[1..], current := Some(t));
      if Playable(t, fetched) then taken.(resource := Some(Resource(t, s.state.volume)))
      else
        assert s.queue[1..][Attempts(s.queue[1..], fetched)..] == s.queue[1 + Attempts(s.queue[1..], fetched)..];
        PlayNext(taken, fetched)
  }

  /** Each retry takes one more track, and when no track can be played the whole queue is
      used up and the last one stays `current`. */
  lemma PlayAllFail(s: Session, fetched: Track -> bool)
    requires Wf(s) && s.hasPlayer && s.queue != []
    requires forall i :: 0 <= i < |s.queue| ==> !Playable(s.queue[i], fetched)
    ensures PlayNext(s, fetched) == s.(queue := [], current := Some(s.queue[|s.queue| - 1]))
  {
    var n := Attempts(s.queue, fetched);
    assert !Playable(s.queue[n - 1], fetched);
    assert n == |s.queue|;
    assert s.queue[n..] == [];
  }

  /** repeatPlay(): replays `current` without touching the queue. With no current track the
      resource cannot be made (createResourceStream throws, the error is caught) and nothing
      changes. */
  function Replayed(s: Session, fetched: Track -> bool): (r: Session)
    requires Wf(s)
    ensures Wf(r)
    ensures r.(resource := s.resource) == s
    ensures r.resource != s.resource ==>
      s.hasPlayer && s.current.Some? && r.resource == Some(Resource(s.current.value, s.state.volume))
    ensures s.hasPlayer && s.current.Some? && Playable(s.current.value, fetched) ==>
      r.resource == Some(Resource(s.current.value, s.state.volume))
    ensures !(s.hasPlayer && s.current.Some? && Playable(s.current.value, fetched)) ==> r == s
  {
    if !s.hasPlayer || s.current.None? then s
    else if Playable(s.current.value, fetched) then s.(resource := Some(Resource(s.current.value, s.state.volume)))
    else s
  }

  /** pause(): asks the player to pause when not paused and to unpause when paused; does
      nothing without a player or a current track. The flags change only when the player
      reports its new status. */
  function PauseRequest(s: Session): (c: Option<PlayerCommand>)
    ensures c.None? <==> !s.hasPlayer || s.current.None?
    ensures c == Some(PauseCmd) ==> !s.state.paused
    ensures c == Some(UnpauseCmd) ==> s.state.paused
  {
    if !s.hasPlayer || s.current.None? then None
    else if !s.state.paused then Some(PauseCmd)
    else Some(UnpauseCmd)
  }

  /** stop(force): with a player, clears repeat, the queue and `current`; the connection stays
      unless `force`, which resets everything as destroyVoiceConnection does. */
  function Stopped(s: Session, force: bool): (r: Session)
    requires Wf(s)
    ensures Wf(r)
    ensures !s.hasPlayer ==> r == s
    ensures s.hasPlayer ==> r.queue == [] && r.current == None && !r.state.repeat
    ensures s.hasPlayer && !force ==>
      r.connection == s.connection && r.hasPlayer && r.state.connected && r.resource == s.resource
      && r.state.(repeat := s.state.repeat) == s.state
    ensures s.hasPlayer && force ==> r == InitialSession
  {
    if !s.hasPlayer then s
    else if force then InitialSession
    else s.(state := s.state.(repeat := false), queue := [], current := None)
  }

  /** repeat(): toggles the repeat flag, only while there is a player and a current track. */
  function RepeatToggled(s: Session): (r: Session)
    requires Wf(s)
    ensures Wf(r)
    ensures r.(state := s.state) == s
    ensures r.state.(repeat := s.state.repeat) == s.state
    ensures s.hasPlayer && s.current.Some? <==> r.state.repeat != s.state.repeat
  {
    if !s.hasPlayer || s.current.None? then s
    else s.(state := s.state.(repeat := !s.state.repeat))
  }

  /** volume(n): only while a resource exists, sets both its gain and `state.volume` to n. */
  function SetVolume(s: Session, n: int): (r: Session)
    requires Wf(s)
    ensures Wf(r)
    ensures s.resource.None? ==> r == s
    ensures s.resource.Some? ==>
      r.state.volume == n && r.resource == Some(s.resource.value.(volume := n))
      && r.(state := s.state, resource := s.resource) == s && r.state.(volume := s.state.volume) == s.state
  {
    if s.resource.None? then s
    else s.(resource := Some(s.resource.value.(volume := n)), state := s.state.(volume := n))
  }

  // ---- connection methods ----

  /** createVoiceConnection(channel): an existing connection is kept as it is; otherwise the
      session joins the channel, becomes connected and gets a player. */
  function CreateConnection(s: Session, channelId: string): (r: Session)
    requires Wf(s)
    ensures Wf(r)
    ensures s.connection.Some? ==> r == s
    ensures s.connection.None? ==>
      r.connection == Some(Connection(channelId)) && r.state.connected && r.hasPlayer
      && r.state.(connected := false) == s.state && r.queue == s.queue && r.current == s.current
      && r.resource == s.resource
    ensures r.connection.Some?
  {
    if s.connection.Some? then s
    else s.(connection := Some(Connection(channelId)), hasPlayer := true, state := s.state.(connected := true))
  }

  // ---- the player's stateChange handler ----

  /** Status Idle at time `now`: the session is stopped and idle since now. With repeat on,
      `current` is replayed and the queue left alone; otherwise `current` is cleared and play()
      runs if the queue is not empty. */
  function AfterIdle(s: Session, now: int, fetched: Track -> bool): (r: Session)
    requires Wf(s)
    ensures Wf(r)
    ensures r.state.stopped && !r.state.playing && !r.state.paused && r.state.idletime == now
    ensures r.connection == s.connection && r.hasPlayer == s.hasPlayer
    ensures r.state.volume == s.state.volume && r.state.connected == s.state.connected
    ensures r.state.repeat == s.state.repeat
    ensures s.state.repeat ==> r.queue == s.queue && r.current == s.current
    ensures s.state.repeat ==>
      if s.hasPlayer && s.current.Some? && Playable(s.current.value, fetched)
      then r.resource == Some(Resource(s.current.value, s.state.volume))
      else r.resource == s.resource
    ensures !s.state.repeat && (s.queue == [] || !s.hasPlayer) ==>
      r.current == None && r.queue == s.queue && r.resource == s.resource
    ensures !s.state.repeat && s.queue != [] && s.hasPlayer ==>
      var t := s.queue[Attempts(s.queue, fetched) - 1];
      r.current == Some(t) && r.queue == s.queue[Attempts(s.queue, fetched)..]
      && r.resource == if Playable(t, fetched) then Some(Resource(t, s.state.volume)) else s.resource
  {
    var idle := s.(state := s.state.(playing := false, paused := false, stopped := true, idletime := now));
    if s.state.repeat then Replayed(idle, fetched)
    else
      var cleared := idle.(state := idle.state.(repeat := false), current := None);
      if |cleared.queue| > 0 then PlayNext(cleared, fetched) else cleared
  }

  /** Status Playing: the session is playing and not idle (idletime 0). */
  function AfterPlaying(s: Session): (r: Session)
    requires Wf(s)
    ensures Wf(r)
    ensures r.state.playing && !r.state.paused && !r.state.stopped && r.state.idletime == 0
    ensures r.(state := s.state) == s
    ensures r.state.(playing := s.state.playing, paused := s.state.paused, stopped := s.state.stopped,
                     idletime := s.state.idletime) == s.state
  {
    s.(state := s.state.(playing := true, paused := false, stopped := false, idletime := 0))
  }

  /** Status Paused at time `now`: the session is paused and idle since now. */
  function AfterPaused(s: Session, now: int): (r: Session)
    requires Wf(s)
    ensures Wf(r)
    ensures r.state.paused && !r.state.playing && !r.state.stopped && r.state.idletime == now
    ensures r.(state := s.state) == s
    ensures r.state.(playing := s.state.playing, paused := s.state.paused, stopped := s.state.stopped,
                     idletime := s.state.idletime) == s.state
  {
    s.(state := s.state.(playing := false, paused := true, stopped := false, idletime := now))
  }

  /** Pausing twice, each followed by the status the player then reports, brings a playing
      session back to playing with everything else as it was. */
  lemma PauseTwice(s: Session, now: int)
    requires Wf(s) && s.hasPlayer && s.current.Some? && s.state.playing
    ensures PauseRequest(s) == Some(PauseCmd)
    ensures PauseRequest(AfterPaused(s, now)) == Some(UnpauseCmd)
    ensures AfterPlaying(AfterPaused(s, now)) == s
  {
  }

  /** The Idle status that follows stop(false) plays nothing: the session stays connected,
      with no current track and an empty queue. */
  lemma StopThenIdle(s: Session, now: int, fetched: Track -> bool)
    requires Wf(s) && s.hasPlayer
    ensures var r := AfterIdle(Stopped(s, false), now, fetched);
      r.current == None && r.queue == [] && r.state.connected && r.state.stopped
  {
  }

  /** A PlayerManager: the fields the source keeps, updated in place. */
  class PlayerManager {
    var connection: Option<Connection>
    var hasPlayer: bool
    var audioResource: Option<Resource>
    var state: PlayerState
    var current: Option<Track>
    var queue: seq<Track>

    function Snapshot(): Session
      reads this
    {
      Session(connection, hasPlayer, audioResource, state, current, queue)
    }

    predicate Valid()
      reads this
    {
      Wf(Snapshot())
    }

    constructor ()
      ensures Valid() && Snapshot() == InitialSession
    {
      connection := None;
      hasPlayer := false;
      audioResource := None;
      state := InitialState;
      current := None;
      queue := [];
    }

    /** Stops and drops the player, destroys the connection and resets everything to the
        constructor's values, whatever the state was; a second call therefore changes nothing. */
    method DestroyVoiceConnection()
      modifies this
      ensures Valid() && Snapshot() == InitialSession
    {
      if hasPlayer {
        hasPlayer := false;
      }
      if connection.Some? {
        connection := None;
      }
      audioResource := None;
      current := None;
      queue := [];
      state := InitialState;
    }

    method CreateVoiceConnection(channelId: string) returns (c: Connection)
      requires Valid()
      modifies this
      ensures Valid() && Snapshot() == CreateConnection(old(Snapshot()), channelId)
      ensures connection == Some(c)
      ensures old(connection).Some? ==> c == old(connection).value
    {
      if connection.None? {
        connection := Some(Connection(channelId));
        state := state.(connected := true);
        hasPlayer := true;
      }
      c := connection.value;
    }

    method Play(fetched: Track -> bool)
      requires Valid()
      modifies this
      ensures Valid() && Snapshot() == PlayNext(old(Snapshot()), fetched)
      decreases |queue|
    {
      if !hasPlayer {
        return;
      }
      var track := GetNextTrack();
      if track.None? {
        return;
      }
      current := track;
      if Playable(track.value, fetched) {
        audioResource := Some(Resource(track.value, state.volume));
      } else {
        Play(fetched);
      }
    }

    method RepeatPlay(fetched: Track -> bool)
      requires Valid()
      modifies this
      ensures Valid() && Snapshot() == Replayed(old(Snapshot()), fetched)
    {
      if !hasPlayer || current.None? {
        return;
      }
      var track := current.value;
      if Playable(track, fetched) {
        audioResource := Some(Resource(track, state.volume));
      }
    }

    /** Returns what is asked of the audio player; the session itself is not changed. */
    method Pause() returns (c: Option<PlayerCommand>)
      requires Valid()
      ensures c == PauseRequest(Snapshot())
    {
      if !hasPlayer || current.None? {
        return None;
      }
      if !state.paused {
        c := Some(PauseCmd);
      } else {
        c := Some(UnpauseCmd);
      }
    }

    method Stop(force: bool)
      requires Valid()
      modifies this
      ensures Valid() && Snapshot() == Stopped(old(Snapshot()), force)
    {
      if !hasPlayer {
        return;
      }
      state := state.(repeat := false);
      queue := [];
      current := None;
      if force {
        DestroyVoiceConnection();
      }
    }

    method Repeat()
      requires Valid()
      modifies this
      ensures Valid() && Snapshot() == RepeatToggled(old(Snapshot()))
    {
      if !hasPlayer || current.None? {
        return;
      }
      if state.repeat {
        state := state.(repeat := false);
      } else {
        state := state.(repeat := true);
      }
    }

    method Volume(n: int)
      requires Valid()
      modifies this
      ensures Valid() && Snapshot() == SetVolume(old(Snapshot()), n)
    {
      if audioResource.None? {
        return;
      }
      audioResource := Some(audioResource.value.(volume := n));
      state := state.(volume := n);
    }

    method AddTrack(t: Track)
      requires Valid()
      modifies this
      ensures Valid() && Snapshot() == Enqueued(old(Snapshot()), t)
    {
      queue := queue + [t];
    }

    method GetNextTrack() returns (t: Option<Track>)
      requires Valid()
      modifies this
      ensures Valid() && (t, Snapshot()) == NextTrack(old(Snapshot()))
    {
      if queue == [] {
        return None;
      }
      t := Some(queue[0]);
      queue := queue[1..];
    }

    method OnIdle(now: int, fetched: Track -> bool)
      requires Valid()
      modifies this
      ensures Valid() && Snapshot() == AfterIdle(old(Snapshot()), now, fetched)
    {
      state := state.(playing := false, paused := false, stopped := true, idletime := now);
      if state.repeat {
        RepeatPlay(fetched);
        return;
      }
      state := state.(repeat := false);
      current := None;
      if |queue| > 0 {
        Play(fetched);
      }
    }

    method OnPlaying()
      requires Valid()
      modifies this
      ensures Valid() && Snapshot() == AfterPlaying(old(Snapshot()))
    {
      state := state.(playing := true, paused := false, stopped := false, idletime := 0);
    }

    method OnPaused(now: int)
      requires Valid()
      modifies this
      ensures Valid() && Snapshot() == AfterPaused(old(Snapshot()), now)
    {
      state := state.(playing := false, paused := true, stopped := false, idletime := now);
    }
  }

  /** The static `instances` map: at most one PlayerManager per guild id. */
  class Registry {
    var instances: map<string, PlayerManager>

    predicate Valid()
      reads this, instances.Values
    {
      && (forall g :: g in instances ==> instances[g].Valid())
      && (forall g, h :: g in instances && h in instances && g != h ==> instances[g] != instances[h])
    }

    constructor ()
      ensures Valid() && instances == map[]
    {
      instances := map[];
    }

    /** getInstance: creates a manager only for a guild that has none, so every later call
        for that guild returns the same object. */
    method GetInstance(guildId: string) returns (pm: PlayerManager)
      requires Valid()
      modifies this
      ensures Valid()
      ensures guildId in instances && instances[guildId] == pm
      ensures guildId in old(instances) ==> pm == old(instances[guildId]) && instances == old(instances)
      ensures guildId !in old(instances) ==>
        fresh(pm) && pm.Snapshot() == InitialSession && instances == old(instances)[guildId := pm]
    {
      if guildId !in instances {
        var created := new PlayerManager();
        instances := instances[guildId := created];
      }
      pm := instances[guildId];
    }
  }

  /** Two lookups for the same guild give the same manager, and a new guild does not disturb
      the others. */
  method GetInstanceTwice(reg: Registry, guildId: string) returns (a: PlayerManager, b: PlayerManager)
    requires reg.Valid()
    modifies reg
    ensures reg.Valid() && a == b && guildId in reg.instances && reg.instances[guildId] == a
    ensures forall g :: g in old(reg.instances) && g != guildId ==> g in reg.instances && reg.instances[g] == old(reg.instances[g])
  {
    a := reg.GetInstance(guildId);
    b := reg.GetInstance(guildId);
  }
}
