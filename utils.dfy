/** The decision logic of src/utils/utils.ts: the session lookup policy of getPlayerManager,
    the music-channel list updates done after the config file is read, secondsToTime and the
    dispatch order of checkURL. */
module Utils {
  import opened Common
  import opened Interfaces
  import opened Player

  // ---- getPlayerManager ----

  /** What getPlayerManager hands back besides the manager: success, or the message the
      member is shown. */
  datatype Lookup = Found | Refused(message: string)

  const NotInVoice := "You must be in a voice channel."
  const OtherChannel := "Currently playing in a different voice channel."

  /** Ten minutes, in milliseconds. */
  const IdleLimit := 600000

  /** What getPlayerManager does to the guild's session once getInstance has returned it.
      `channel` is the member's voice channel id (None when the member is in none) and `now`
      is Date.now(). */
  function Connect(s: Session, channel: Option<string>, now: int): (r: (Session, Lookup))
    requires Wf(s)
    ensures Wf(r.0)
    ensures channel.None? ==> r == (s, Refused(NotInVoice))
    ensures channel.Some? && s.connection == Some(Connection(channel.value)) ==> r == (s, Found)
    ensures channel.Some? && s.connection.None? ==> r == (CreateConnection(s, channel.value), Found)
    ensures channel.Some? && s.connection.Some? && s.connection.value.channelId != channel.value ==>
      if now - s.state.idletime > IdleLimit
      then r == (CreateConnection(InitialSession, channel.value), Found)
      else r == (s, Refused(OtherChannel))
    ensures channel.Some? ==> (r.1 == Found <==> r.0.connection == Some(Connection(channel.value)))
  {
    if channel.None? then (s, Refused(NotInVoice))
    else
      var joined := CreateConnection(s, channel.value);
      if joined.connection.value.channelId != channel.value then
        if now - joined.state.idletime > IdleLimit then
          (CreateConnection(InitialSession, channel.value), Found)
        else (joined, Refused(OtherChannel))
      else (joined, Found)
  }

  /** A playing session has idletime 0, so the ten-minute test passes against any present
      clock: a member in another channel takes the bot over and the queue is dropped. */
  lemma ReclaimWhilePlaying(s: Session, channel: string, now: int)
    requires Wf(s) && s.state.playing
    requires s.connection.Some? && s.connection.value.channelId != channel
    requires now > IdleLimit
    ensures Connect(s, Some(channel), now).1 == Found
    ensures Connect(s, Some(channel), now).0.queue == []
    ensures Connect(s, Some(channel), now).0.current == None
  {
  }

  /** getPlayerManager: the guild's manager is fetched (or created) first, even for a member in
      no voice channel; then the policy of Connect is applied to it. No other guild's manager
      changes. */
  method GetPlayerManager(reg: Registry, guildId: string, channel: Option<string>, now: int)
    returns (pm: PlayerManager, res: Lookup)
    requires reg.Valid()
    modifies reg, reg.instances.Values
    ensures reg.Valid()
    ensures guildId in reg.instances && reg.instances[guildId] == pm
    ensures guildId in old(reg.instances) ==> pm == old(reg.instances[guildId])
    ensures guildId !in old(reg.instances) ==> fresh(pm)
    ensures reg.instances == old(reg.instances)[guildId := pm]
    ensures (pm.Snapshot(), res) == Connect(
      if guildId in old(reg.instances) then old(reg.instances[guildId].Snapshot()) else InitialSession,
      channel, now)
    ensures forall g :: g in old(reg.instances) && g != guildId ==> unchanged(old(reg.instances)[g])
  {
    pm := reg.GetInstance(guildId);
    if channel.None? {
      return pm, Refused(NotInVoice);
    }
    var connection := pm.CreateVoiceConnection(channel.value);
    if connection.channelId != channel.value {
      if now - pm.state.idletime > IdleLimit {
        pm.DestroyVoiceConnection();
        var _ := pm.CreateVoiceConnection(channel.value);
        return pm, Found;
      }
      return pm, Refused(OtherChannel);
    }
    res := Found;
  }

  // ---- the music-channel list ----

  /** The entry a fresh config holds, and the one removal falls back to. */
  const Placeholder := MusicChannelData("0", "0", "0")

  /** `findIndex` by guild id: the first matching index, or -1. */
  function FindGuild(channels: seq<MusicChannelData>, guildId: string): (i: int)
    ensures -1 <= i < |channels|
    ensures i >= 0 ==> channels[i].guildId == guildId
    ensures forall j :: 0 <= j < |channels| && (i < 0 || j < i) ==> channels[j].guildId != guildId
  {
    if channels == [] then -1
    else if channels[0].guildId == guildId then 0
    else
      var k := FindGuild(channels[1..], guildId);
      if k < 0 then -1 else k + 1
  }

  /** The list updateMusicChannelConfig produces from a non-empty list (an empty one makes
      `music_channels[0].guildId` throw). A placeholder first entry is overwritten; with
      `replace` (the source's `old`) the first entry of the guild is overwritten, and when
      there is none, `music_channels[-1] = data` adds no element; otherwise data is appended. */
  function UpdatedChannels(channels: seq<MusicChannelData>, data: MusicChannelData, replace: bool)
    : (r: seq<MusicChannelData>)
    requires |channels| > 0
    ensures channels[0].guildId == "0" ==> |r| == |channels| && r[0] == data && r[1..] == channels[1..]
    ensures channels[0].guildId != "0" && !replace ==> r == channels + [data]
    ensures channels[0].guildId != "0" && replace ==>
      |r| == |channels|
      && (forall j :: 0 <= j < |r| && r[j] != channels[j] ==> channels[j].guildId == data.guildId && r[j] == data)
      && (forall j :: 0 <= j < |r| && channels[j].guildId == data.guildId ==> (r[j] == data || exists k :: 0 <= k < j && channels[k].guildId == data.guildId))
      && (forall j :: 0 <= j < |r| && r[j] != channels[j] ==> j == FindGuild(channels, data.guildId))
  {
    if channels[0].guildId == "0" then channels[0 := data]
    else if replace then
      var i := FindGuild(channels, data.guildId);
      if i < 0 then channels else channels[i := data]
    else channels + [data]
  }

  /** After an update, the list holds the new entry, unless `replace` found no entry of the
      guild behind a real first entry. */
  lemma UpdateStoresEntry(channels: seq<MusicChannelData>, data: MusicChannelData, replace: bool)
    requires |channels| > 0
    requires channels[0].guildId == "0" || !replace || FindGuild(channels, data.guildId) >= 0
    ensures data in UpdatedChannels(channels, data, replace)
  {
    var r := UpdatedChannels(channels, data, replace);
    if channels[0].guildId == "0" {
      assert r[0] == data;
    } else if !replace {
      assert r[|channels|] == data;
    } else {
      assert r[FindGuild(channels, data.guildId)] == data;
    }
  }

  function OtherGuild(guildId: string): MusicChannelData -> bool
  {
    (c: MusicChannelData) => c.guildId != guildId
  }

  /** The list removeMusicChannelConfig produces: with more than one entry, every entry of the
      guild goes and the others stay in their order; otherwise only the placeholder is left. */
  function RemovedChannels(channels: seq<MusicChannelData>, guildId: string): (r: seq<MusicChannelData>)
    ensures |channels| <= 1 ==> r == [Placeholder]
    ensures |channels| > 1 ==> r == Filter(channels, OtherGuild(guildId))
    ensures forall i :: 0 <= i < |r| && |channels| > 1 ==> r[i].guildId != guildId && r[i] in channels
    ensures forall i :: 0 <= i < |channels| && |channels| > 1 && channels[i].guildId != guildId ==> channels[i] in r
  {
    if |channels| > 1 then
      FilterMembers(channels, OtherGuild(guildId));
      Filter(channels, OtherGuild(guildId))
    else [Placeholder]
  }

  /** The list is left non-empty whenever some entry belongs to another guild. */
  lemma RemoveLeavesOthers(channels: seq<MusicChannelData>, guildId: string, i: int)
    requires 0 <= i < |channels| && channels[i].guildId != guildId
    ensures RemovedChannels(channels, guildId) != []
  {
    if |channels| > 1 {
      assert channels[i] in RemovedChannels(channels, guildId);
    }
  }

  /** ...but two entries that both belong to the removed guild leave no entry at all, not even
      the placeholder. */
  lemma RemoveCanEmpty(a: MusicChannelData, b: MusicChannelData)
    requires a.guildId == b.guildId
    ensures RemovedChannels([a, b], a.guildId) == []
  {
    var f := OtherGuild(a.guildId);
    assert [a, b][1..] == [b];
    assert Filter([b], f) == [] by {
      assert [b][1..] == [];
    }
  }

  /** The parsed config file, whose lists the callers update in place before writing it back. */
  class Config {
    var musicChannels: seq<MusicChannelData>
    var guildTokens: seq<GuildToken>

    constructor (musicChannels: seq<MusicChannelData>, guildTokens: seq<GuildToken>)
      ensures this.musicChannels == musicChannels && this.guildTokens == guildTokens
    {
      this.musicChannels := musicChannels;
      this.guildTokens := guildTokens;
    }

    /** updateMusicChannelConfig; returns false where the source throws (an empty list). */
    method UpdateMusicChannel(data: MusicChannelData, replace: bool) returns (done: bool)
      modifies this
      ensures done <==> old(musicChannels) != []
      ensures done ==> musicChannels == UpdatedChannels(old(musicChannels), data, replace)
      ensures !done ==> musicChannels == old(musicChannels)
      ensures guildTokens == old(guildTokens)
    {
      if musicChannels == [] {
        return false;
      }
      if musicChannels[0].guildId == "0" {
        musicChannels := musicChannels[0 := data];
      } else if replace {
        var index := FindGuild(musicChannels, data.guildId);
        if index >= 0 {
          musicChannels := musicChannels[index := data];
        }
      } else {
        musicChannels := musicChannels + [data];
      }
      done := true;
    }

    /** removeMusicChannelConfig. */
    method RemoveMusicChannel(guildId: string)
      modifies this
      ensures musicChannels == RemovedChannels(old(musicChannels), guildId)
      ensures guildTokens == old(guildTokens)
    {
      if |musicChannels| > 1 {
        musicChannels := Filter(musicChannels, OtherGuild(guildId));
      } else {
        musicChannels := [Placeholder];
      }
    }
  }

  // ---- secondsToTime ----

  /** Two zero-padded digits. */
  function Pad2(n: nat): (r: string)
    requires n < 100
    ensures |r| == 2 && IsDigit(r[0]) && IsDigit(r[1])
  {
    [DigitChar(n / 10), DigitChar(n % 10)]
  }

  function Read2(r: string): nat
    requires |r| == 2 && IsDigit(r[0]) && IsDigit(r[1])
  {
    (r[0] as int - 48) * 10 + (r[1] as int - 48)
  }

  /** Colons exactly at every third place from the end, digits elsewhere. */
  predicate TimeShape(r: string)
  {
    && (forall i :: 0 <= i < |r| ==> (r[i] == ':' <==> (|r| - i) % 3 == 0))
    && (forall i :: 0 <= i < |r| && (|r| - i) % 3 != 0 ==> IsDigit(r[i]))
  }

  /** `hh:mm:ss` from its three parts. */
  function Clock(h: nat, m: nat, s: nat): (r: string)
    requires h < 100 && m < 100 && s < 100
    ensures |r| == 8 && TimeShape(r) && TimeShape(r[3..])
    ensures r[..2] == Pad2(h) && r[3..5] == Pad2(m) && r[6..] == Pad2(s)
  {
    var r := Pad2(h) + ":" + Pad2(m) + ":" + Pad2(s);
    assert forall i :: 0 <= i < 5 ==> r[3..][i] == r[i + 3];
    r
  }

  /** A time of day splits into hours, minutes and seconds. */
  lemma DayParts(t: nat)
    requires t < 86400
    ensures t / 3600 < 24 && t % 3600 / 60 < 60 && t % 60 < 60
    ensures t == t / 3600 * 3600 + t % 3600 / 60 * 60 + t % 60
  {
  }

  /** secondsToTime for whole seconds: characters 11 to 18 of the ISO text of the epoch plus
      s seconds, i.e. `hh:mm:ss` of the time of day, without a leading "00:". */
  function SecondsToTime(seconds: nat): (r: string)
    ensures |r| == 5 || |r| == 8
    ensures |r| == 5 <==> seconds % 86400 < 3600
    ensures TimeShape(r)
    ensures Read2(r[|r| - 5..|r| - 3]) < 60 && Read2(r[|r| - 2..]) < 60
    ensures |r| == 8 ==> 0 < Read2(r[..2]) < 24
  {
    var t := seconds % 86400;
    DayParts(t);
    var h := t / 3600;
    var time := Clock(h, t % 3600 / 60, t % 60);
    assert time[..3] == "00:" <==> h == 0 by {
      assert time[0] == DigitChar(h / 10) && time[1] == DigitChar(h % 10);
    }
    if time[..3] == "00:" then time[3..] else time
  }

  /** Reads a text of the form SecondsToTime gives back as seconds. */
  function ParseTime(r: string): int
    requires (|r| == 5 || |r| == 8) && TimeShape(r)
  {
    var n := |r|;
    var tail := Read2(r[n - 5..n - 3]) * 60 + Read2(r[n - 2..]);
    if n == 5 then tail else Read2(r[..2]) * 3600 + tail
  }

  /** The text determines the time of day: SecondsToTime loses only whole days. */
  lemma TimeRoundTrip(seconds: nat)
    ensures ParseTime(SecondsToTime(seconds)) == seconds % 86400
  {
    var t := seconds % 86400;
    DayParts(t);
    var h, m, s := t / 3600, t % 3600 / 60, t % 60;
    var time := Clock(h, m, s);
    ClockRead(h, m, s);
    if h == 0 {
      assert SecondsToTime(seconds) == time[3..];
    } else {
      assert time[0] != '0' || time[1] != '0';
      assert SecondsToTime(seconds) == time;
    }
  }

  /** ParseTime reads the three parts of Clock back, and the last two from its mm:ss tail. */
  lemma ClockRead(h: nat, m: nat, s: nat)
    requires h < 100 && m < 100 && s < 100
    ensures ParseTime(Clock(h, m, s)) == h * 3600 + m * 60 + s
    ensures ParseTime(Clock(h, m, s)[3..]) == m * 60 + s
  {
    var time := Clock(h, m, s);
    Pad2Read(h);
    Pad2Read(m);
    Pad2Read(s);
    var tail := time[3..];
    assert tail[..2] == Pad2(m) && tail[3..] == Pad2(s);
  }

  lemma Pad2Read(n: nat)
    requires n < 100
    ensures Read2(Pad2(n)) == n
  {
  }

  // ---- checkURL ----

  /** The strings checkURL returns. */
  datatype UrlKind = Search | YoutubePlaylist | Youtube | SpotifyLink | SoundcloudLink | MediaFile | NotResolvable

  /** The regular-expression tests and the HEAD request checkURL makes, as given predicates. */
  datatype UrlTests = UrlTests(
    isUrl: string -> bool,
    isYoutube: string -> bool,
    isSpotify: string -> bool,
    isSoundcloud: string -> bool,
    isPlayableFile: string -> bool)

  /** checkURL: the first test that holds decides, in the order non-URL, YouTube (a playlist
      when `list=` occurs), Spotify, SoundCloud, playable media file. */
  function CheckUrl(url: string, t: UrlTests): (k: UrlKind)
    ensures k == Search <==> !t.isUrl(url)
    ensures k == YoutubePlaylist <==> t.isUrl(url) && t.isYoutube(url) && HasInfix(url, "list=")
    ensures k == Youtube <==> t.isUrl(url) && t.isYoutube(url) && !HasInfix(url, "list=")
    ensures k == SpotifyLink <==> t.isUrl(url) && !t.isYoutube(url) && t.isSpotify(url)
    ensures k == SoundcloudLink <==>
      t.isUrl(url) && !t.isYoutube(url) && !t.isSpotify(url) && t.isSoundcloud(url)
    ensures k == MediaFile <==>
      t.isUrl(url) && !t.isYoutube(url) && !t.isSpotify(url) && !t.isSoundcloud(url) && t.isPlayableFile(url)
    ensures k == NotResolvable <==>
      t.isUrl(url) && !t.isYoutube(url) && !t.isSpotify(url) && !t.isSoundcloud(url) && !t.isPlayableFile(url)
  {
    if !t.isUrl(url) then Search
    else if t.isYoutube(url) then (if HasInfix(url, "list=") then YoutubePlaylist else Youtube)
    else if t.isSpotify(url) then SpotifyLink
    else if t.isSoundcloud(url) then SoundcloudLink
    else if t.isPlayableFile(url) then MediaFile
    else NotResolvable
  }
}
