/** The records the bot passes around (src/interfaces.ts), as values. */
module Interfaces {
  import opened Common

  /** The `type` of a MediaTrack. */
  datatype MediaType = YouTube | SoundCloud | Spotify | Media

  /** A MediaTrack. The requesting user and the voice channel are kept by their ids;
      the duration is whole seconds. */
  datatype Track = Track(
    requester: string,
    voiceChannel: Option<string>,
    title: string,
    url: string,
    kind: MediaType,
    durationInSec: nat,
    thumbnail: string)

  /** PlayerState. `repeatAll` is declared by the interface but PlayerManager never
      initialises or sets it, so it reads as `undefined`, i.e. false. */
  datatype PlayerState = PlayerState(
    connected: bool,
    playing: bool,
    paused: bool,
    stopped: bool,
    repeat: bool,
    repeatAll: bool,
    volume: int,
    idletime: int)

  /** The state a new PlayerManager starts in, and the state destroyVoiceConnection restores. */
  const InitialState := PlayerState(
    connected := false, playing := false, paused := false, stopped := true,
    repeat := false, repeatAll := false, volume := 50, idletime := 0)

  /** Exactly one of the three phase flags is set. */
  predicate OnePhase(s: PlayerState)
  {
    (s.playing && !s.paused && !s.stopped) ||
    (!s.playing && s.paused && !s.stopped) ||
    (!s.playing && !s.paused && s.stopped)
  }

  /** MusicChannelData: the text channel and message that host a guild's player embed. */
  datatype MusicChannelData = MusicChannelData(guildId: string, channelId: string, messageId: string)

  /** GuildToken: the token a socket client of a guild must present. */
  datatype GuildToken = GuildToken(guildId: string, token: string)

  /** CommandHelp, the `help` part of a command. */
  datatype CommandHelp = CommandHelp(name: string, description: string, arguments: string, usage: string)
}
