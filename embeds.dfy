/** The data behind the bot's embeds (src/utils/embeds.ts): the player embed of a track, the
    queue page and the command overview. The Discord builder objects are left out; an embed is
    the value of the parts these functions set. */
module Embeds {
  import opened Common
  import opened Interfaces
  import Utils

  /** One field of EmbedData; `inline` is None where the source gives no `inline` key. */
  datatype Field = Field(name: string, value: string, inline: Option<bool>)

  /** EmbedData of the player embed. */
  datatype EmbedData = EmbedData(title: string, fields: seq<Field>, color: int, thumbnail: string)

  /** What the queue and overview embeds set on an EmbedBuilder. */
  datatype Embed = Embed(color: int, title: string, description: string, footer: Option<string>)

  const ColorOff := 0xdc0000
  const ColorSingle := 0x7800b4
  const ColorAll := 0x300050
  const ColorPaused := 0x323232
  const ColorInfo := 0x0066ff

  /** U+2009, the thin space the source uses for an empty field. */
  const ThinSpace := "\U{2009}"

  const FieldNames := ["Requested by:", "Channel:", ThinSpace, "Duration:", "Repeat:", "Volume:", "Next:"]

  /** `${user}` of a discord.js User is its mention. */
  function UserMention(id: string): string { "<@" + id + ">" }

  /** `${channel}` of an optional VoiceChannel: its mention, or "undefined" when absent. */
  function ChannelText(channel: Option<string>): string
  {
    if channel.Some? then "<#" + channel.value + ">" else "undefined"
  }

  /** The colour and repeat label of the player embed: repeat-all wins over repeat for both,
      and pause overrides only the colour. */
  function Decoration(state: PlayerState): (r: (int, string))
    ensures state.paused ==> r.0 == ColorPaused
    ensures !state.paused && state.repeatAll ==> r.0 == ColorAll
    ensures !state.paused && !state.repeatAll && state.repeat ==> r.0 == ColorSingle
    ensures !state.paused && !state.repeatAll && !state.repeat ==> r.0 == ColorOff
    ensures state.repeatAll ==> r.1 == "All"
    ensures !state.repeatAll && state.repeat ==> r.1 == "Single"
    ensures !state.repeatAll && !state.repeat ==> r.1 == "Off"
  {
    var (color, repeat) := (ColorOff, "Off");
    var (color, repeat) := if state.repeat then (ColorSingle, "Single") else (color, repeat);
    var (color, repeat) := if state.repeatAll then (ColorAll, "All") else (color, repeat);
    var color := if state.paused then ColorPaused else color;
    (color, repeat)
  }

  /** The seven fields with the given values, named in order, the first six inline. */
  function PlayerFields(values: seq<string>): (f: seq<Field>)
    requires |values| == 7
    ensures |f| == 7
    ensures forall i :: 0 <= i < |f| ==> f[i].name == FieldNames[i] && f[i].value == values[i]
    ensures forall i :: 0 <= i < |f| ==> (f[i].inline == Some(true) <==> i < 6)
    ensures f[6].inline == None
  {
    seq(7, i requires 0 <= i < 7 => Field(FieldNames[i], values[i], if i < 6 then Some(true) else None))
  }

  /** The values of the seven fields, in order. */
  function PlayerValues(track: Track, state: PlayerState, next: Option<Track>): (v: seq<string>)
    ensures |v| == 7
  {
    [ UserMention(track.requester),
      ChannelText(track.voiceChannel),
      ThinSpace,
      Utils.SecondsToTime(track.durationInSec),
      Decoration(state).1,
      IntToString(state.volume),
      if next.Some? then next.value.title else ThinSpace ]
  }

  /** createEmbedDataFromTrack: the title, or "unknown" for an empty one; the seven fields
      (see PlayerEmbedFields); the colour of Decoration; the track's thumbnail. */
  function EmbedDataFromTrack(track: Track, state: PlayerState, next: Option<Track>): (e: EmbedData)
    ensures e.color == Decoration(state).0
    ensures e.title == if track.title != "" then track.title else "unknown"
    ensures e.thumbnail == track.thumbnail
    ensures |e.fields| == 7
  {
    EmbedData(if track.title != "" then track.title else "unknown",
      PlayerFields(PlayerValues(track, state, next)), Decoration(state).0, track.thumbnail)
  }

  /** The player embed's fields: seven, named in a fixed order, the first six inline, holding
      the requester, the voice channel, a thin space, the duration as secondsToTime writes it,
      the repeat label, the volume and the next track's title (a thin space when none). */
  lemma PlayerEmbedFields(track: Track, state: PlayerState, next: Option<Track>)
    ensures var f := EmbedDataFromTrack(track, state, next).fields;
      && |f| == 7
      && (forall i :: 0 <= i < |f| ==> f[i].name == FieldNames[i])
      && (forall i :: 0 <= i < |f| ==> (f[i].inline == Some(true) <==> i < 6))
      && f[6].inline == None
      && f[0].value == UserMention(track.requester)
      && f[1].value == ChannelText(track.voiceChannel)
      && f[2].value == ThinSpace
      && f[3].value == Utils.SecondsToTime(track.durationInSec)
      && f[4].value == Decoration(state).1
      && f[5].value == IntToString(state.volume)
      && f[6].value == if next.Some? then next.value.title else ThinSpace
  {
  }

  /** Pausing changes the colour and nothing else of the player embed; unpaused, the colour
      tells the repeat mode, since the three colours differ. */
  lemma PauseOnlyRecolours(track: Track, state: PlayerState, next: Option<Track>)
    ensures EmbedDataFromTrack(track, state.(paused := true), next)
      == EmbedDataFromTrack(track, state.(paused := false), next).(color := ColorPaused)
    ensures var (color, text) := Decoration(state.(paused := false));
      (color == ColorAll <==> text == "All")
      && (color == ColorSingle <==> text == "Single")
      && (color == ColorOff <==> text == "Off")
  {
  }

  // ---- the queue embed ----

  /** The tracks shown on a queue page: `tracks.slice(page * 10, page * 10 + 10)`. */
  function QueuePage(tracks: seq<Track>, page: int): (r: seq<Track>)
    ensures |r| <= 10
    ensures page >= 0 ==> r == tracks[Min(page * 10, |tracks|)..Min(page * 10 + 10, |tracks|)]
  {
    JsSlice(tracks, page * 10, page * 10 + 10)
  }

  /** The footer's page count: `Math.ceil(tracks.length / 10)`, at least 1. */
  function PageCount(len: nat): (r: nat)
    ensures r >= 1
    ensures r * 10 >= len
    ensures r == 1 || (r - 1) * 10 < len
  {
    var max := CeilDiv(len, 10);
    if max == 0 then 1 else max
  }

  /** Pages 0 to k-1, one after the other. */
  function PagesUpTo(tracks: seq<Track>, k: nat): seq<Track>
  {
    if k == 0 then [] else PagesUpTo(tracks, k - 1) + QueuePage(tracks, k - 1)
  }

  lemma {:induction false} PagesUpToPrefix(tracks: seq<Track>, k: nat)
    ensures PagesUpTo(tracks, k) == tracks[..Min(k * 10, |tracks|)]
  {
    if k > 0 {
      PagesUpToPrefix(tracks, k - 1);
      var a, b := Min((k - 1) * 10, |tracks|), Min(k * 10, |tracks|);
      assert QueuePage(tracks, k - 1) == tracks[a..b];
      assert tracks[..a] + tracks[a..b] == tracks[..b];
    }
  }

  /** The pages the footer counts show every queued track once, in queue order. */
  lemma PagesCoverQueue(tracks: seq<Track>)
    ensures PagesUpTo(tracks, PageCount(|tracks|)) == tracks
  {
    PagesUpToPrefix(tracks, PageCount(|tracks|));
  }

  /** The description's line for the i-th shown track (numbered from 1). */
  function QueueLine(i: nat, t: Track): string
  {
    NatToString(i + 1) + ". " + t.title + "\n"
  }

  function QueueLines(shown: seq<Track>): (r: seq<string>)
    ensures |r| == |shown|
    ensures forall i :: 0 <= i < |shown| ==> r[i] == QueueLine(i, shown[i])
  {
    seq(|shown|, i requires 0 <= i < |shown| => QueueLine(i, shown[i]))
  }

  /** One more track shown adds its line to the description. */
  lemma QueueLinesStep(head: string, shown: seq<Track>, i: int)
    requires 0 <= i < |shown|
    ensures head + Join(QueueLines(shown)[..i + 1]) == head + Join(QueueLines(shown)[..i]) + QueueLine(i, shown[i])
  {
    JoinSnoc(QueueLines(shown)[..i], QueueLine(i, shown[i]));
    assert QueueLines(shown)[..i + 1] == QueueLines(shown)[..i] + [QueueLine(i, shown[i])];
  }

  /** The first line of the queue embed's description, and an empty line. */
  function QueueHeader(current: Track): string
  {
    "Currently playing: " + current.title + "\n\n"
  }

  /** The queue embed's footer: `Page {page} of {count}`. */
  function QueueFooter(page: int, count: nat): string
  {
    "Page " + IntToString(page) + " of " + NatToString(count)
  }

  /** createQueueEmbed. A missing page is page 0. */
  method CreateQueueEmbed(current: Track, tracks: seq<Track>, page: Option<int>) returns (e: Embed)
    ensures e.color == ColorInfo && e.title == "Queue"
    ensures var p := if page.Some? then page.value else 0;
      e.description == QueueHeader(current) + Join(QueueLines(QueuePage(tracks, p)))
      && e.footer == Some(QueueFooter(p + 1, PageCount(|tracks|)))
  {
    var p := if page.Some? then page.value else 0;
    var queue := JsSlice(tracks, p * 10, p * 10 + 10);
    var description := AppendQueueLines(QueueHeader(current), queue);
    var max := CeilDiv(|tracks|, 10);
    if max == 0 {
      max := 1;
    }
    e := Embed(ColorInfo, "Queue", description, Some(QueueFooter(p + 1, max)));
  }

  /** The loop of createQueueEmbed: one numbered line per shown track, appended in order. */
  method AppendQueueLines(head: string, queue: seq<Track>) returns (description: string)
    ensures description == head + Join(QueueLines(queue))
  {
    description := head;
    var i := 0;
    while i < |queue|
      invariant 0 <= i <= |queue|
      invariant description == head + Join(QueueLines(queue)[..i])
    {
      QueueLinesStep(head, queue, i);
      description := description + QueueLine(i, queue[i]);
      i := i + 1;
    }
    assert QueueLines(queue)[..i] == QueueLines(queue);
  }

  // ---- the command overview ----

  function CommandLines(commands: seq<CommandHelp>): (r: seq<string>)
    ensures |r| == |commands|
    ensures forall i :: 0 <= i < |commands| ==> r[i] == "/" + commands[i].name + "\n"
  {
    seq(|commands|, i requires 0 <= i < |commands| => "/" + commands[i].name + "\n")
  }

  /** createCommandOverviewEmbed: a header line, then one `/name` line per command. */
  method CreateCommandOverviewEmbed(commands: seq<CommandHelp>) returns (e: Embed)
    ensures e == Embed(ColorInfo, "Command Overview", "Music Player\n" + Join(CommandLines(commands)), None)
  {
    var description := "Music Player\n";
    var i := 0;
    while i < |commands|
      invariant 0 <= i <= |commands|
      invariant description == "Music Player\n" + Join(CommandLines(commands)[..i])
    {
      JoinSnoc(CommandLines(commands)[..i], "/" + commands[i].name + "\n");
      assert CommandLines(commands)[..i + 1] == CommandLines(commands)[..i] + ["/" + commands[i].name + "\n"];
      description := description + ("/" + commands[i].name + "\n");
      i := i + 1;
    }
    assert CommandLines(commands)[..i] == CommandLines(commands);
    e := Embed(ColorInfo, "Command Overview", description, None);
  }

  /** The overview lists the commands in their input order: the overview of a + b is that of a
      followed by the lines of b. */
  lemma OverviewInOrder(a: seq<CommandHelp>, b: seq<CommandHelp>)
    ensures "Music Player\n" + Join(CommandLines(a + b))
      == "Music Player\n" + Join(CommandLines(a)) + Join(CommandLines(b))
  {
    assert CommandLines(a + b) == CommandLines(a) + CommandLines(b);
    JoinAppend(CommandLines(a), CommandLines(b));
  }
}
