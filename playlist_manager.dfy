/** Stored playlists and the list/manage pages of the playlist command
    (src/classes/PlaylistManager.ts). A Playlist is an object: the manage page edits the
    tracks of the playlist it shows in place, and the stored list holds the same objects. */
module Playlists {
  import opened Common
  import opened Interfaces
  import opened Player
  import Utils

  class Playlist {
    const guildId: string
    const userId: string
    const name: string
    const description: string
    var tracks: seq<Track>

    constructor (guildId: string, userId: string, name: string, description: string)
      ensures this.guildId == guildId && this.userId == userId
      ensures this.name == name && this.description == description && tracks == []
    {
      this.guildId := guildId;
      this.userId := userId;
      this.name := name;
      this.description := description;
      tracks := [];
    }
  }

  // ---- lookups ----

  /** `playlists.find(p => p.name === name && p.guildId === guildId)` as an index, -1 for none. */
  function FindPlaylist(ps: seq<Playlist>, name: string, guildId: string): (i: int)
    ensures -1 <= i < |ps|
    ensures i >= 0 ==> ps[i].name == name && ps[i].guildId == guildId
    ensures forall j :: 0 <= j < |ps| && (i < 0 || j < i) ==> !(ps[j].name == name && ps[j].guildId == guildId)
  {
    if ps == [] then -1
    else if ps[0].name == name && ps[0].guildId == guildId then 0
    else
      var k := FindPlaylist(ps[1..], name, guildId);
      if k < 0 then -1 else k + 1
  }

  /** Whether any stored playlist, in any guild, has the name. */
  function NameTaken(ps: seq<Playlist>, name: string): (r: bool)
    ensures r <==> exists i :: 0 <= i < |ps| && ps[i].name == name
  {
    if ps == [] then false
    else if ps[0].name == name then true
    else
      var r := NameTaken(ps[1..], name);
      assert forall i :: 0 <= i < |ps| - 1 ==> ps[1..][i] == ps[i + 1];
      assert r ==> ps[1 + FindName(ps[1..], name)].name == name;
      r
  }

  /** A witness for NameTaken. */
  function FindName(ps: seq<Playlist>, name: string): (i: nat)
    requires exists i :: 0 <= i < |ps| && ps[i].name == name
    ensures i < |ps| && ps[i].name == name
  {
    if ps[0].name == name then 0
    else
      assert exists i :: 0 <= i < |ps[1..]| && ps[1..][i].name == name by {
        var i :| 0 <= i < |ps| && ps[i].name == name;
        assert ps[1..][i - 1] == ps[i];
      }
      1 + FindName(ps[1..], name)
  }

  function InGuild(guildId: string): Playlist -> bool
  {
    (p: Playlist) => p.guildId == guildId
  }

  function NotThis(target: Playlist): Playlist -> bool
  {
    (p: Playlist) => p != target
  }

  /** `playlists.filter(p => p !== playlist)`: the object goes, everything else stays in order. */
  function Without(ps: seq<Playlist>, target: Playlist): (r: seq<Playlist>)
    ensures forall i :: 0 <= i < |r| ==> r[i] != target && r[i] in ps
    ensures forall i :: 0 <= i < |ps| && ps[i] != target ==> ps[i] in r
  {
    FilterMembers(ps, NotThis(target));
    Filter(ps, NotThis(target))
  }

  /** Removing a playlist stored once takes out exactly its position. */
  lemma WithoutStoredOnce(ps: seq<Playlist>, i: int)
    requires 0 <= i < |ps|
    requires forall j :: 0 <= j < |ps| && j != i ==> ps[j] != ps[i]
    ensures Without(ps, ps[i]) == ps[..i] + ps[i + 1..]
    ensures |Without(ps, ps[i])| == |ps| - 1
  {
    FilterDropsOne(ps, i, NotThis(ps[i]));
  }

  // ---- saving after an edit ----

  function SameName(name: string): Playlist -> bool
  {
    (p: Playlist) => p.name == name
  }

  function OtherName(name: string): Playlist -> bool
  {
    (p: Playlist) => p.name != name
  }

  /** What the manage page stores after adding or removing a track, as written: it keeps only
      the playlists with the edited playlist's name, then appends the edited one again. */
  function SaveAsWritten(ps: seq<Playlist>, current: Playlist): (r: seq<Playlist>)
    ensures forall i :: 0 <= i < |r| ==> r[i].name == current.name
    ensures |r| >= 1 && r[|r| - 1] == current
  {
    Filter(ps, SameName(current.name)) + [current]
  }

  /** Saving playlists [a, b] after editing a stores [a, a]: b is lost and a is doubled. */
  lemma SaveAsWrittenLosesOthers(a: Playlist, b: Playlist)
    requires a.name != b.name
    ensures SaveAsWritten([a, b], a) == [a, a]
  {
    var f := SameName(a.name);
    assert [a, b][1..] == [b];
    FilterSingle(b, f);
    assert Filter([a, b], f) == [a] + Filter([b], f);
  }

  /** The evident intent: replace the stored playlist of that name by the edited one. Playlists
      of other names all stay, in order, and the edited one is stored exactly once, last. */
  function SaveReplacing(ps: seq<Playlist>, current: Playlist): (r: seq<Playlist>)
    ensures |r| >= 1 && r[|r| - 1] == current
    ensures forall i :: 0 <= i < |r| - 1 ==> r[i].name != current.name && r[i] in ps
    ensures forall i :: 0 <= i < |ps| && ps[i].name != current.name ==> ps[i] in r
  {
    FilterMembers(ps, OtherName(current.name));
    Filter(ps, OtherName(current.name)) + [current]
  }

  /** With distinct names, saving the stored playlist ps[i] keeps the same playlists: the
      edited one moves to the end and the list length is unchanged. */
  lemma SaveReplacingKeepsAll(ps: seq<Playlist>, i: int)
    requires 0 <= i < |ps|
    requires forall j, k :: 0 <= j < k < |ps| ==> ps[j].name != ps[k].name
    ensures SaveReplacing(ps, ps[i]) == ps[..i] + ps[i + 1..] + [ps[i]]
    ensures |SaveReplacing(ps, ps[i])| == |ps|
  {
    FilterDropsOne(ps, i, OtherName(ps[i].name));
  }

  // ---- pages ----

  /** The slice a list or manage page shows: `s.slice((page - 1) * k, page * k - 1)`, which
      stops one short of a full page. */
  function PageSlice<T>(s: seq<T>, page: int, k: nat): (r: seq<T>)
    requires k > 0
    ensures |r| <= k - 1
    ensures page >= 1 ==> r == s[Min((page - 1) * k, |s|)..Min(page * k - 1, |s|)]
  {
    PageArith(page, k);
    JsSlice(s, (page - 1) * k, page * k - 1)
  }

  /** Page p starts k items after page p-1 does. */
  lemma PageArith(page: int, k: nat)
    ensures (page - 1) * k == page * k - k
    ensures page >= 1 ==> (page - 1) * k >= 0
  {
  }

  /** Between two consecutive full pages exactly one item is shown on neither: the k-th item
      of page p, at index p*k-1. */
  lemma PageSliceSkipsLast<T>(s: seq<T>, p: int, k: nat)
    requires k > 0 && p >= 1 && p * k <= |s|
    ensures |PageSlice(s, p, k)| == k - 1
    ensures PageSlice(s, p, k) + [s[p * k - 1]] + PageSlice(s, p + 1, k)
      == s[(p - 1) * k..Min((p + 1) * k - 1, |s|)]
  {
    PageArith(p, k);
    PageArith(p + 1, k);
    var a, b, c := (p - 1) * k, p * k - 1, Min((p + 1) * k - 1, |s|);
    assert PageSlice(s, p + 1, k) == s[b + 1..c];
    assert s[a..b] + [s[b]] == s[a..b + 1];
    assert s[a..b + 1] + s[b + 1..c] == s[a..c];
  }

  /** The list and manage pages' page buttons are meant for pages holding more than k
      items, which a page slice never holds, so they are never shown. */
  function ShowsPageButtons<T>(shown: seq<T>, k: nat): bool
  {
    |shown| > k
  }

  lemma PageButtonsNeverShown<T>(s: seq<T>, page: int, k: nat)
    requires k > 0
    ensures !ShowsPageButtons(PageSlice(s, page, k), k)
  {
  }

  /** `prev` on a list or manage page: from page 1 to the last page `max`, else one back. */
  function WrapPrev(page: int, max: int): (r: int)
    ensures page == 1 ==> r == max
    ensures page != 1 ==> r == page - 1
  {
    if page == 1 then max else page - 1
  }

  /** `next`: from the last page `max` to page 1, else one on. */
  function WrapNext(page: int, max: int): (r: int)
    ensures page == max ==> r == 1
    ensures page != max ==> r == page + 1
  {
    if page == max then 1 else page + 1
  }

  /** Between 1 and max, both buttons stay between 1 and max and undo each other. */
  lemma WrapRoundTrip(page: int, max: int)
    requires 1 <= page <= max
    ensures 1 <= WrapPrev(page, max) <= max && 1 <= WrapNext(page, max) <= max
    ensures WrapNext(WrapPrev(page, max), max) == page
    ensures WrapPrev(WrapNext(page, max), max) == page
  {
  }

  /** The manage page counts its pages from the tracks it shows (at most 24), not from the
      playlist: on a manage page with tracks, prev and next both lead from page 1 to page 1. */
  lemma ManagePageStuck(tracks: seq<Track>, page: int)
    requires PageSlice(tracks, page, 25) != []
    ensures CeilDiv(|PageSlice(tracks, page, 25)|, 25) == 1
    ensures WrapPrev(1, CeilDiv(|PageSlice(tracks, page, 25)|, 25)) == 1
    ensures WrapNext(1, CeilDiv(|PageSlice(tracks, page, 25)|, 25)) == 1
  {
  }

  /** The three list-page buttons. */
  datatype ListButton = Prev | Next | Back

  function ListPage(page: int, button: ListButton, count: nat): (r: int)
    ensures button == Back ==> r == 1
    ensures button == Prev ==> r == WrapPrev(page, CeilDiv(count, 10))
    ensures button == Next ==> r == WrapNext(page, CeilDiv(count, 10))
  {
    match button
    case Prev => if page == 1 then CeilDiv(count, 10) else page - 1
    case Next => if page == CeilDiv(count, 10) then 1 else page + 1
    case Back => 1
  }

  /** The playlist the session is handed: its tracks appended in playlist order, then play()
      if the session was stopped. */
  function QueuePlaylist(s: Session, tracks: seq<Track>, fetched: Track -> bool): (r: Session)
    requires Wf(s)
    ensures Wf(r)
    ensures !s.state.stopped ==> r == s.(queue := s.queue + tracks)
    ensures s.state.stopped ==> r == PlayNext(s.(queue := s.queue + tracks), fetched)
  {
    var queued := s.(queue := s.queue + tracks);
    if queued.state.stopped then PlayNext(queued, fetched) else queued
  }

  /** A stopped session with an empty queue starts with the playlist's first playable track and
      keeps the rest queued in playlist order. */
  lemma PlaylistStartsInOrder(s: Session, tracks: seq<Track>, fetched: Track -> bool)
    requires Wf(s) && s.hasPlayer && s.state.stopped && s.queue == [] && tracks != []
    requires Playable(tracks[0], fetched)
    ensures QueuePlaylist(s, tracks, fetched).current == Some(tracks[0])
    ensures QueuePlaylist(s, tracks, fetched).queue == tracks[1..]
  {
    assert s.queue + tracks == tracks;
  }

  datatype CreateOutcome = Created | NameExists
  datatype AccessOutcome = Granted | NoSuchPlaylist | NotPermitted
  datatype PlayOutcome = Playing | PlaylistMissing | PlaylistEmpty | NotJoined(message: string)

  /** A PlaylistManager serves one command interaction: the guild, the user and whether the
      user is an administrator come from it; `playlists` is what was read from the file. */
  class PlaylistManager {
    const guildId: string
    const userId: string
    const isAdmin: bool
    var playlists: seq<Playlist>
    var guildPlaylists: seq<Playlist>
    var currentPlaylists: seq<Playlist>
    var currentPlaylist: Playlist?
    var currentTracks: seq<Track>
    var currentPage: int

    constructor (guildId: string, userId: string, isAdmin: bool, stored: seq<Playlist>)
      ensures this.guildId == guildId && this.userId == userId && this.isAdmin == isAdmin
      ensures playlists == stored && guildPlaylists == Filter(stored, InGuild(guildId))
      ensures currentPlaylists == [] && currentPlaylist == null && currentTracks == [] && currentPage == 1
    {
      this.guildId := guildId;
      this.userId := userId;
      this.isAdmin := isAdmin;
      playlists := stored;
      guildPlaylists := Filter(stored, InGuild(guildId));
      currentPlaylists := [];
      currentPlaylist := null;
      currentTracks := [];
      currentPage := 1;
    }

    /** create: refused when any stored playlist has the name; otherwise one new, empty
        playlist of this guild and user is appended. */
    method Create(name: string, description: string) returns (outcome: CreateOutcome)
      modifies this
      ensures outcome == NameExists <==> exists i :: 0 <= i < |old(playlists)| && old(playlists)[i].name == name
      ensures outcome == NameExists ==> playlists == old(playlists)
      ensures outcome == Created ==>
        |playlists| == |old(playlists)| + 1 && playlists[..|old(playlists)|] == old(playlists)
        && var p := playlists[|old(playlists)|];
           fresh(p) && p.guildId == guildId && p.userId == userId && p.name == name
           && p.description == description && p.tracks == []
      ensures guildPlaylists == old(guildPlaylists) && currentPlaylist == old(currentPlaylist)
      ensures currentPage == old(currentPage)
      ensures currentPlaylists == old(currentPlaylists) && currentTracks == old(currentTracks)
    {
      if NameTaken(playlists, name) {
        return NameExists;
      }
      var data := new Playlist(guildId, userId, name, description);
      playlists := playlists + [data];
      outcome := Created;
    }

    /** The owner-or-administrator check that remove and manage share. */
    function Access(name: string): (r: (AccessOutcome, int))
      reads this
      ensures r.1 == FindPlaylist(playlists, name, guildId)
      ensures r.0 == NoSuchPlaylist <==> r.1 < 0
      ensures r.0 == NotPermitted <==> r.1 >= 0 && playlists[r.1].userId != userId && !isAdmin
      ensures r.0 == Granted ==> r.1 >= 0 && (playlists[r.1].userId == userId || isAdmin)
    {
      var i := FindPlaylist(playlists, name, guildId);
      if i < 0 then (NoSuchPlaylist, i)
      else if playlists[i].userId != userId && !isAdmin then (NotPermitted, i)
      else (Granted, i)
    }

    /** remove: the first playlist of that name in this guild goes, if the user owns it or is
        an administrator; otherwise nothing changes. */
    method Remove(name: string) returns (outcome: AccessOutcome)
      modifies this
      ensures outcome == old(Access(name)).0
      ensures outcome != Granted ==> playlists == old(playlists)
      ensures outcome == Granted ==> playlists == Without(old(playlists), old(playlists)[old(Access(name)).1])
      ensures guildPlaylists == old(guildPlaylists) && currentPage == old(currentPage)
      ensures currentPlaylist == old(currentPlaylist)
      ensures currentPlaylists == old(currentPlaylists) && currentTracks == old(currentTracks)
    {
      var i := FindPlaylist(playlists, name, guildId);
      if i < 0 {
        return NoSuchPlaylist;
      }
      var playlist := playlists[i];
      if playlist.userId != userId {
        if !isAdmin {
          return NotPermitted;
        }
      }
      playlists := Filter(playlists, NotThis(playlist));
      outcome := Granted;
    }

    /** getPlaylistPage: the current page of this guild's playlists; no playlist is open. */
    method ShowPlaylistPage()
      modifies this
      ensures currentPlaylist == null
      ensures currentPlaylists == PageSlice(guildPlaylists, currentPage, 10)
      ensures playlists == old(playlists) && guildPlaylists == old(guildPlaylists)
      ensures currentPage == old(currentPage) && currentTracks == old(currentTracks)
    {
      currentPlaylist := null;
      currentPlaylists := JsSlice(guildPlaylists, (currentPage - 1) * 10, currentPage * 10 - 1);
    }

    /** list: false ("No playlists created yet!") when the guild has none; else the page shows. */
    method List() returns (shown: bool)
      modifies this
      ensures shown <==> Filter(playlists, InGuild(guildId)) != []
      ensures !shown ==> currentPlaylists == [] && currentPage == old(currentPage)
      ensures shown ==> currentPlaylist == null && currentPlaylists == PageSlice(guildPlaylists, currentPage, 10)
      ensures !shown ==> currentPlaylist == old(currentPlaylist)
      ensures currentPage == old(currentPage) && currentTracks == old(currentTracks)
      ensures playlists == old(playlists) && guildPlaylists == old(guildPlaylists)
    {
      currentPlaylists := Filter(playlists, InGuild(guildId));
      if |currentPlaylists| == 0 {
        return false;
      }
      ShowPlaylistPage();
      shown := true;
    }

    /** A list-page button: the page moves, wrapping over ceil(n/10) pages, and is shown. */
    method ListNavigate(button: ListButton)
      modifies this
      ensures currentPage == ListPage(old(currentPage), button, |guildPlaylists|)
      ensures currentPlaylist == null && currentPlaylists == PageSlice(guildPlaylists, currentPage, 10)
      ensures playlists == old(playlists) && guildPlaylists == old(guildPlaylists)
      ensures currentTracks == old(currentTracks)
    {
      if button == Prev {
        if currentPage == 1 {
          currentPage := CeilDiv(|guildPlaylists|, 10);
        } else {
          currentPage := currentPage - 1;
        }
      }
      if button == Next {
        if currentPage == CeilDiv(|guildPlaylists|, 10) {
          currentPage := 1;
        } else {
          currentPage := currentPage + 1;
        }
      }
      if button == Back {
        currentPage := 1;
      }
      ShowPlaylistPage();
    }

    /** Choosing entry `index` of the shown list opens that playlist's first page of tracks;
        an index with no entry changes nothing. */
    method ListSelect(index: int)
      modifies this
      ensures !(0 <= index < |old(currentPlaylists)|) ==>
        currentPlaylists == old(currentPlaylists) && currentPlaylist == old(currentPlaylist)
        && currentPage == old(currentPage) && currentTracks == old(currentTracks)
      ensures 0 <= index < |old(currentPlaylists)| ==>
        currentPlaylist == old(currentPlaylists)[index] && currentPage == 1 && currentPlaylists == []
        && currentTracks == PageSlice(currentPlaylist.tracks, 1, 25)
      ensures playlists == old(playlists) && guildPlaylists == old(guildPlaylists)
    {
      if !(0 <= index < |currentPlaylists|) {
        return;
      }
      var playlist := currentPlaylists[index];
      currentPage := 1;
      currentPlaylist := playlist;
      currentPlaylists := [];
      currentTracks := JsSlice(playlist.tracks, (currentPage - 1) * 25, currentPage * 25 - 1);
    }

    /** getPlaylistManage: the current page of the open playlist's tracks. */
    method ShowManagePage()
      requires currentPlaylist != null
      modifies this
      ensures currentPlaylist == old(currentPlaylist) && currentPage == old(currentPage)
      ensures currentTracks == PageSlice(currentPlaylist.tracks, currentPage, 25)
      ensures playlists == old(playlists) && guildPlaylists == old(guildPlaylists)
      ensures currentPlaylists == old(currentPlaylists)
    {
      currentTracks := JsSlice(currentPlaylist.tracks, (currentPage - 1) * 25, currentPage * 25 - 1);
    }

    /** manage: opens the first playlist of that name in this guild, for its owner or an
        administrator. */
    method Manage(name: string) returns (outcome: AccessOutcome)
      modifies this
      ensures outcome == old(Access(name)).0
      ensures outcome != Granted ==> currentPlaylist == old(currentPlaylist) && currentTracks == old(currentTracks)
      ensures outcome == Granted ==>
        currentPlaylist == old(playlists)[old(Access(name)).1]
        && currentTracks == PageSlice(currentPlaylist.tracks, currentPage, 25)
      ensures playlists == old(playlists) && currentPage == old(currentPage)
      ensures guildPlaylists == old(guildPlaylists) && currentPlaylists == old(currentPlaylists)
    {
      var i := FindPlaylist(playlists, name, guildId);
      if i < 0 {
        return NoSuchPlaylist;
      }
      var playlist := playlists[i];
      if playlist.userId != userId {
        if !isAdmin {
          return NotPermitted;
        }
      }
      currentPlaylist := playlist;
      ShowManagePage();
      outcome := Granted;
    }

    /** The manage page's prev and next: they wrap over ceil(|currentTracks|/25) pages. */
    method ManageNavigate(forward: bool)
      requires currentPlaylist != null
      modifies this
      ensures currentPlaylist == old(currentPlaylist) && playlists == old(playlists)
      ensures currentPage == (if forward then WrapNext else WrapPrev)(old(currentPage), CeilDiv(|old(currentTracks)|, 25))
      ensures currentTracks == PageSlice(currentPlaylist.tracks, currentPage, 25)
      ensures guildPlaylists == old(guildPlaylists) && currentPlaylists == old(currentPlaylists)
    {
      var max := CeilDiv(|currentTracks|, 25);
      if !forward {
        if currentPage == 1 {
          currentPage := max;
        } else {
          currentPage := currentPage - 1;
        }
      } else {
        if currentPage == max {
          currentPage := 1;
        } else {
          currentPage := currentPage + 1;
        }
      }
      ShowManagePage();
    }

    /** The add button: a track resolved from the submitted URL is appended and the page moves
        to the last one; the playlists are then saved whether a track was added or not. */
    method ManageAdd(resolved: Option<Track>)
      requires currentPlaylist != null
      modifies this, currentPlaylist
      ensures currentPlaylist == old(currentPlaylist)
      ensures resolved.None? ==>
        currentPlaylist.tracks == old(currentPlaylist.tracks)
        && currentPage == old(currentPage) && currentTracks == old(currentTracks)
      ensures resolved.Some? ==>
        currentPlaylist.tracks == old(currentPlaylist.tracks) + [resolved.value]
        && currentPage == CeilDiv(|currentPlaylist.tracks|, 25)
        && currentTracks == PageSlice(currentPlaylist.tracks, currentPage, 25)
      ensures playlists == SaveReplacing(old(playlists), currentPlaylist)
      ensures guildPlaylists == old(guildPlaylists) && currentPlaylists == old(currentPlaylists)
    {
      if resolved.Some? {
        currentPlaylist.tracks := currentPlaylist.tracks + [resolved.value];
        currentPage := CeilDiv(|currentPlaylist.tracks|, 25);
        currentTracks := JsSlice(currentPlaylist.tracks, (currentPage - 1) * 25, currentPage * 25 - 1);
      }
      SaveEdited();
    }

    /** Choosing entry `index` of the shown tracks removes every track of the playlist with
        that title. `page > max ? page-- : page` assigns the old value back in both branches,
        so the page never changes. */
    method ManageSelect(index: int)
      requires currentPlaylist != null
      modifies this, currentPlaylist
      ensures currentPlaylist == old(currentPlaylist) && currentPage == old(currentPage)
      ensures !(0 <= index < |old(currentTracks)|) ==>
        currentPlaylist.tracks == old(currentPlaylist.tracks) && currentTracks == old(currentTracks)
        && playlists == old(playlists)
      ensures 0 <= index < |old(currentTracks)| ==>
        currentPlaylist.tracks == Filter(old(currentPlaylist.tracks), OtherTitle(old(currentTracks)[index].title))
        && currentTracks == PageSlice(currentPlaylist.tracks, currentPage, 25)
        && playlists == SaveReplacing(old(playlists), currentPlaylist)
      ensures guildPlaylists == old(guildPlaylists) && currentPlaylists == old(currentPlaylists)
    {
      if !(0 <= index < |currentTracks|) {
        return;
      }
      var track := currentTracks[index];
      var playlist := currentPlaylist;
      playlist.tracks := Filter(playlist.tracks, OtherTitle(track.title));
      var page := currentPage;
      if currentPage > CeilDiv(|playlist.tracks|, 25) {
        page := currentPage;
        currentPage := currentPage - 1;
      }
      currentPage := page;
      ShowManagePage();
      SaveEdited();
    }

    /** The save after an edit, in its corrected form (see SaveAsWritten). */
    method SaveEdited()
      requires currentPlaylist != null
      modifies this
      ensures currentPlaylist == old(currentPlaylist) && currentPage == old(currentPage)
      ensures playlists == SaveReplacing(old(playlists), currentPlaylist)
      ensures currentTracks == old(currentTracks) && currentPlaylists == old(currentPlaylists)
      ensures guildPlaylists == old(guildPlaylists)
    {
      playlists := Filter(playlists, OtherName(currentPlaylist.name)) + [currentPlaylist];
    }

    /** play: the first playlist of that name in this guild is queued on the guild's session
        (looked up as getPlayerManager does), in playlist order, and play() runs if the session
        was stopped. */
    method Play(name: string, reg: Registry, channel: Option<string>, now: int, fetched: Track -> bool)
      returns (outcome: PlayOutcome)
      requires reg.Valid()
      modifies reg, reg.instances.Values
      ensures reg.Valid()
      ensures var i := FindPlaylist(playlists, name, guildId);
        (outcome == PlaylistMissing <==> i < 0)
        && (outcome == PlaylistEmpty <==> i >= 0 && playlists[i].tracks == [])
      ensures outcome == PlaylistMissing || outcome == PlaylistEmpty ==>
        reg.instances == old(reg.instances) && forall g :: g in reg.instances ==> unchanged(reg.instances[g])
      ensures outcome.NotJoined? || outcome == Playing ==>
        var i := FindPlaylist(playlists, name, guildId);
        var before := if guildId in old(reg.instances) then old(reg.instances[guildId].Snapshot()) else InitialSession;
        var (joined, lookup) := Utils.Connect(before, channel, now);
        guildId in reg.instances
        && (outcome == Playing <==> lookup == Utils.Found)
        && (outcome.NotJoined? ==> lookup == Utils.Refused(outcome.message) && reg.instances[guildId].Snapshot() == joined)
        && (outcome == Playing ==> reg.instances[guildId].Snapshot() == QueuePlaylist(joined, playlists[i].tracks, fetched))
      ensures playlists == old(playlists)
      ensures forall g :: g in old(reg.instances) && g != guildId ==>
        g in reg.instances && reg.instances[g] == old(reg.instances[g]) && unchanged(old(reg.instances)[g])
    {
      var i := FindPlaylist(playlists, name, guildId);
      if i < 0 {
        return PlaylistMissing;
      }
      var playlist := playlists[i];
      if |playlist.tracks| == 0 {
        return PlaylistEmpty;
      }
      var lookup := JoinAndStart(reg, guildId, channel, now, playlist.tracks, fetched);
      outcome := if lookup.Refused? then NotJoined(lookup.message) else Playing;
    }
  }

  function OtherTitle(title: string): Track -> bool
  {
    (t: Track) => t.title != title
  }

  /** The guild's session is looked up as getPlayerManager does; when that succeeds, the
      tracks are queued on it. No other guild's session changes. */
  method JoinAndStart(reg: Registry, guildId: string, channel: Option<string>, now: int,
                      tracks: seq<Track>, fetched: Track -> bool)
    returns (lookup: Utils.Lookup)
    requires reg.Valid()
    modifies reg, reg.instances.Values
    ensures reg.Valid() && guildId in reg.instances
    ensures var before := if guildId in old(reg.instances) then old(reg.instances[guildId].Snapshot()) else InitialSession;
      var (joined, l) := Utils.Connect(before, channel, now);
      lookup == l
      && (lookup.Refused? ==> reg.instances[guildId].Snapshot() == joined)
      && (lookup == Utils.Found ==> reg.instances[guildId].Snapshot() == QueuePlaylist(joined, tracks, fetched))
    ensures forall g :: g in old(reg.instances) && g != guildId ==>
      g in reg.instances && reg.instances[g] == old(reg.instances[g]) && unchanged(old(reg.instances)[g])
  {
    var pm;
    pm, lookup := Utils.GetPlayerManager(reg, guildId, channel, now);
    if lookup.Found? {
      StartPlaylist(pm, tracks, fetched);
    }
  }

  /** The tracks are added to the session, which is started if it was stopped. */
  method StartPlaylist(pm: PlayerManager, tracks: seq<Track>, fetched: Track -> bool)
    requires pm.Valid()
    modifies pm
    ensures pm.Valid() && pm.Snapshot() == QueuePlaylist(old(pm.Snapshot()), tracks, fetched)
  {
    EnqueueTracks(pm, tracks);
    if pm.state.stopped {
      pm.Play(fetched);
    }
  }

  /** `playlist.tracks.forEach(track => playerManager.addTrack(track))`. */
  method EnqueueTracks(pm: PlayerManager, tracks: seq<Track>)
    requires pm.Valid()
    modifies pm
    ensures pm.Valid() && pm.Snapshot() == old(pm.Snapshot()).(queue := old(pm.queue) + tracks)
  {
    var j := 0;
    while j < |tracks|
      invariant 0 <= j <= |tracks|
      invariant pm.Valid() && pm.Snapshot() == old(pm.Snapshot()).(queue := old(pm.queue) + tracks[..j])
    {
      assert tracks[..j + 1] == tracks[..j] + [tracks[j]];
      pm.AddTrack(tracks[j]);
      j := j + 1;
    }
    assert tracks[..j] == tracks;
  }
}
