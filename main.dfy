/** `ServiceMediaPlayer`: the UI process. It keeps no playlist of its own:
    it sends commands to the playback service, sets its play/pause button
    locally, and shows what the service reports. Sent messages are appended
    to `outbox`; whether the service is running is a parameter, since it is
    asked of the Android activity manager. */
module MainApp {
  import Py
  import Osc
  import StringLines
  import Mediastore

  /** The playlist label's text in the layout. */
  const InitialPlaylistText := "The Music Playlist is Empty."

  /** Every message names an address the playback service has a handler
      for, and only `/add_playlist` carries arguments. */
  predicate AddressedToService(outbox: seq<Osc.Message>)
  {
    forall i :: 0 <= i < |outbox| ==>
      outbox[i].address in Osc.ServiceAddresses && (outbox[i].address != Osc.AddPlaylist ==> outbox[i].values == [])
  }

  class ServiceMediaPlayer {
    /** The button offers pause (a track is meant to be playing). */
    var showPause: bool
    /** Permissions were granted; set once by `app_start`. */
    var granted: bool
    /** Messages sent to the service, oldest first. */
    var outbox: seq<Osc.Message>
    var title: string
    var artist: string
    var albumArt: Mediastore.Art
    var playlistText: string
    /** Estimated label widths, in characters, for the 24sp and 16sp fonts. */
    const cols24: nat
    const cols16: nat
    /** The text wrapper `multiline_string` uses. */
    const fill: (string, int) -> string

    ghost predicate Valid()
      reads this
    {
      AddressedToService(outbox)
    }

    /** `build` and the state `on_start` sets. */
    constructor (cols24: nat, cols16: nat, fill: (string, int) -> string)
      ensures !showPause && !granted && outbox == []
      ensures title == "" && artist == "" && albumArt == Mediastore.NoAlbumArt
      ensures playlistText == InitialPlaylistText
      ensures this.cols24 == cols24 && this.cols16 == cols16 && this.fill == fill
      ensures Valid()
    {
      showPause := false;
      granted := false;
      outbox := [];
      title := "";
      artist := "";
      albumArt := Mediastore.NoAlbumArt;
      playlistText := InitialPlaylistText;
      this.cols24 := cols24;
      this.cols16 := cols16;
      this.fill := fill;
    }

    /** `set_album_art(texture)`: no texture shows the default image. */
    method SetAlbumArt(texture: Py.Option<Mediastore.Art>)
      modifies this`albumArt
      ensures texture.None? ==> albumArt == Mediastore.NoAlbumArt
      ensures texture.Some? ==> albumArt == texture.value
    {
      albumArt := if texture.Some? then texture.value else Mediastore.NoAlbumArt;
    }

    /** `query_service_state`: ask a running service to report; otherwise
        show the play button and the default image. */
    method QueryServiceState(serviceRunning: bool)
      modifies this`outbox, this`showPause, this`albumArt
      ensures serviceRunning ==> outbox == old(outbox) + [Osc.Message(Osc.ServiceState, [])]
                                 && showPause == old(showPause) && albumArt == old(albumArt)
      ensures !serviceRunning ==> outbox == old(outbox) && !showPause && albumArt == Mediastore.NoAlbumArt
      ensures old(Valid()) ==> Valid()
    {
      if serviceRunning {
        outbox := outbox + [Osc.Message(Osc.ServiceState, [])];
      } else {
        showPause := false;
        SetAlbumArt(Py.None);
      }
    }

    /** `app_start`: permissions granted, then the service is queried. */
    method AppStart(serviceRunning: bool)
      modifies this`granted, this`outbox, this`showPause, this`albumArt
      ensures granted
      ensures serviceRunning ==> outbox == old(outbox) + [Osc.Message(Osc.ServiceState, [])]
                                 && showPause == old(showPause) && albumArt == old(albumArt)
      ensures !serviceRunning ==> outbox == old(outbox) && !showPause && albumArt == Mediastore.NoAlbumArt
      ensures old(Valid()) ==> Valid()
    {
      granted := true;
      QueryServiceState(serviceRunning);
    }

    /** `on_resume`. */
    method OnResume(serviceRunning: bool)
      modifies this`outbox, this`showPause, this`albumArt
      ensures serviceRunning ==> outbox == old(outbox) + [Osc.Message(Osc.ServiceState, [])]
                                 && showPause == old(showPause) && albumArt == old(albumArt)
      ensures !serviceRunning ==> outbox == old(outbox) && !showPause && albumArt == Mediastore.NoAlbumArt
      ensures old(Valid()) ==> Valid()
    {
      QueryServiceState(serviceRunning);
    }

    /** `set_title(text)`; a null title raises in `len` and changes nothing. */
    method SetTitle(text: Py.Option<string>) returns (ok: bool)
      modifies this`title
      ensures ok == text.Some?
      ensures ok ==> title == StringLines.MultilineString(text.value, cols24, 0, fill)
      ensures !ok ==> title == old(title)
    {
      ok := text.Some?;
      if ok {
        title := StringLines.MultilineString(text.value, cols24, 0, fill);
      }
    }

    /** `set_artist(text)`; a null artist raises in `len` and changes nothing. */
    method SetArtist(text: Py.Option<string>) returns (ok: bool)
      modifies this`artist
      ensures ok == text.Some?
      ensures ok ==> artist == StringLines.MultilineString(text.value, cols16, 0, fill)
      ensures !ok ==> artist == old(artist)
    {
      ok := text.Some?;
      if ok {
        artist := StringLines.MultilineString(text.value, cols16, 0, fill);
      }
    }

    /** What showing a reported track does: an empty URI clears the
        display; otherwise the first row's title and artist are wrapped and
        shown (a null one raises and leaves its label as it was), and the
        thumbnail load is scheduled, if any. */
    twostate predicate ShowsTrack(encodedUri: string, rows: seq<Mediastore.InfoRow>,
                                  ok: bool, new thumbnail: Py.Option<Mediastore.ThumbnailRequest>)
      reads this
    {
      if encodedUri == "" then
        ok && thumbnail.None? && title == "" && artist == "" && albumArt == Mediastore.NoAlbumArt
      else
        var info := Mediastore.ListTrackInfo(rows);
        && thumbnail == info.thumbnail
        && albumArt == old(albumArt)
        && (ok <==> info.name.Some? && info.artist.Some?)
        && (if info.name.Some? then title == StringLines.MultilineString(info.name.value, cols24, 0, fill)
            else title == old(title))
        && (if info.artist.Some? then artist == StringLines.MultilineString(info.artist.value, cols16, 0, fill)
            else artist == old(artist))
    }

    /** `track_state(encoded_uri)`: show the reported track. `rows` is what
        the media index returns for the URI; the scheduled thumbnail load,
        if any, is returned. */
    method TrackState(encodedUri: string, rows: seq<Mediastore.InfoRow>)
      returns (ok: bool, thumbnail: Py.Option<Mediastore.ThumbnailRequest>)
      modifies this`title, this`artist, this`albumArt
      ensures ShowsTrack(encodedUri, rows, ok, thumbnail)
    {
      if encodedUri != "" {
        var info := Mediastore.ListTrackInfo(rows);
        var titleOk := SetTitle(info.name);
        var artistOk := SetArtist(info.artist);
        ok := titleOk && artistOk;
        thumbnail := info.thumbnail;
      } else {
        var _ := SetTitle(Py.Some(""));
        var _ := SetArtist(Py.Some(""));
        SetAlbumArt(Py.None);
        ok, thumbnail := true, Py.None;
      }
    }

    /** `update_playlist_info(playlist_state)`. */
    method UpdatePlaylistInfo(playlistState: string)
      modifies this`playlistText
      ensures playlistText == playlistState
    {
      playlistText := playlistState;
    }

    /** What the UI's OSC server does with a message: the bound handler is
        called with the message's arguments; a wrong count raises a
        TypeError before the handler runs; other addresses are dropped. */
    method Receive(msg: Osc.Message, rows: seq<Mediastore.InfoRow>)
      returns (ok: bool, thumbnail: Py.Option<Mediastore.ThumbnailRequest>)
      modifies this`title, this`artist, this`albumArt, this`playlistText
      ensures msg.address in Osc.UiAddresses && |msg.values| != 1 ==> !ok && unchanged(this)
      ensures msg.address !in Osc.UiAddresses ==> ok && unchanged(this)
      ensures msg.address != Osc.TrackState ==> thumbnail.None?
      ensures msg.address == Osc.PlaylistState && |msg.values| == 1 ==>
                && ok && playlistText == msg.values[0]
                && title == old(title) && artist == old(artist) && albumArt == old(albumArt)
      ensures msg.address != Osc.PlaylistState ==> playlistText == old(playlistText)
      ensures msg.address == Osc.TrackState && |msg.values| == 1 ==>
                ShowsTrack(msg.values[0], rows, ok, thumbnail)
    {
      thumbnail := Py.None;
      if msg.address !in Osc.UiAddresses {
        ok := true;
      } else if |msg.values| != 1 {
        ok := false;
      } else if msg.address == Osc.TrackState {
        ok, thumbnail := TrackState(msg.values[0], rows);
      } else {
        UpdatePlaylistInfo(msg.values[0]);
        ok := true;
      }
    }

    /** `add_to_playlist`: with permissions, start the service if it is not
        running and open the picker. */
    method AddToPlaylist(serviceRunning: bool) returns (startService: bool, openPicker: bool)
      ensures openPicker <==> granted
      ensures startService <==> granted && !serviceRunning
      ensures startService ==> openPicker
    {
      openPicker := granted;
      startService := granted && !serviceRunning;
    }

    /** `picker_callback(uri_list)`: one `/add_playlist` with every URI in
        order, or nothing for an empty list. Not gated by `granted`. */
    method PickerCallback(uris: seq<string>)
      modifies this`outbox
      ensures uris == [] ==> outbox == old(outbox)
      ensures uris != [] ==> outbox == old(outbox) + [Osc.Message(Osc.AddPlaylist, uris)]
      ensures old(Valid()) ==> Valid()
    {
      var encodedUris := [];
      for i := 0 to |uris|
        invariant encodedUris == uris[..i]
      {
        encodedUris := encodedUris + [uris[i]];
      }
      assert encodedUris == uris;
      if encodedUris != [] {
        outbox := outbox + [Osc.Message(Osc.AddPlaylist, encodedUris)];
      }
    }

    /** `terminate_service`. */
    method TerminateService()
      modifies this`outbox, this`showPause
      ensures !granted ==> unchanged(this)
      ensures granted ==> outbox == old(outbox) + [Osc.Message(Osc.Terminate, [])] && !showPause
      ensures old(Valid()) ==> Valid()
    {
      if granted {
        outbox := outbox + [Osc.Message(Osc.Terminate, [])];
        showPause := false;
      }
    }

    /** `play_pause`: send the command the button shows and flip it. */
    method PlayPause()
      modifies this`outbox, this`showPause
      ensures !granted ==> unchanged(this)
      ensures granted ==> showPause == !old(showPause)
      ensures granted ==> outbox == old(outbox) + [Osc.Message(if old(showPause) then Osc.Pause else Osc.Play, [])]
      ensures old(Valid()) ==> Valid()
    {
      if granted {
        if showPause {
          outbox := outbox + [Osc.Message(Osc.Pause, [])];
          showPause := false;
        } else {
          outbox := outbox + [Osc.Message(Osc.Play, [])];
          showPause := true;
        }
      }
    }

    /** `skip_next`. */
    method SkipNext()
      modifies this`outbox
      ensures !granted ==> unchanged(this)
      ensures granted ==> outbox == old(outbox) + [Osc.Message(Osc.SkipNext, [])]
      ensures old(Valid()) ==> Valid()
    {
      if granted {
        outbox := outbox + [Osc.Message(Osc.SkipNext, [])];
      }
    }

    /** `skip_previous`. */
    method SkipPrevious()
      modifies this`outbox
      ensures !granted ==> unchanged(this)
      ensures granted ==> outbox == old(outbox) + [Osc.Message(Osc.SkipPrevious, [])]
      ensures old(Valid()) ==> Valid()
    {
      if granted {
        outbox := outbox + [Osc.Message(Osc.SkipPrevious, [])];
      }
    }
  }

  /** Two presses of the play/pause button restore it and send a play and a
      pause, in the order the button offered them. */
  method PlayPauseTwice(ui: ServiceMediaPlayer)
    modifies ui
    ensures ui.showPause == old(ui.showPause)
    ensures ui.granted ==>
              ui.outbox == old(ui.outbox) +
                (if old(ui.showPause) then [Osc.Message(Osc.Pause, []), Osc.Message(Osc.Play, [])]
                 else [Osc.Message(Osc.Play, []), Osc.Message(Osc.Pause, [])])
  {
    ui.PlayPause();
    ui.PlayPause();
  }
}
