/** How the two processes fit together: what the UI sends names a handler
    of the service, what the service broadcasts names a handler of the UI
    with the one argument it takes, and a picker selection ends up at the
    end of the service's playlist. */
module Flows {
  import Py
  import Osc
  import Picker
  import MainApp
  import PlayerService
  import Backend
  import Mediastore

  /** Every state report the service sends reaches a UI handler with the
      single argument it takes. */
  lemma BroadcastReachesUi(playlist: seq<string>, nowPlaying: int)
    requires PlayerService.CanReport(playlist, nowPlaying)
    ensures var r := PlayerService.Broadcast(playlist, nowPlaying);
            forall k :: 0 <= k < |r| ==>
              r[k].Send? && r[k].msg.address in Osc.UiAddresses && |r[k].msg.values| == 1
  {
    var r := PlayerService.Broadcast(playlist, nowPlaying);
    assert |r| == 2;
  }

  /** Whatever the UI has sent, as long as its invariant holds, reaches a
      handler of the service and is not rejected for its arguments: the
      messages without arguments go to the handlers declared without
      parameters. */
  lemma UiMessagesAreServed(ui: MainApp.ServiceMediaPlayer)
    requires ui.Valid()
    ensures forall i :: 0 <= i < |ui.outbox| ==>
              var msg := ui.outbox[i];
              msg.address in Osc.ServiceAddresses
              && !(msg.address in PlayerService.NoArgumentAddresses && msg.values != [])
  {
    forall i | 0 <= i < |ui.outbox|
      ensures ui.outbox[i].address !in PlayerService.NoArgumentAddresses || ui.outbox[i].values == []
    {
      assert Osc.AddPlaylist !in PlayerService.NoArgumentAddresses;
    }
  }

  /** Dismissing the picker, the UI forwarding its URIs and the service
      handling the message: the picked tracks are appended to the playlist
      in picking order. */
  method PickerToPlaylist(picker: Picker.MusicPicker, ui: MainApp.ServiceMediaPlayer,
                          player: PlayerService.Player)
    requires player.Running()
    modifies ui, player
    ensures |player.playlist| == |old(player.playlist)| + |picker.tempTrackList|
    ensures player.playlist[..|old(player.playlist)|] == old(player.playlist)
    ensures forall i :: 0 <= i < |picker.tempTrackList| ==>
              player.playlist[|old(player.playlist)| + i] == Mediastore.IdToUri(picker.tempTrackList[i])
    ensures player.Running()
  {
    ghost var before := player.playlist;
    var uris := picker.OnPreDismiss();
    ui.PickerCallback(uris);
    if uris != [] {
      var msg := ui.outbox[|ui.outbox| - 1];
      assert msg == Osc.Message(Osc.AddPlaylist, uris);
      Osc.ServiceAddressesDistinct();
      assert msg.address in Osc.ServiceAddresses && msg.address !in PlayerService.NoArgumentAddresses;
      assert msg != PlayerService.TerminateMessage;
      var _ := player.Dispatch(msg);
      assert player.playlist == before + msg.values;
    } else {
      assert before + uris == before;
    }
    assert player.playlist == before + uris;
    forall i | 0 <= i < |uris|
      ensures player.playlist[|before| + i] == Mediastore.IdToUri(picker.tempTrackList[i])
    {
      assert player.playlist[|before| + i] == uris[i];
    }
  }

  /** The reports of a two-track playlist, at its first and second track. */
  lemma TwoTrackReports(first: string, second: string)
    ensures PlayerService.Broadcast([first, second], 0)
            == [PlayerService.TrackMessage(first), PlayerService.StatusMessage("Track 1 of 2 in the Playlist.")]
    ensures PlayerService.Broadcast([first, second], 1)
            == [PlayerService.TrackMessage(second), PlayerService.StatusMessage("Track 2 of 2 in the Playlist.")]
  {
    TwoTrackTexts();
  }

  lemma TwoTrackTexts()
    ensures PlayerService.PlaylistText(0, 2) == "Track 1 of 2 in the Playlist."
    ensures PlayerService.PlaylistText(1, 2) == "Track 2 of 2 in the Playlist."
  {
    SmallNumerals();
  }

  lemma SmallNumerals()
    ensures Py.IntToString(1) == "1" && Py.IntToString(2) == "2"
  {
    assert Py.NatToString(1) == [Py.DigitChar(1)];
    assert Py.NatToString(2) == [Py.DigitChar(2)];
  }

  /** A session as the service sees it: two tracks added, play, then two
      skips; the second skip wraps round to the first track. */
  method AddPlaySkipSkip(first: string, second: string)
    returns (log: seq<PlayerService.Effect>, cursor: int)
    ensures cursor == 0
    ensures var p := [first, second];
            log == [PlayerService.Call(Backend.InitPlayer)]
                   + PlayerService.Broadcast(p, 0) + [PlayerService.Call(Backend.StartTrack(first))]
                   + [PlayerService.Call(Backend.StopTrack)]
                   + PlayerService.Broadcast(p, 1) + [PlayerService.Call(Backend.StartTrack(second))]
                   + [PlayerService.Call(Backend.StopTrack)]
                   + PlayerService.Broadcast(p, 0) + [PlayerService.Call(Backend.StartTrack(first))]
  {
    var p := [first, second];
    var player := new PlayerService.Player();
    ghost var e0 := player.effects;
    var _ := player.AddPlaylist(p);
    assert player.playlist == p && player.nowPlaying == 0 && !player.paused;
    ghost var e1 := e0 + PlayerService.Broadcast(p, 0);
    assert player.effects == e1;
    assert PlayerService.StartEffects(p, 0) == [PlayerService.Call(Backend.StartTrack(first))];
    assert PlayerService.StartEffects(p, 1) == [PlayerService.Call(Backend.StartTrack(second))];
    var _ := player.Play();
    ghost var e2 := e1 + [PlayerService.Call(Backend.StartTrack(first))];
    assert player.effects == e2;
    var _ := player.SkipNext();
    assert player.nowPlaying == 1 && player.playlist == p && !player.paused;
    ghost var e3 := e2 + [PlayerService.Call(Backend.StopTrack)]
                    + PlayerService.Broadcast(p, 1) + [PlayerService.Call(Backend.StartTrack(second))];
    assert player.effects == e3;
    var _ := player.SkipNext();
    assert player.nowPlaying == 0 && player.playlist == p && !player.paused;
    assert player.effects == e3 + [PlayerService.Call(Backend.StopTrack)]
                    + PlayerService.Broadcast(p, 0) + [PlayerService.Call(Backend.StartTrack(first))];
    log, cursor := player.effects, player.nowPlaying;
  }
}
