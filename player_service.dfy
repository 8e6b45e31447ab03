/** The playback service: class `Player` and its OSC handlers. Each handler
    runs as one atomic step. Everything the service does to the outside world
    (OSC messages to the UI, calls on the media adapter, the server's
    shutdown, the service stopping itself) is appended, in order, to one
    effect log. */
module PlayerService {
  import Py
  import Osc
  import Backend

  datatype Effect =
    | Send(msg: Osc.Message)
    | Call(call: Backend.AdapterCall)
    | TerminateServer
    | CloseServer
    | StopSelf

  /** What reaches the service: an OSC message, or a signal from the platform
      player delivered through the callback wrapper. */
  datatype Inbound = Deliver(msg: Osc.Message) | MediaCompletion | MediaError

  const EmptyPlaylistText := "The Music Playlist is Empty."

  /** The `/playlist_state` text for a non-empty playlist. */
  function PlaylistText(nowPlaying: int, count: nat): string
  {
    "Track " + Py.IntToString(nowPlaying + 1) + " of " + Py.IntToString(count) + " in the Playlist."
  }

  function TrackMessage(uri: string): Effect
  {
    Send(Osc.Message(Osc.TrackState, [uri]))
  }

  function StatusMessage(text: string): Effect
  {
    Send(Osc.Message(Osc.PlaylistState, [text]))
  }

  /** `playlist[now_playing]` does not raise. */
  predicate InRange(playlist: seq<string>, nowPlaying: int)
  {
    -|playlist| <= nowPlaying < |playlist|
  }

  /** `service_state` does not raise. */
  predicate CanReport(playlist: seq<string>, nowPlaying: int)
  {
    |playlist| == 0 || InRange(playlist, nowPlaying)
  }

  /** The two messages `service_state` sends: the current track (empty when
      the playlist is) and the position text. */
  function Broadcast(playlist: seq<string>, nowPlaying: int): (r: seq<Effect>)
    requires CanReport(playlist, nowPlaying)
    ensures |r| == 2
    ensures r[0].Send? && r[0].msg.address == Osc.TrackState && |r[0].msg.values| == 1
    ensures r[1].Send? && r[1].msg.address == Osc.PlaylistState && |r[1].msg.values| == 1
    ensures |playlist| == 0 ==> r == [TrackMessage(""), StatusMessage(EmptyPlaylistText)]
    ensures 0 <= nowPlaying < |playlist| ==>
              r == [TrackMessage(playlist[nowPlaying]), StatusMessage(PlaylistText(nowPlaying, |playlist|))]
    ensures |playlist| > 0 ==> r[0].msg.values[0] in playlist && r[1].msg.values[0] != EmptyPlaylistText
  {
    if |playlist| == 0 then [TrackMessage(""), StatusMessage(EmptyPlaylistText)]
    else
      assert PlaylistText(nowPlaying, |playlist|)[1] != EmptyPlaylistText[1];
      [TrackMessage(Py.Index(playlist, nowPlaying).value), StatusMessage(PlaylistText(nowPlaying, |playlist|))]
  }

  /** What `player.start(mService, playlist[now_playing])` logs; nothing when
      the index raises. */
  function StartEffects(playlist: seq<string>, nowPlaying: int): (r: seq<Effect>)
    ensures |r| == (if InRange(playlist, nowPlaying) then 1 else 0)
    ensures 0 <= nowPlaying < |playlist| ==> r == [Call(Backend.StartTrack(playlist[nowPlaying]))]
  {
    match Py.Index(playlist, nowPlaying)
    case Some(uri) => [Call(Backend.StartTrack(uri))]
    case None => []
  }

  /** `play_next`'s cursor step: one forward, back to 0 past the end. */
  function Advance(nowPlaying: int, count: nat): (r: int)
    ensures r == 0 || r == nowPlaying + 1
    ensures nowPlaying >= -1 ==> 0 <= r < Py.Max(count, 1)
  {
    if nowPlaying + 1 >= count then 0 else nowPlaying + 1
  }

  /** `skip_previous`'s cursor step: one back, to the last track below 1. */
  function Retreat(nowPlaying: int, count: nat): (r: int)
    ensures r == count - 1 || r == nowPlaying - 1
    ensures 0 <= nowPlaying <= count ==> -1 <= r < count
    ensures count > 0 && -1 <= nowPlaying < count ==> 0 <= r < count
  {
    (if nowPlaying < 1 then count else nowPlaying) - 1
  }

  /** The common tail of `play_next` and the skips: broadcast the state,
      then start the current track unless paused. `ok` is false when one of
      the two raises IndexError; what happened before the raise stays. */
  ghost predicate ReportedThenStarted(before: seq<Effect>, playlist: seq<string>, nowPlaying: int,
                                      paused: bool, after: seq<Effect>, ok: bool)
  {
    if !CanReport(playlist, nowPlaying) then after == before && !ok
    else if paused then after == before + Broadcast(playlist, nowPlaying) && ok
    else after == before + Broadcast(playlist, nowPlaying) + StartEffects(playlist, nowPlaying)
         && ok == InRange(playlist, nowPlaying)
  }

  /** `service_state`'s outcome: both reports sent, or an IndexError before
      either. */
  ghost predicate Reported(playlist: seq<string>, nowPlaying: int, before: seq<Effect>, after: seq<Effect>, ok: bool)
  {
    ok == CanReport(playlist, nowPlaying)
    && after == before + (if ok then Broadcast(playlist, nowPlaying) else [])
  }

  /** `play`'s outcome: nothing on an empty playlist, a resume when paused,
      otherwise a start of the current track; never a message. */
  ghost predicate Played(playlist: seq<string>, nowPlaying: int, pausedBefore: bool, pausedAfter: bool,
                         before: seq<Effect>, after: seq<Effect>, ok: bool)
  {
    if |playlist| == 0 then ok && pausedAfter == pausedBefore && after == before
    else if pausedBefore then !pausedAfter && ok && after == before + [Call(Backend.ResumeTrack)]
    else !pausedAfter && ok == InRange(playlist, nowPlaying) && after == before + StartEffects(playlist, nowPlaying)
  }

  /** `pause`'s outcome: only a non-empty, unpaused playlist is paused. */
  ghost predicate PausedBy(playlist: seq<string>, pausedBefore: bool, pausedAfter: bool,
                           before: seq<Effect>, after: seq<Effect>)
  {
    if |playlist| > 0 && !pausedBefore then pausedAfter && after == before + [Call(Backend.PauseTrack)]
    else pausedAfter == pausedBefore && after == before
  }

  /** What `terminate` sends and calls, in order. */
  const TerminateEffects := [
    TrackMessage(""), StatusMessage(EmptyPlaylistText),
    Call(Backend.StopTrack), Call(Backend.ReleasePlayer),
    TerminateServer, CloseServer]

  /** `init_player(self.play_next)`: the completion callback is `play_next`,
      the error callback the adapter's `error_handler`. */
  const Wiring := Backend.CallbackWrapper(true, true)

  class Player {
    var playlist: seq<string>
    var nowPlaying: int
    var paused: bool
    var loopRunning: bool
    var effects: seq<Effect>

    /** What the handlers keep while the service runs: the cursor is in
        range, or -1, or 0 on an empty playlist; only a non-empty playlist
        can be paused. */
    ghost predicate Running()
      reads this
    {
      && loopRunning
      && -1 <= nowPlaying < Py.Max(|playlist|, 1)
      && (paused ==> |playlist| > 0)
    }

    /** The setup part of `run`: empty playlist, cursor 0, not paused, loop
        running, completion wired to `play_next`. */
    constructor ()
      ensures playlist == [] && nowPlaying == 0 && !paused && loopRunning
      ensures effects == [Call(Backend.InitPlayer)]
      ensures Running()
    {
      playlist := [];
      nowPlaying := 0;
      loopRunning := true;
      paused := false;
      effects := [Call(Backend.InitPlayer)];
    }

    /** `service_state`: two broadcasts, track then playlist text. */
    method ServiceState() returns (ok: bool)
      modifies this`effects
      ensures Reported(playlist, nowPlaying, old(effects), effects, ok)
    {
      var uri: string;
      if |playlist| > 0 {
        var current := Py.Index(playlist, nowPlaying);
        if current.None? {
          return false;
        }
        uri := current.value;
      } else {
        uri := "";
      }
      effects := effects + [TrackMessage(uri)];
      var text := if |playlist| > 0 then PlaylistText(nowPlaying, |playlist|) else EmptyPlaylistText;
      effects := effects + [StatusMessage(text)];
      ok := true;
    }

    /** `self.player.start(self.mService, self.playlist[self.now_playing])`. */
    method StartCurrent() returns (ok: bool)
      modifies this`effects
      ensures ok == InRange(playlist, nowPlaying)
      ensures effects == old(effects) + StartEffects(playlist, nowPlaying)
    {
      var current := Py.Index(playlist, nowPlaying);
      ok := current.Some?;
      if ok {
        effects := effects + [Call(Backend.StartTrack(current.value))];
      }
    }

    /** `add_playlist(*uri_list)`: append each URI in order, then broadcast. */
    method AddPlaylist(uris: seq<string>) returns (ok: bool)
      modifies this`playlist, this`effects
      ensures playlist == old(playlist) + uris
      ensures Reported(playlist, nowPlaying, old(effects), effects, ok)
      ensures old(Running()) ==> Running() && ok
    {
      for i := 0 to |uris|
        invariant playlist == old(playlist) + uris[..i]
        invariant effects == old(effects)
      {
        playlist := playlist + [uris[i]];
      }
      ok := ServiceState();
    }

    /** `terminate`: clear the playlist, stop the loop, broadcast the now
        empty state, stop and release the player, shut the server down. The
        cursor and the paused flag are left as they were. */
    method Terminate()
      modifies this`playlist, this`loopRunning, this`effects
      ensures playlist == [] && !loopRunning
      ensures effects == old(effects) + TerminateEffects
    {
      playlist := [];
      loopRunning := false;
      var _ := ServiceState();
      effects := effects + [Call(Backend.StopTrack)];
      effects := effects + [Call(Backend.ReleasePlayer)];
      effects := effects + [TerminateServer];
      effects := effects + [CloseServer];
    }

    /** `play(*action_list)`: resume when paused, otherwise start the current
        track; nothing on an empty playlist; never a message. */
    method Play() returns (ok: bool)
      modifies this`paused, this`effects
      ensures Played(playlist, nowPlaying, old(paused), paused, old(effects), effects, ok)
      ensures old(Running()) ==> Running() && ok
    {
      ok := true;
      if |playlist| > 0 {
        if paused {
          paused := false;
          effects := effects + [Call(Backend.ResumeTrack)];
        } else {
          ok := StartCurrent();
        }
      }
    }

    /** `pause(*action_list)`: pause only a non-empty, unpaused playlist. */
    method Pause()
      modifies this`paused, this`effects
      ensures PausedBy(playlist, old(paused), paused, old(effects), effects)
      ensures old(Running()) ==> Running()
    {
      if |playlist| > 0 && !paused {
        effects := effects + [Call(Backend.PauseTrack)];
        paused := true;
      }
    }

    /** `play_next`: advance the cursor, broadcast, start unless paused. */
    method PlayNext() returns (ok: bool)
      modifies this`nowPlaying, this`effects
      ensures nowPlaying == Advance(old(nowPlaying), |playlist|)
      ensures ReportedThenStarted(old(effects), playlist, nowPlaying, paused, effects, ok)
      ensures old(Running()) ==> Running() && (ok <==> |playlist| > 0 || paused)
    {
      nowPlaying := nowPlaying + 1;
      if nowPlaying >= |playlist| {
        nowPlaying := 0;
      }
      ok := ServiceState();
      if ok && !paused {
        ok := StartCurrent();
      }
    }

    /** `skip_next`: stop, then `play_next`. */
    method SkipNext() returns (ok: bool)
      modifies this`nowPlaying, this`effects
      ensures nowPlaying == Advance(old(nowPlaying), |playlist|)
      ensures ReportedThenStarted(old(effects) + [Call(Backend.StopTrack)], playlist, nowPlaying, paused, effects, ok)
      ensures old(Running()) ==> Running() && (ok <==> |playlist| > 0 || paused)
    {
      effects := effects + [Call(Backend.StopTrack)];
      ok := PlayNext();
    }

    /** `skip_previous`: move the cursor back, stop, broadcast, start unless
        paused. */
    method SkipPrevious() returns (ok: bool)
      modifies this`nowPlaying, this`effects
      ensures nowPlaying == Retreat(old(nowPlaying), |playlist|)
      ensures ReportedThenStarted(old(effects) + [Call(Backend.StopTrack)], playlist, nowPlaying, paused, effects, ok)
      ensures old(Running()) ==> Running() && (ok <==> |playlist| > 0 || paused)
    {
      if nowPlaying < 1 {
        nowPlaying := |playlist|;
      }
      nowPlaying := nowPlaying - 1;
      effects := effects + [Call(Backend.StopTrack)];
      ok := ServiceState();
      if ok && !paused {
        ok := StartCurrent();
      }
    }

    /** The platform's completion signal, through the wrapper `run` wired. */
    method OnMediaCompletion() returns (ok: bool)
      modifies this`nowPlaying, this`effects
      ensures nowPlaying == Advance(old(nowPlaying), |playlist|)
      ensures ReportedThenStarted(old(effects), playlist, nowPlaying, paused, effects, ok)
      ensures old(Running()) ==> Running()
    {
      ok := true;
      var fired := Wiring.OnCompletion();
      if Backend.ServiceCallback in fired {
        ok := PlayNext();
      }
    }

    /** The platform's error signal: the wrapper runs `error_handler` (a
        reset), then `play_next`, so a failing track is skipped like a
        finished one. */
    method OnMediaError() returns (ok: bool)
      modifies this`nowPlaying, this`effects
      ensures nowPlaying == Advance(old(nowPlaying), |playlist|)
      ensures ReportedThenStarted(old(effects) + [Call(Backend.ErrorReset)], playlist, nowPlaying, paused, effects, ok)
      ensures old(Running()) ==> Running()
    {
      ok := true;
      var fired := Wiring.OnError();
      assert fired == [Backend.ErrorCallback, Backend.ServiceCallback];
      if Backend.ErrorCallback in fired {
        effects := effects + [Call(Backend.ErrorReset)];
      }
      if Backend.ServiceCallback in fired {
        ok := PlayNext();
      }
    }

    /** The state and the log changed by no handler. */
    twostate predicate Unchanged()
      reads this
    {
      && playlist == old(playlist) && nowPlaying == old(nowPlaying) && paused == old(paused)
      && loopRunning == old(loopRunning) && effects == old(effects)
    }

    /** What handling `msg` does: an unbound address is dropped, arguments
        to a handler without parameters raise TypeError before it runs, and
        every other message has exactly the effect of the handler bound to
        its address. */
    twostate predicate Dispatched(msg: Osc.Message, ok: bool)
      reads this
    {
      if msg.address !in Osc.ServiceAddresses then ok && Unchanged()
      else if msg.address in NoArgumentAddresses && msg.values != [] then !ok && Unchanged()
      else Handled(msg, ok)
    }

    /** The effect of the handler bound to `msg.address`, called with the
        message's arguments: each handler's own postcondition. */
    twostate predicate Handled(msg: Osc.Message, ok: bool)
      reads this
    {
      if msg.address == Osc.AddPlaylist then
        && playlist == old(playlist) + msg.values
        && nowPlaying == old(nowPlaying) && paused == old(paused) && loopRunning == old(loopRunning)
        && Reported(playlist, nowPlaying, old(effects), effects, ok)
      else if msg.address == Osc.Terminate then
        && ok && playlist == [] && !loopRunning
        && nowPlaying == old(nowPlaying) && paused == old(paused)
        && effects == old(effects) + TerminateEffects
      else if msg.address == Osc.Play then
        && playlist == old(playlist) && nowPlaying == old(nowPlaying) && loopRunning == old(loopRunning)
        && Played(playlist, nowPlaying, old(paused), paused, old(effects), effects, ok)
      else if msg.address == Osc.Pause then
        && ok && playlist == old(playlist) && nowPlaying == old(nowPlaying) && loopRunning == old(loopRunning)
        && PausedBy(playlist, old(paused), paused, old(effects), effects)
      else if msg.address == Osc.SkipNext then
        && playlist == old(playlist) && paused == old(paused) && loopRunning == old(loopRunning)
        && nowPlaying == Advance(old(nowPlaying), |playlist|)
        && ReportedThenStarted(old(effects) + [Call(Backend.StopTrack)], playlist, nowPlaying, paused, effects, ok)
      else if msg.address == Osc.SkipPrevious then
        && playlist == old(playlist) && paused == old(paused) && loopRunning == old(loopRunning)
        && nowPlaying == Retreat(old(nowPlaying), |playlist|)
        && ReportedThenStarted(old(effects) + [Call(Backend.StopTrack)], playlist, nowPlaying, paused, effects, ok)
      else
        && playlist == old(playlist) && nowPlaying == old(nowPlaying) && paused == old(paused)
        && loopRunning == old(loopRunning)
        && Reported(playlist, nowPlaying, old(effects), effects, ok)
    }

    /** The server's dispatch of one message to the handler bound to its
        address (`run`'s `bind` calls). Handlers declared without arguments
        raise TypeError when given any; an address nobody bound is dropped. */
    method Dispatch(msg: Osc.Message) returns (ok: bool)
      modifies this
      ensures Dispatched(msg, ok)
      ensures old(effects) <= effects
      ensures msg == TerminateMessage ==> playlist == [] && !loopRunning
      ensures msg != TerminateMessage ==> loopRunning == old(loopRunning)
      ensures old(Running()) && msg != TerminateMessage ==> Running()
    {
      if msg.address !in Osc.ServiceAddresses {
        ok := true;
      } else if msg.address in NoArgumentAddresses && msg.values != [] {
        ok := false;
      } else if msg.address in TransportAddresses {
        ok := HandleTransport(msg);
      } else {
        ok := HandlePlaylist(msg);
      }
    }

    /** A call of `add_playlist`, `terminate` or `service_state` with the
        message's arguments. */
    method HandlePlaylist(msg: Osc.Message) returns (ok: bool)
      requires msg.address in Osc.ServiceAddresses - TransportAddresses
      requires msg.address in NoArgumentAddresses ==> msg.values == []
      modifies this`playlist, this`loopRunning, this`effects
      ensures Handled(msg, ok)
      ensures old(effects) <= effects
      ensures old(Running()) && msg.address != Osc.Terminate ==> Running()
    {
      Osc.ServiceAddressesDistinct();
      if msg.address == Osc.AddPlaylist {
        ok := AddPlaylist(msg.values);
        assert old(effects) <= effects;
      } else if msg.address == Osc.Terminate {
        Terminate();
        ok := true;
        assert old(effects) <= effects;
      } else {
        ok := ServiceState();
        assert old(effects) <= effects;
      }
    }

    /** A call of `play`, `pause`, `skip_next` or `skip_previous` with the
        message's arguments. */
    method HandleTransport(msg: Osc.Message) returns (ok: bool)
      requires msg.address in TransportAddresses
      requires msg.address in NoArgumentAddresses ==> msg.values == []
      modifies this`nowPlaying, this`paused, this`effects
      ensures Handled(msg, ok)
      ensures old(effects) <= effects
      ensures old(Running()) ==> Running()
    {
      Osc.ServiceAddressesDistinct();
      ok := true;
      if msg.address == Osc.Play {
        ok := Play();
        assert old(effects) <= effects;
      } else if msg.address == Osc.Pause {
        Pause();
        assert old(effects) <= effects;
      } else if msg.address == Osc.SkipNext {
        ok := SkipNext();
        assert old(effects) <= old(effects) + [Call(Backend.StopTrack)] <= effects;
      } else {
        ok := SkipPrevious();
        assert old(effects) <= old(effects) + [Call(Backend.StopTrack)] <= effects;
      }
    }

    /** One event handled atomically. */
    method Step(event: Inbound) returns (ok: bool)
      modifies this
      ensures event.Deliver? ==> Dispatched(event.msg, ok)
      ensures !event.Deliver? ==>
                && playlist == old(playlist) && paused == old(paused) && loopRunning == old(loopRunning)
                && nowPlaying == Advance(old(nowPlaying), |playlist|)
      ensures event == MediaCompletion ==>
                ReportedThenStarted(old(effects), playlist, nowPlaying, paused, effects, ok)
      ensures event == MediaError ==>
                ReportedThenStarted(old(effects) + [Call(Backend.ErrorReset)], playlist, nowPlaying, paused, effects, ok)
      ensures old(effects) <= effects
      ensures event != Deliver(TerminateMessage) ==> loopRunning == old(loopRunning)
      ensures event == Deliver(TerminateMessage) ==>
                !loopRunning && playlist == [] && effects == old(effects) + TerminateEffects
      ensures old(Running()) && event != Deliver(TerminateMessage) ==> Running()
    {
      match event
      case Deliver(msg) => ok := Dispatch(msg);
      case MediaCompletion => ok := OnMediaCompletion();
      case MediaError => ok := OnMediaError();
    }

    /** The loop of `run`: events are handled while `loop_running` holds;
        once a `/terminate` has cleared it the loop ends and the service stops
        itself. A raising handler does not end the loop. Returns how many
        events were handled; when they run out the service is still waiting. */
    method Serve(inbox: seq<Inbound>) returns (handled: nat)
      requires Running()
      modifies this
      ensures handled <= |inbox|
      ensures old(effects) <= effects
      ensures loopRunning ==> handled == |inbox| && Running()
      ensures !loopRunning ==> 0 < handled && inbox[handled - 1] == Deliver(TerminateMessage)
      ensures !loopRunning ==> playlist == [] && |effects| > |TerminateEffects|
                               && effects[|effects| - |TerminateEffects| - 1..] == TerminateEffects + [StopSelf]
      ensures forall j :: 0 <= j < handled && (loopRunning || j < handled - 1) ==>
                inbox[j] != Deliver(TerminateMessage)
    {
      handled := 0;
      while loopRunning && handled < |inbox|
        invariant handled <= |inbox|
        invariant old(effects) <= effects
        invariant loopRunning ==> Running()
        invariant !loopRunning ==> 0 < handled && inbox[handled - 1] == Deliver(TerminateMessage)
        invariant !loopRunning ==> playlist == [] && |effects| >= |TerminateEffects|
                                   && effects[|effects| - |TerminateEffects|..] == TerminateEffects
        invariant forall j :: 0 <= j < handled && (loopRunning || j < handled - 1) ==>
                    inbox[j] != Deliver(TerminateMessage)
      {
        var _ := Step(inbox[handled]);
        handled := handled + 1;
      }
      if !loopRunning {
        effects := effects + [StopSelf];
      }
    }
  }

  const TerminateMessage := Osc.Message(Osc.Terminate, [])

  /** The handlers that drive playback rather than the playlist. */
  const TransportAddresses: set<string> := {Osc.Play, Osc.Pause, Osc.SkipNext, Osc.SkipPrevious}

  /** Handlers declared without parameters. */
  const NoArgumentAddresses: set<string> := {Osc.Terminate, Osc.SkipNext, Osc.SkipPrevious, Osc.ServiceState}

  /** A numeral followed by a space-led text can be split back apart. */
  lemma CancelNumeral(a: string, x: string, b: string, y: string)
    requires Py.IsNumeral(a) && Py.IsNumeral(b)
    requires |x| > 0 && x[0] == ' ' && |y| > 0 && y[0] == ' '
    requires a + x == b + y
    ensures a == b && x == y
  {
    assert a == (a + x)[..|a|];
    assert b == (b + y)[..|b|];
  }

  lemma CancelPrefix(p: string, s1: string, s2: string)
    requires p + s1 == p + s2
    ensures s1 == s2
  {
    assert s1 == (p + s1)[|p|..];
    assert s2 == (p + s2)[|p|..];
  }

  lemma CancelSuffix(s1: string, s2: string, t: string)
    requires s1 + t == s2 + t
    ensures s1 == s2
  {
    assert s1 == (s1 + t)[..|s1|];
    assert s2 == (s2 + t)[..|s2|];
  }

  lemma PlaylistTextParts(k: int, n: nat)
    ensures PlaylistText(k, n) ==
              "Track " + (Py.IntToString(k + 1) + (" of " + (Py.IntToString(n) + " in the Playlist.")))
  {
  }

  /** The position text determines the position and the length it reports,
      so two different states never show the same text. */
  lemma {:induction false} PlaylistTextInjective(k1: int, n1: nat, k2: int, n2: nat)
    requires PlaylistText(k1, n1) == PlaylistText(k2, n2)
    ensures k1 == k2 && n1 == n2
  {
    var t := " in the Playlist.";
    var a1, b1 := Py.IntToString(k1 + 1), Py.IntToString(n1);
    var a2, b2 := Py.IntToString(k2 + 1), Py.IntToString(n2);
    PlaylistTextParts(k1, n1);
    PlaylistTextParts(k2, n2);
    CancelPrefix("Track ", a1 + (" of " + (b1 + t)), a2 + (" of " + (b2 + t)));
    CancelNumeral(a1, " of " + (b1 + t), a2, " of " + (b2 + t));
    CancelPrefix(" of ", b1 + t, b2 + t);
    CancelSuffix(b1, b2, t);
    Py.IntToStringInjective(k1 + 1, k2 + 1);
    Py.IntToStringInjective(n1, n2);
  }

  /** On a playlist of n >= 1 tracks, `play_next` and `skip_previous` undo
      each other. */
  lemma AdvanceRetreatInverse(nowPlaying: int, count: nat)
    requires 0 <= nowPlaying < count
    ensures Retreat(Advance(nowPlaying, count), count) == nowPlaying
    ensures Advance(Retreat(nowPlaying, count), count) == nowPlaying
  {
  }

  /** With two or more tracks, the advance that follows a playback error
      moves away from the track that failed, including from cursor -1, which
      Python reads as the last track. */
  lemma ErrorMovesOn(nowPlaying: int, count: nat)
    requires count > 1 && -1 <= nowPlaying < count
    ensures Advance(nowPlaying, count) % count != nowPlaying % count
  {
  }

  /** `skip_previous` on an empty playlist leaves the cursor at -1, which
      Python reads as "the last track": once tracks are added the service
      reports position 0 and plays the last one. */
  lemma SkipPreviousOnEmptyPlaylist(playlist: seq<string>)
    requires |playlist| > 0
    ensures Retreat(0, 0) == -1 && Retreat(-1, 0) == -1
    ensures Broadcast(playlist, -1) ==
              [TrackMessage(playlist[|playlist| - 1]), StatusMessage(PlaylistText(-1, |playlist|))]
    ensures PlaylistText(-1, |playlist|)[..8] == "Track 0 "
    ensures StartEffects(playlist, -1) == [Call(Backend.StartTrack(playlist[|playlist| - 1]))]
  {
    assert Py.IntToString(0) == "0";
  }
}
