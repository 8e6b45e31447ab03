/** The OSC message vocabulary the two processes share. A message is an
    address and a list of byte-string arguments; byte strings are modelled as
    strings, and UTF-8 encoding of the ASCII texts involved as the identity. */
module Osc {

  datatype Message = Message(address: string, values: seq<string>)

  // Addresses the playback service binds (UI to service).
  const AddPlaylist := "/add_playlist"
  const Terminate := "/terminate"
  const Play := "/play"
  const Pause := "/pause"
  const SkipNext := "/skip_next"
  const SkipPrevious := "/skip_previous"
  const ServiceState := "/service_state"

  // Addresses the UI binds (service to UI).
  const TrackState := "/track_state"
  const PlaylistState := "/playlist_state"

  /** Every address the playback service has a handler for. */
  const ServiceAddresses: set<string> :=
    {AddPlaylist, Terminate, Play, Pause, SkipNext, SkipPrevious, ServiceState}

  /** Every address the UI has a handler for. */
  const UiAddresses: set<string> := {TrackState, PlaylistState}

  /** The service's seven addresses are pairwise different, so each message
      reaches exactly one handler. */
  lemma ServiceAddressesDistinct()
    ensures AddPlaylist != Terminate && AddPlaylist != Play && AddPlaylist != Pause
    ensures AddPlaylist != SkipNext && AddPlaylist != SkipPrevious && AddPlaylist != ServiceState
    ensures Terminate != Play && Terminate != Pause && Terminate != SkipNext
    ensures Terminate != SkipPrevious && Terminate != ServiceState && Play != Pause
    ensures Play != SkipNext && Play != SkipPrevious && Play != ServiceState
    ensures Pause != SkipNext && Pause != SkipPrevious && Pause != ServiceState
    ensures SkipNext != SkipPrevious && SkipNext != ServiceState && SkipPrevious != ServiceState
  {
  }
}
