/** `AndroidMediaPlayer` and `CallbackWrapper`: the adapter between the
    playback service and Android's MediaPlayer. The platform player is
    modelled by the log of calls made on it; the completion and error
    signals it raises are modelled by the callbacks the wrapper fires. */
module Backend {
  import Py

  /** A call made on the platform MediaPlayer object. */
  datatype NativeCall =
    | SetOnCompletionListener
    | Reset
    | SetDataSource(uri: string)
    | Prepare
    | Start
    | Pause
    | Stop
    | Release

  /** An operation of the adapter, as the playback service invokes it. */
  datatype AdapterCall =
    | InitPlayer
    | StartTrack(uri: string)
    | PauseTrack
    | ResumeTrack
    | StopTrack
    | ReleasePlayer
    | ErrorReset

  /** The platform calls an adapter operation makes when none of them raises. */
  function NativeCallsOf(call: AdapterCall): (r: seq<NativeCall>)
    ensures |r| >= 1
    ensures call.StartTrack? <==> |r| == 4
    ensures call.StartTrack? ==> r == [Reset, SetDataSource(call.uri), Prepare, Start]
    ensures call == InitPlayer ==> r == [SetOnCompletionListener]
    ensures call == PauseTrack ==> r == [Pause]
    ensures call == ResumeTrack ==> r == [Start]
    ensures call == StopTrack ==> r == [Stop]
    ensures call == ReleasePlayer ==> r == [Release]
    ensures call == ErrorReset ==> r == [Reset]
    ensures Reset in r <==> call.StartTrack? || call == ErrorReset
  {
    match call
    case InitPlayer => [SetOnCompletionListener]
    case StartTrack(uri) => [Reset, SetDataSource(uri), Prepare, Start]
    case PauseTrack => [Pause]
    case ResumeTrack => [Start]
    case StopTrack => [Stop]
    case ReleasePlayer => [Release]
    case ErrorReset => [Reset]
  }

  /** The two callbacks a wrapper can hold. */
  datatype Callback = ServiceCallback | ErrorCallback

  /** `CallbackWrapper(service_callback, error_callback)`: its fields are set
      once; each flag says whether that callback is set (truthy). */
  datatype CallbackWrapper = CallbackWrapper(hasServiceCallback: bool, hasErrorCallback: bool)
  {
    /** `on_completion`: the callbacks it calls, in order. */
    function OnCompletion(): (fired: seq<Callback>)
      ensures ErrorCallback !in fired
      ensures ServiceCallback in fired <==> hasServiceCallback
      ensures |fired| <= 1
    {
      if hasServiceCallback then [ServiceCallback] else []
    }

    /** `on_error`: the callbacks it calls, in order. */
    function OnError(): (fired: seq<Callback>)
      ensures ErrorCallback in fired <==> hasErrorCallback
      ensures ServiceCallback in fired <==> hasServiceCallback
      ensures |fired| == (if hasErrorCallback then 1 else 0) + (if hasServiceCallback then 1 else 0)
      ensures hasErrorCallback ==> fired[0] == ErrorCallback
      ensures hasServiceCallback ==> fired[|fired| - 1] == ServiceCallback
    {
      (if hasErrorCallback then [ErrorCallback] else []) +
      (if hasServiceCallback then [ServiceCallback] else [])
    }
  }

  /** An error fires what a completion fires, after the error callback:
      errors take the same advance path as finished tracks. */
  lemma ErrorIsResetThenCompletion(w: CallbackWrapper)
    requires w.hasErrorCallback
    ensures w.OnError() == [ErrorCallback] + w.OnCompletion()
  {
  }

  /** Index of the first platform call of `start` that raises; 4 or more
      stands for none. */
  type FaultIndex = nat

  class AndroidMediaPlayer {
    /** Calls made on the current platform player. */
    var calls: seq<NativeCall>
    var wrapper: CallbackWrapper
    var initialized: bool
    /** Warnings logged so far. */
    var warnings: nat

    constructor ()
      ensures calls == [] && !initialized && warnings == 0
    {
      calls := [];
      wrapper := CallbackWrapper(false, false);
      initialized := false;
      warnings := 0;
    }

    /** `init_player(service_callback)`: a fresh platform player whose
        completion listener is a wrapper holding the service's callback and
        this adapter's `error_handler`. */
    method InitPlayer(serviceCallbackSet: bool)
      modifies this
      ensures initialized
      ensures wrapper == CallbackWrapper(serviceCallbackSet, true)
      ensures calls == NativeCallsOf(AdapterCall.InitPlayer)
      ensures warnings == old(warnings)
    {
      wrapper := CallbackWrapper(serviceCallbackSet, true);
      calls := [SetOnCompletionListener];
      initialized := true;
    }

    /** `start(mActivity, uri)`: reset, set the data source, prepare, start;
        the first call that raises ends the sequence and is logged as a
        warning. */
    method Start(uri: string, raisesAt: FaultIndex)
      requires initialized
      modifies this`calls, this`warnings
      ensures calls == old(calls) + NativeCallsOf(StartTrack(uri))[..Py.Min(raisesAt + 1, 4)]
      ensures warnings == old(warnings) + (if raisesAt < 4 then 1 else 0)
    {
      calls := calls + [NativeCall.Reset];
      if raisesAt == 0 { warnings := warnings + 1; return; }
      calls := calls + [SetDataSource(uri)];
      if raisesAt == 1 { warnings := warnings + 1; return; }
      calls := calls + [NativeCall.Prepare];
      if raisesAt == 2 { warnings := warnings + 1; return; }
      calls := calls + [NativeCall.Start];
      if raisesAt == 3 { warnings := warnings + 1; return; }
    }

    method Pause()
      requires initialized
      modifies this`calls
      ensures calls == old(calls) + NativeCallsOf(PauseTrack)
    {
      calls := calls + [NativeCall.Pause];
    }

    /** `resume`: the platform has no resume; it is a second `start`. */
    method Resume()
      requires initialized
      modifies this`calls
      ensures calls == old(calls) + NativeCallsOf(ResumeTrack)
    {
      calls := calls + [NativeCall.Start];
    }

    method Stop()
      requires initialized
      modifies this`calls
      ensures calls == old(calls) + NativeCallsOf(StopTrack)
    {
      calls := calls + [NativeCall.Stop];
    }

    method Release()
      requires initialized
      modifies this`calls
      ensures calls == old(calls) + NativeCallsOf(ReleasePlayer)
    {
      calls := calls + [NativeCall.Release];
    }

    /** `error_handler`: log a warning and reset the platform player. */
    method ErrorHandler()
      requires initialized
      modifies this`calls, this`warnings
      ensures calls == old(calls) + NativeCallsOf(ErrorReset)
      ensures warnings == old(warnings) + 1
    {
      warnings := warnings + 1;
      calls := calls + [NativeCall.Reset];
    }
  }

  /** Whatever platform call raises, `start` has reset the player first. */
  lemma StartResetsFirst(uri: string, raisesAt: FaultIndex)
    ensures var issued := NativeCallsOf(StartTrack(uri))[..Py.Min(raisesAt + 1, 4)];
            |issued| >= 1 && issued[0] == Reset
  {
  }
}
