/** `MusicPicker` and `TrackSelection`: the picker's selection. Pressing a
    track toggles its id in the picker's `temp_track_list`; dismissing the
    picker hands the callback one content URI per selected id. The genre,
    album and track screens around them only display rows. */
module Picker {
  import Py
  import Mediastore

  predicate NoDuplicates(s: seq<int>)
  {
    forall i, j :: 0 <= i < j < |s| ==> s[i] != s[j]
  }

  /** `list.index(x)`: the position of the first occurrence of `x`. */
  function FirstIndex(s: seq<int>, x: int): (k: nat)
    requires x in s
    ensures k < |s| && s[k] == x && x !in s[..k]
  {
    if s[0] == x then 0
    else
      var k := 1 + FirstIndex(s[1..], x);
      assert s[..k] == [s[0]] + s[1..][..k - 1];
      k
  }

  /** `list.remove(x)`: drop the first occurrence of `x`; the others stay in
      their order. */
  function RemoveFirst(s: seq<int>, x: int): (r: seq<int>)
    requires x in s
    ensures var k := FirstIndex(s, x); r == s[..k] + s[k + 1..]
    ensures |r| == |s| - 1
  {
    if s[0] == x then s[1..]
    else
      var k := FirstIndex(s[1..], x);
      assert s[..k + 1] == [s[0]] + s[1..][..k];
      assert s[k + 2..] == s[1..][k + 1..];
      [s[0]] + RemoveFirst(s[1..], x)
  }

  /** What `pick_item` does to the list: remove the id if present, append it
      otherwise. */
  function Toggle(s: seq<int>, x: int): seq<int>
  {
    if x in s then RemoveFirst(s, x) else s + [x]
  }

  /** The list with every `x` left out. */
  function Without(s: seq<int>, x: int): (r: seq<int>)
    ensures x !in r
    ensures forall y :: y != x ==> (y in r <==> y in s)
  {
    if s == [] then []
    else (if s[0] == x then [] else [s[0]]) + Without(s[1..], x)
  }

  lemma {:induction false} RemoveFirstWithout(s: seq<int>, x: int)
    requires x in s && NoDuplicates(s)
    ensures Without(RemoveFirst(s, x), x) == Without(s, x)
    ensures x !in RemoveFirst(s, x)
    ensures NoDuplicates(RemoveFirst(s, x))
  {
    NoDuplicatesTail(s);
    if s[0] == x {
      WithoutAbsent(s[1..], x);
    } else {
      RemoveFirstWithout(s[1..], x);
      var rest := RemoveFirst(s[1..], x);
      assert RemoveFirst(s, x) == [s[0]] + rest;
      assert s[0] !in rest;
      NoDuplicatesCons(s[0], rest);
      assert ([s[0]] + rest)[1..] == rest;
    }
  }

  lemma NoDuplicatesTail(s: seq<int>)
    requires |s| > 0 && NoDuplicates(s)
    ensures NoDuplicates(s[1..]) && s[0] !in s[1..]
  {
    forall i, j | 0 <= i < j < |s| - 1 ensures s[1..][i] != s[1..][j] {
      assert s[1..][i] == s[i + 1] && s[1..][j] == s[j + 1];
    }
    forall i | 0 <= i < |s| - 1 ensures s[1..][i] != s[0] {
      assert s[1..][i] == s[i + 1];
    }
  }

  lemma NoDuplicatesCons(h: int, t: seq<int>)
    requires NoDuplicates(t) && h !in t
    ensures NoDuplicates([h] + t)
  {
    var s := [h] + t;
    forall i, j | 0 <= i < j < |s| ensures s[i] != s[j] {
      assert s[j] == t[j - 1];
      if i > 0 {
        assert s[i] == t[i - 1];
      }
    }
  }

  lemma {:induction false} WithoutAbsent(s: seq<int>, x: int)
    requires x !in s
    ensures Without(s, x) == s
  {
    if s != [] {
      WithoutAbsent(s[1..], x);
    }
  }

  lemma {:induction false} WithoutAppend(s: seq<int>, x: int)
    ensures Without(s + [x], x) == Without(s, x)
  {
    if s == [] {
      assert Without([x], x) == [] + Without([], x);
    } else {
      WithoutAppend(s[1..], x);
      assert (s + [x])[1..] == s[1..] + [x];
    }
  }

  lemma {:induction false} RemoveFirstAppended(s: seq<int>, x: int)
    requires x !in s
    ensures RemoveFirst(s + [x], x) == s
  {
    if s != [] {
      var t := s + [x];
      assert t[0] == s[0] != x && t[1..] == s[1..] + [x];
      assert x !in s[1..];
      RemoveFirstAppended(s[1..], x);
      calc {
        RemoveFirst(t, x);
        [s[0]] + RemoveFirst(t[1..], x);
        [s[0]] + s[1..];
        s;
      }
    }
  }

  /** Under no duplicates, a toggle flips the id's membership. */
  lemma ToggleFlips(s: seq<int>, x: int)
    requires NoDuplicates(s)
    ensures x in Toggle(s, x) <==> x !in s
  {
    if x in s {
      RemoveFirstWithout(s, x);
    }
  }

  /** Toggling keeps the list free of duplicates. */
  lemma TogglePreservesNoDuplicates(s: seq<int>, x: int)
    requires NoDuplicates(s)
    ensures NoDuplicates(Toggle(s, x))
  {
    if x in s {
      RemoveFirstWithout(s, x);
    }
  }

  /** Picking an unselected track twice restores the list exactly. */
  lemma ToggleTwiceRestores(s: seq<int>, x: int)
    requires x !in s
    ensures Toggle(Toggle(s, x), x) == s
  {
    RemoveFirstAppended(s, x);
  }

  /** Every other id, and their order, is left as it was. */
  lemma ToggleKeepsOthers(s: seq<int>, x: int)
    requires NoDuplicates(s)
    ensures Without(Toggle(s, x), x) == Without(s, x)
  {
    if x in s {
      RemoveFirstWithout(s, x);
    } else {
      WithoutAppend(s, x);
    }
  }

  class MusicPicker {
    /** The ids of the tracks picked so far, in picking order. */
    var tempTrackList: seq<int>

    ghost predicate Valid()
      reads this
    {
      NoDuplicates(tempTrackList)
    }

    constructor ()
      ensures tempTrackList == [] && Valid()
    {
      tempTrackList := [];
    }

    /** `on_pre_dismiss`: the URIs handed to the callback. */
    method OnPreDismiss() returns (uris: seq<string>)
      ensures |uris| == |tempTrackList|
      ensures forall i :: 0 <= i < |uris| ==> uris[i] == Mediastore.IdToUri(tempTrackList[i])
    {
      uris := [];
      for i := 0 to |tempTrackList|
        invariant |uris| == i
        invariant forall k :: 0 <= k < i ==> uris[k] == Mediastore.IdToUri(tempTrackList[k])
      {
        uris := uris + [Mediastore.IdToUri(tempTrackList[i])];
      }
    }
  }

  /** Distinct picked tracks give distinct URIs. */
  lemma DismissedUrisDistinct(ids: seq<int>, uris: seq<string>)
    requires NoDuplicates(ids) && |uris| == |ids|
    requires forall i :: 0 <= i < |uris| ==> uris[i] == Mediastore.IdToUri(ids[i])
    ensures forall i, j :: 0 <= i < j < |uris| ==> uris[i] != uris[j]
  {
    forall i, j | 0 <= i < j < |uris| ensures uris[i] != uris[j] {
      if uris[i] == uris[j] {
        Mediastore.IdToUriInjective(ids[i], ids[j]);
      }
    }
  }

  /** One track row of the picker. The RecycleView may rebind a row to
      another track, so the id can change. */
  class TrackSelection {
    var trackId: int
    const pickerRoot: MusicPicker
    /** The row shows the selected colour. */
    var highlighted: bool

    /** A new row: `track_id` is set while `picker_root` is still unset, so
        only `on_picker_root` looks at the selection, and it does so only for
        a non-zero id. */
    constructor (trackId: int, pickerRoot: MusicPicker)
      ensures this.trackId == trackId && this.pickerRoot == pickerRoot
      ensures highlighted <==> trackId != 0 && trackId in pickerRoot.tempTrackList
    {
      this.trackId := trackId;
      this.pickerRoot := pickerRoot;
      highlighted := trackId != 0 && trackId in pickerRoot.tempTrackList;
    }

    /** A row rebound to `newId`: `on_track_id` fires only when the value
        changes, and `update_selected` can set the selected colour but never
        clears it. */
    method Rebind(newId: int)
      modifies this`trackId, this`highlighted
      ensures trackId == newId
      ensures highlighted <==> old(highlighted) || (newId != old(trackId) && newId in pickerRoot.tempTrackList)
    {
      if newId != trackId {
        trackId := newId;
        if trackId in pickerRoot.tempTrackList {
          highlighted := true;
        }
      }
    }

    /** `pick_item`. */
    method PickItem()
      modifies pickerRoot`tempTrackList, this`highlighted
      ensures pickerRoot.tempTrackList == Toggle(old(pickerRoot.tempTrackList), trackId)
      ensures highlighted <==> trackId !in old(pickerRoot.tempTrackList)
      ensures old(pickerRoot.Valid()) ==> pickerRoot.Valid() && (highlighted <==> trackId in pickerRoot.tempTrackList)
    {
      ghost var before := pickerRoot.tempTrackList;
      if trackId in pickerRoot.tempTrackList {
        pickerRoot.tempTrackList := RemoveFirst(pickerRoot.tempTrackList, trackId);
        highlighted := false;
      } else {
        pickerRoot.tempTrackList := pickerRoot.tempTrackList + [trackId];
        highlighted := true;
      }
      if NoDuplicates(before) {
        TogglePreservesNoDuplicates(before, trackId);
        ToggleFlips(before, trackId);
      }
    }
  }
}
