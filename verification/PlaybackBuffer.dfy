/**
  The bounded queue between the coroutine that cuts provider audio into frames and the one that writes them to
  the call.  When it is full a new frame pushes out the oldest one.
 */
module PlaybackQueue {
  import opened Common

  /** What became of a frame that is no longer queued. */
  datatype Fate = Delivered | Dropped

  /** The places of the frames that met the given fate. */
  function Places(fates: seq<Fate>, fate: Fate): (places: seq<nat>)
    ensures forall i :: 0 <= i < |places| ==> places[i] < |fates| && fates[places[i]] == fate
  {
    if fates == [] then []
    else
      var n := |fates| - 1;
      Places(fates[..n], fate) + if fates[n] == fate then [n] else []
  }

  function Tally(fates: seq<Fate>, fate: Fate): nat {
    |Places(fates, fate)|
  }

  function At<T>(history: seq<T>, places: seq<nat>): seq<T>
    requires forall i :: 0 <= i < |places| ==> places[i] < |history|
  {
    seq(|places|, i requires 0 <= i < |places| => history[places[i]])
  }

  lemma {:induction false} PlacesAppend(fates: seq<Fate>, more: seq<Fate>, fate: Fate)
    requires forall i :: 0 <= i < |more| ==> more[i] == more[0]
    ensures Tally(fates + more, fate) == Tally(fates, fate) + if more != [] && more[0] == fate then |more| else 0
  {
    if more == [] {
      assert fates + more == fates;
    } else {
      var n := |more| - 1;
      assert (fates + more)[..|fates| + n] == fates + more[..n];
      PlacesAppend(fates, more[..n], fate);
    }
  }

  lemma {:induction false} PlacesComplete(fates: seq<Fate>, fate: Fate)
    ensures Increasing(Places(fates, fate))
    ensures forall i: nat :: i < |fates| && fates[i] == fate ==> i in Places(fates, fate)
  {
    if fates != [] {
      var n := |fates| - 1;
      var init := Places(fates[..n], fate);
      PlacesComplete(fates[..n], fate);
      forall i: nat | i < |fates| && fates[i] == fate ensures i in Places(fates, fate) {
        if i < n {
          assert fates[..n][i] == fate;
          assert i in init;
        } else {
          assert Places(fates, fate) == init + [n];
        }
      }
    }
  }

  lemma {:induction false} FatesAddUp(fates: seq<Fate>)
    ensures Tally(fates, Delivered) + Tally(fates, Dropped) == |fates|
  {
    if fates != [] {
      FatesAddUp(fates[..|fates| - 1]);
      assert fates[|fates| - 1] == Delivered || fates[|fates| - 1] == Dropped;
    }
  }

  /**
    Conservation: with the queue holding the frames that have met no fate yet, every frame ever put was
    delivered, or dropped, or is queued, exactly one of them; and both the delivered and the dropped
    frames leave in the order they were put.
   */
  lemma EveryFrameHasOneFate<T>(history: seq<T>, fates: seq<Fate>)
    requires |fates| <= |history|
    ensures |history| == Tally(fates, Delivered) + Tally(fates, Dropped) + |history[|fates|..]|
    ensures Increasing(Places(fates, Delivered)) && Increasing(Places(fates, Dropped))
    ensures forall i: nat :: i < |fates| ==> (i in Places(fates, Delivered)) != (i in Places(fates, Dropped))
  {
    FatesAddUp(fates);
    PlacesComplete(fates, Delivered);
    PlacesComplete(fates, Dropped);
  }

  class PlaybackBuffer<T> {
    const maxFrames: int
    var frames: seq<T>
    var closed: bool
    ghost var history: seq<T>      // every frame ever put
    ghost var fates: seq<Fate>     // what became of those no longer queued

    ghost predicate Valid()
      reads this
    {
      && |fates| <= |history|
      && frames == history[|fates|..]
      && |frames| <= (if maxFrames > 0 then maxFrames else 0)
    }

    constructor (maxFrames: int)
      ensures Valid() && this.maxFrames == maxFrames && !closed
      ensures frames == [] && history == [] && fates == []
    {
      this.maxFrames := maxFrames;
      frames, closed, history, fates := [], false, [], [];
    }

    /** A queue that may hold nothing makes the source pop from an empty deque. */
    method Put(frame: T) returns (result: Result<nat>)
      requires Valid()
      modifies this`frames, this`history, this`fates
      ensures Valid()
      ensures maxFrames <= 0 ==>
        result == Err("pop from an empty deque") && history == old(history) && fates == old(fates)
      ensures maxFrames > 0 ==>
        && result == Ok(if |old(frames)| == maxFrames then 1 else 0)
        && history == old(history) + [frame]
        && fates == old(fates) + seq(result.value, _ => Dropped)
        && |frames| > 0 && frames[|frames| - 1] == frame
    {
      var dropped := 0;
      if |frames| >= maxFrames {
        if frames == [] {
          return Err("pop from an empty deque");
        }
        frames := frames[1..];
        fates := fates + [Dropped];
        dropped := 1;
      }
      frames := frames + [frame];
      history := history + [frame];
      return Ok(dropped);
    }

    /** The reader waits until there is a frame or the buffer is closed. */
    method Get() returns (frame: Option<T>)
      requires Valid()
      requires frames != [] || closed
      modifies this`frames, this`fates
      ensures Valid()
      ensures frame.None? <==> old(frames) == []
      ensures frame.None? ==> frames == old(frames) && fates == old(fates)
      ensures frame.Some? ==> frame.value == old(frames)[0] && frame.value == history[|old(fates)|]
      ensures frame.Some? ==> frames == old(frames)[1..] && fates == old(fates) + [Delivered]
    {
      if frames != [] {
        frame := Some(frames[0]);
        frames := frames[1..];
        fates := fates + [Delivered];
      } else {
        frame := None;
      }
    }

    method Drain() returns (dropped: seq<T>)
      requires Valid()
      modifies this`frames, this`fates
      ensures Valid()
      ensures dropped == old(frames) && frames == [] && |fates| == |history|
      ensures fates == old(fates) + seq(|dropped|, _ => Dropped)
    {
      dropped := frames;
      frames := [];
      fates := fates + seq(|dropped|, _ => Dropped);
    }

    method Clear() returns (dropped: nat)
      requires Valid()
      modifies this`frames, this`fates
      ensures Valid()
      ensures dropped == |old(frames)| && frames == [] && |fates| == |history|
      ensures fates == old(fates) + seq(dropped, _ => Dropped)
    {
      dropped := |frames|;
      frames := [];
      fates := fates + seq(dropped, _ => Dropped);
    }

    method Close()
      requires Valid()
      modifies this`closed
      ensures Valid() && closed
    {
      closed := true;
    }
  }
}
