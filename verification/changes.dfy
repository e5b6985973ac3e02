/** `detect_changes` of src/map/loading.rs: the asset events of one update
    become map rebuild requests for the active map. */
module Changes {
  import opened Base

  datatype AssetEvent = Created(handle: MapHandle) | Modified(handle: MapHandle) | Removed(handle: MapHandle)

  datatype MapEvent = Update(handle: MapHandle)

  /** The one fatal condition: the active map was unloaded (the source panics). */
  datatype Fatal = ActiveMapRemoved

  /** `out` followed by whatever `rest` produced, or `rest`'s failure. */
  function Prepend(out: seq<MapEvent>, rest: Result<seq<MapEvent>, Fatal>): Result<seq<MapEvent>, Fatal> {
    if rest.Err? then rest else Ok(out + rest.value)
  }

  /** The events `detect_changes` sends for `events`, processed in order. A
      creation or modification of the active map sends one update; removing
      the active map is fatal; removing any other map ends the batch. */
  function Detected(active: MapHandle, events: seq<AssetEvent>): Result<seq<MapEvent>, Fatal>
    decreases |events|
  {
    if events == [] then Ok([])
    else match events[0]
      case Removed(h) => if h == active then Err(ActiveMapRemoved) else Ok([])
      case Created(h) => Prepend(if h == active then [Update(h)] else [], Detected(active, events[1..]))
      case Modified(h) => Prepend(if h == active then [Update(h)] else [], Detected(active, events[1..]))
  }

  lemma PrependTwice(out: seq<MapEvent>, more: seq<MapEvent>, rest: Result<seq<MapEvent>, Fatal>)
    ensures Prepend(out, Prepend(more, rest)) == Prepend(out + more, rest)
  {
    if rest.Ok? {
      assert out + (more + rest.value) == (out + more) + rest.value;
    }
  }

  lemma PrependNothing(rest: Result<seq<MapEvent>, Fatal>)
    ensures Prepend([], rest) == rest
  {
    if rest.Ok? {
      assert [] + rest.value == rest.value;
    }
  }

  /** `detect_changes`. */
  method DetectChanges(active: MapHandle, events: seq<AssetEvent>) returns (r: Result<seq<MapEvent>, Fatal>)
    ensures r == Detected(active, events)
  {
    var out: seq<MapEvent> := [];
    var i := 0;
    assert events[i..] == events;
    PrependNothing(Detected(active, events));
    while i < |events|
      invariant 0 <= i <= |events|
      invariant Detected(active, events) == Prepend(out, Detected(active, events[i..]))
    {
      assert events[i..][1..] == events[i + 1..];
      var handle;
      match events[i] {
        case Created(h) => handle := h;
        case Modified(h) => handle := h;
        case Removed(h) =>
          if h == active {
            return Err(ActiveMapRemoved);
          }
          assert out + [] == out;
          return Ok(out);
      }
      PrependTwice(out, if handle == active then [Update(handle)] else [], Detected(active, events[i + 1..]));
      if handle == active {
        out := out + [Update(handle)];
      } else {
        assert out + [] == out;
      }
      i := i + 1;
    }
    assert out + [] == out;
    r := Ok(out);
  }

  predicate IsRemoval(e: AssetEvent) {
    e.Removed?
  }

  /** A creation or modification of the active map. */
  predicate Touches(active: MapHandle, e: AssetEvent) {
    !e.Removed? && e.handle == active
  }

  function CountTouches(active: MapHandle, events: seq<AssetEvent>): nat {
    if events == [] then 0
    else (if Touches(active, events[0]) then 1 else 0) + CountTouches(active, events[1..])
  }

  /** Only the active map is ever asked to rebuild. */
  lemma {:induction false} OnlyActiveUpdated(active: MapHandle, events: seq<AssetEvent>)
    requires Detected(active, events).Ok?
    ensures forall e :: e in Detected(active, events).value ==> e == Update(active)
    decreases |events|
  {
    if events != [] && !events[0].Removed? {
      OnlyActiveUpdated(active, events[1..]);
    }
  }

  /** `n` update requests for map `h`. */
  function Updates(h: MapHandle, n: nat): (u: seq<MapEvent>)
    ensures |u| == n && forall e :: e in u ==> e == Update(h)
  {
    seq(n, _ => Update(h))
  }

  /** Without removals, every creation or modification of the active map,
      and nothing else, sends one update. */
  lemma {:induction false} OneUpdatePerTouch(active: MapHandle, events: seq<AssetEvent>)
    requires forall k :: 0 <= k < |events| ==> !IsRemoval(events[k])
    ensures Detected(active, events) == Ok(Updates(active, CountTouches(active, events)))
    decreases |events|
  {
    if events != [] {
      assert !IsRemoval(events[0]);
      OneUpdatePerTouch(active, events[1..]);
      var n := CountTouches(active, events[1..]);
      var here := if Touches(active, events[0]) then [Update(active)] else [];
      assert Detected(active, events) == Prepend(here, Detected(active, events[1..]));
      if Touches(active, events[0]) {
        assert Updates(active, n + 1) == [Update(active)] + Updates(active, n);
      } else {
        assert [] + Updates(active, n) == Updates(active, n);
      }
    }
  }

  /** Removing another map ends the batch: nothing after it is looked at. */
  lemma {:induction false} ForeignRemovalEndsBatch(active: MapHandle, prefix: seq<AssetEvent>, h: MapHandle,
                                                   rest: seq<AssetEvent>)
    requires forall k :: 0 <= k < |prefix| ==> !IsRemoval(prefix[k])
    requires h != active
    ensures Detected(active, prefix + [Removed(h)] + rest) == Detected(active, prefix)
    decreases |prefix|
  {
    if prefix == [] {
      assert prefix + [Removed(h)] + rest == [Removed(h)] + rest;
    } else {
      assert (prefix + [Removed(h)] + rest)[1..] == prefix[1..] + [Removed(h)] + rest;
      ForeignRemovalEndsBatch(active, prefix[1..], h, rest);
    }
  }

  /** Removing the active map is fatal, whatever came before or after it. */
  lemma {:induction false} ActiveRemovalFatal(active: MapHandle, prefix: seq<AssetEvent>, rest: seq<AssetEvent>)
    requires forall k :: 0 <= k < |prefix| ==> !IsRemoval(prefix[k])
    ensures Detected(active, prefix + [Removed(active)] + rest) == Err(ActiveMapRemoved)
    decreases |prefix|
  {
    if prefix == [] {
      assert prefix + [Removed(active)] + rest == [Removed(active)] + rest;
    } else {
      assert (prefix + [Removed(active)] + rest)[1..] == prefix[1..] + [Removed(active)] + rest;
      ActiveRemovalFatal(active, prefix[1..], rest);
    }
  }
}
