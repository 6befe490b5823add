// The push channel behind `/api/updates` (app/api/updates/route.js) and the shared
// emitter it registers on (app/lib/eventBus.js). Every open connection is a stream
// whose frames are recorded in order; an `order-update` emission writes one frame to
// every connection whose listener is still registered.
module Updates {
  import opened Js

  const ConnectedFrame: string := "data: connected\n\n"
  const UpdateFrame: string := "data: update\n\n"
  const MaxListeners: nat := 100

  /** The response headers of the event stream. */
  const StreamHeaders: seq<(string, string)> := [
    ("Content-Type", "text/event-stream"),
    ("Cache-Control", "no-cache, no-transform"),
    ("Connection", "keep-alive")]

  /** The frames of one connection: the connection notice, then update signals only. */
  predicate WellFormed(f: seq<string>) {
    |f| > 0 && f[0] == ConnectedFrame && forall i :: 1 <= i < |f| ==> f[i] == UpdateFrame
  }

  predicate Distinct(s: seq<nat>) {
    forall i, j :: 0 <= i < j < |s| ==> s[i] != s[j]
  }

  /** `emitter.off(event, listener)`: the registrations other than `id`, in their order. */
  function Remaining(s: seq<nat>, id: nat): (r: seq<nat>)
    ensures forall c :: c in r <==> c in s && c != id
    ensures |r| <= |s|
  {
    if s == [] then [] else (if s[0] == id then [] else [s[0]]) + Remaining(s[1..], id)
  }

  /** Unregistering keeps the registrations free of duplicates. */
  lemma {:induction false} RemainingDistinct(s: seq<nat>, id: nat)
    requires Distinct(s)
    ensures Distinct(Remaining(s, id))
  {
    if s != [] {
      RemainingDistinct(s[1..], id);
      var rest := Remaining(s[1..], id);
      if s[0] != id {
        assert s[0] !in s[1..];
        assert s[0] !in rest;
        var r := [s[0]] + rest;
        forall i, j | 0 <= i < j < |r| ensures r[i] != r[j] {
          if i == 0 { assert r[j] in rest; }
          else { assert r[i] == rest[i - 1] && r[j] == rest[j - 1]; }
        }
      }
    }
  }

  /** Number of the registered connections in `s` whose write fails. */
  function FailedWrites(s: seq<nat>, failing: set<nat>): (n: nat)
    ensures n <= |s|
    ensures (forall c :: c in s ==> c !in failing) ==> n == 0
  {
    if s == [] then 0 else FailedWrites(s[..|s| - 1], failing) + (if s[|s| - 1] in failing then 1 else 0)
  }

  /** The streams after the listeners in `s` have written, in order, one update frame
      each, skipping the writes in `failing`. */
  function Delivered(f: map<nat, seq<string>>, s: seq<nat>, failing: set<nat>): map<nat, seq<string>>
  {
    if s == [] then f
    else
      var g := Delivered(f, s[..|s| - 1], failing);
      var c := s[|s| - 1];
      if c in failing || c !in g then g else g[c := g[c] + [UpdateFrame]]
  }

  /** With each connection registered once, an emission adds exactly one update frame
      to every registered connection whose write succeeds and nothing to the others. */
  lemma {:induction false} DeliveredFrames(f: map<nat, seq<string>>, s: seq<nat>, failing: set<nat>)
    requires Distinct(s)
    ensures Delivered(f, s, failing).Keys == f.Keys
    ensures forall c :: c in f ==>
      Delivered(f, s, failing)[c] == f[c] + (if c in s && c !in failing then [UpdateFrame] else [])
  {
    if s != [] {
      var init := s[..|s| - 1];
      var last := s[|s| - 1];
      assert Distinct(init);
      DeliveredFrames(f, init, failing);
      assert s == init + [last];
      assert last !in init by {
        forall j | 0 <= j < |init| ensures init[j] != last { assert init[j] == s[j]; }
      }
    }
  }

  /** The listeners' loop of an emission: each listener in turn writes its frame, or
      fails and is counted. */
  method Deliver(f: map<nat, seq<string>>, s: seq<nat>, failing: set<nat>) returns (g: map<nat, seq<string>>, failed: nat)
    ensures g == Delivered(f, s, failing)
    ensures failed == FailedWrites(s, failing)
  {
    g, failed := f, 0;
    var i := 0;
    while i < |s|
      invariant 0 <= i <= |s|
      invariant g == Delivered(f, s[..i], failing)
      invariant failed == FailedWrites(s[..i], failing)
    {
      var c := s[i];
      assert s[..i + 1] == s[..i] + [c];
      if c in failing {
        failed := failed + 1;
      } else if c in g {
        g := g[c := g[c] + [UpdateFrame]];
      }
      i := i + 1;
    }
    assert s[..i] == s;
  }

  /** Update signals appended to a well-formed stream keep it well formed. */
  lemma AppendUpdate(f: seq<string>, more: seq<string>)
    requires WellFormed(f) && forall i :: 0 <= i < |more| ==> more[i] == UpdateFrame
    ensures WellFormed(f + more)
  {
    var g := f + more;
    forall i | 1 <= i < |g| ensures g[i] == UpdateFrame {
      if i < |f| { assert g[i] == f[i]; } else { assert g[i] == more[i - |f|]; }
    }
  }

  /** The shared emitter with the connections that have been made. */
  class EventBus {
    /** The `order-update` listeners, one per connection id, in registration order. */
    var listeners: seq<nat>
    /** The frames written to each connection's stream. */
    var frames: map<nat, seq<string>>
    /** The connections whose writer has been closed. */
    var closed: set<nat>
    /** Write failures logged to the console. */
    var errors: nat
    var nextId: nat
    var maxListeners: nat

    ghost predicate Valid()
      reads this
    {
      && Distinct(listeners)
      && (forall c :: c in listeners ==> c in frames && c !in closed)
      && (forall c :: c in frames ==> c < nextId && WellFormed(frames[c]))
      && (forall c :: c in closed ==> c in frames)
    }

    /** `new EventEmitter()` with `setMaxListeners(100)`. */
    constructor ()
      ensures Valid()
      ensures listeners == [] && frames == map[] && closed == {} && errors == 0
      ensures maxListeners == MaxListeners
    {
      listeners, frames, closed, errors, nextId := [], map[], {}, 0, 0;
      maxListeners := MaxListeners;
    }

    /** `GET /api/updates`: the new stream starts with the connection notice, its
        listener is registered last, and the response carries the stream headers. */
    method Connect() returns (id: nat, headers: seq<(string, string)>)
      requires Valid()
      modifies this
      ensures Valid()
      ensures id !in old(frames)
      ensures listeners == old(listeners) + [id]
      ensures frames == old(frames)[id := [ConnectedFrame]]
      ensures closed == old(closed) && errors == old(errors) && maxListeners == old(maxListeners)
      ensures headers == StreamHeaders
    {
      id := nextId;
      assert id !in listeners;
      nextId := nextId + 1;
      frames := frames[id := [ConnectedFrame]];
      listeners := listeners + [id];
      headers := StreamHeaders;
    }

    /** `eventBus.emit('order-update')`: every registered listener writes one update
        frame; a write that fails (the `failing` connections) is logged and swallowed,
        and its listener stays registered. */
    method Emit(failing: set<nat>)
      requires Valid()
      modifies this`frames, this`errors
      ensures Valid()
      ensures frames.Keys == old(frames).Keys
      ensures forall c :: c in frames ==>
        frames[c] == old(frames)[c] + (if c in listeners && c !in failing then [UpdateFrame] else [])
      ensures errors == old(errors) + FailedWrites(listeners, failing)
    {
      var fs, failed := Deliver(frames, listeners, failing);
      DeliveredFrames(frames, listeners, failing);
      forall c | c in fs ensures WellFormed(fs[c]) {
        AppendUpdate(frames[c], if c in listeners && c !in failing then [UpdateFrame] else []);
      }
      frames, errors := fs, errors + failed;
    }

    /** The request's `abort`: the connection's listener is unregistered and its
        writer closed; its frames stay as they were written. */
    method Abort(id: nat)
      requires Valid() && id in frames
      modifies this`listeners, this`closed
      ensures Valid()
      ensures listeners == Remaining(old(listeners), id)
      ensures closed == old(closed) + {id}
    {
      RemainingDistinct(listeners, id);
      listeners := Remaining(listeners, id);
      closed := closed + {id};
    }
  }

  /** The process-wide slot `global.orderEventBus`. */
  class Global {
    var orderEventBus: Option<EventBus>

    constructor ()
      ensures orderEventBus == None
    {
      orderEventBus := None;
    }

    /** Loading app/lib/eventBus.js: the emitter is created only when the global is
        empty, so every importer gets the same one. */
    method Import() returns (bus: EventBus)
      modifies this
      ensures orderEventBus == Some(bus)
      ensures old(orderEventBus).Some? ==> bus == old(orderEventBus).value
      ensures old(orderEventBus).None? ==> fresh(bus) && bus.Valid() && bus.listeners == []
    {
      if orderEventBus.None? {
        var created := new EventBus();
        orderEventBus := Some(created);
      }
      bus := orderEventBus.value;
    }
  }
}
