// Output that arrives before a pane subscribes: a bounded replay window per channel.

module ReplayBuffer {
  import opened Options

  type Bytes = seq<int>

  datatype SessionEvent =
    | Data(channel: nat, bytes: Bytes)
    | ExtendedData(channel: nat, bytes: Bytes)
    | ExitStatus(channel: nat, status: nat)
    | ExitSignal(channel: nat, signal: Bytes)
    | ChannelClosed(channel: nat)
    | AuthBanner(text: Bytes)
    | Disconnected(description: Bytes)
    | Error(description: Bytes)
  {
    function Channel(): Option<nat> {
      if AuthBanner? || Disconnected? || Error? then None else Some(channel)
    }

    function Size(): nat {
      match this
      case Data(_, bytes) => |bytes|
      case ExtendedData(_, bytes) => |bytes|
      case ExitSignal(_, signal) => |signal|
      case ExitStatus(_, _) => 1
      case ChannelClosed(_) => 1
      case AuthBanner(text) => |text|
      case Disconnected(description) => |description|
      case Error(description) => |description|
    }
  }

  const MAX_PENDING_PANE_BYTES := 256 * 1024
  const MAX_PENDING_PANE_EVENTS := 256

  // 64-bit `usize`; no allocation is larger than ISIZE_MAX bytes.
  const USIZE_MAX := 0xFFFF_FFFF_FFFF_FFFF
  const ISIZE_MAX := 0x7FFF_FFFF_FFFF_FFFF

  function SaturatingAdd(a: nat, b: nat): nat { if a + b > USIZE_MAX then USIZE_MAX else a + b }
  function SaturatingSub(a: nat, b: nat): nat { if a < b then 0 else a - b }

  function Total(events: seq<SessionEvent>): nat {
    if events == [] then 0 else events[0].Size() + Total(events[1..])
  }

  predicate Fits(events: seq<SessionEvent>) {
    |events| <= MAX_PENDING_PANE_EVENTS && Total(events) <= MAX_PENDING_PANE_BYTES
  }

  // Drop from the front until both limits hold.
  function Window(history: seq<SessionEvent>): seq<SessionEvent> {
    if Fits(history) then history else Window(history[1..])
  }

  // That is the longest suffix within both limits.
  lemma {:induction false} WindowIsLongestSuffix(history: seq<SessionEvent>)
    ensures var window := Window(history);
            && |window| <= 256 && Total(window) <= 262144
            && |window| <= |history| && window == history[|history| - |window|..]
            && forall k | 0 <= k < |history| - |window| :: |history[k..]| > 256 || Total(history[k..]) > 262144
  {
    if !Fits(history) {
      WindowIsLongestSuffix(history[1..]);
      forall k | 0 <= k < |history| - |Window(history)| ensures !Fits(history[k..]) {
        if k == 0 {
          assert history[0..] == history;
        } else {
          assert history[k..] == history[1..][k - 1..];
        }
      }
    } else {
      assert history[0..] == history;
    }
  }

  // The total counts every event once, by its payload, or one where there is none.
  lemma TotalOfOne(event: SessionEvent)
    ensures Total([event]) == event.Size() && Total([]) == 0
    ensures event.Data? || event.ExtendedData? ==> event.Size() == |event.bytes|
    ensures event.ExitStatus? || event.ChannelClosed? ==> event.Size() == 1
    ensures event.ExitSignal? ==> event.Size() == |event.signal|
    ensures event.AuthBanner? ==> event.Size() == |event.text|
    ensures event.Disconnected? || event.Error? ==> event.Size() == |event.description|
    ensures event.Channel() == None <==> event.AuthBanner? || event.Disconnected? || event.Error?
    ensures event.Channel().Some? ==> event.Channel().value == event.channel
  {
    assert [event][1..] == [];
  }

  lemma {:induction false} TotalAppend(a: seq<SessionEvent>, b: seq<SessionEvent>)
    ensures Total(a + b) == Total(a) + Total(b)
  {
    if a == [] {
      assert a + b == b;
    } else {
      assert (a + b)[1..] == a[1..] + b;
      TotalAppend(a[1..], b);
    }
  }

  // Cutting as events come is cutting once at the end.
  lemma {:induction false} WindowOfWindow(history: seq<SessionEvent>, event: SessionEvent)
    ensures Window(Window(history) + [event]) == Window(history + [event])
  {
    if !Fits(history) {
      TotalAppend(history, [event]);
      assert (history + [event])[1..] == history[1..] + [event];
      WindowOfWindow(history[1..], event);
    }
  }

  // A buffer after taking `events` one by one.
  function PushAll(buffer: seq<SessionEvent>, events: seq<SessionEvent>): seq<SessionEvent>
    decreases |events|
  {
    if events == [] then buffer else PushAll(Window(buffer + [events[0]]), events[1..])
  }

  lemma {:induction false} PushAllIsWindow(history: seq<SessionEvent>, events: seq<SessionEvent>)
    ensures PushAll(Window(history), events) == Window(history + events)
    decreases |events|
  {
    if events == [] {
      assert history + events == history;
    } else {
      WindowOfWindow(history, events[0]);
      PushAllIsWindow(history + [events[0]], events[1..]);
      assert history + events == history + [events[0]] + events[1..];
    }
  }

  class PendingPaneEvents {
    var events: seq<SessionEvent>
    var bytes: nat

    ghost predicate Valid()
      reads this
    {
      bytes == Total(events) && Fits(events)
    }

    constructor (events: seq<SessionEvent>)
      requires Fits(events)
      ensures Valid() && this.events == events
    {
      this.events, bytes := events, Total(events);
    }

    // `push_pending_event` on one channel's entry.
    method Push(event: SessionEvent)
      requires Valid() && event.Size() <= ISIZE_MAX
      modifies this
      ensures Valid() && events == Window(old(events) + [event])
    {
      TotalAppend(events, [event]);
      bytes := SaturatingAdd(bytes, event.Size());
      events := events + [event];
      while |events| > MAX_PENDING_PANE_EVENTS || bytes > MAX_PENDING_PANE_BYTES
        invariant bytes == Total(events)
        invariant Window(events) == Window(old(events) + [event])
        decreases |events|
      {
        if events == [] { break; }
        var removed := events[0];
        events := events[1..];
        bytes := SaturatingSub(bytes, removed.Size());
      }
    }
  }
}
