/**
 * The chanting page's one shared audio element (`audioRef.current`) as the clip branch of
 * `speak` and the chant-cycle cleanup use it. Each `speak` call sets the source, attaches its
 * own `'ended'` listener and calls `play()`. The listener runs the completion callback of the
 * chant-cycle effect instance that issued the call, then detaches itself. A rejected `play()`
 * promise also runs that callback. A cleanup pauses and rewinds the element.
 *
 * Browser facts the model relies on: a new load or a pause supersedes an unsettled `play()`,
 * and a superseded promise rejects. `'ended'` fires only after the current play has started,
 * and it runs every attached listener in attachment order.
 */
module HomeAudio {
  import opened Wrappers

  /**
   * The `handleAudioEnd` closure of one `speak` call. `id` tells the calls apart. `owner` is
   * the effect instance whose completion callback the closure runs. The `play()` promise of
   * that call carries the same tag.
   */
  datatype Listener = Listener(id: nat, owner: nat)

  datatype Element = Element(
    listeners: seq<Listener>,   // attached 'ended' listeners, oldest first
    plays: seq<Listener>,       // play() promises not yet settled, oldest first
    current: Option<Listener>,  // the play the element is loaded with, until paused, ended or rejected
    playing: bool)              // the current play has started

  const Idle: Element := Element([], [], None, false)

  /** What an event leaves behind: the new element and the owners whose callbacks ran, in order. */
  datatype Fired = Fired(element: Element, owners: seq<nat>)

  /** `audio.src = url; audio.addEventListener('ended', ...); audio.play()`. */
  function Play(a: Element, call: Listener): (r: Element)
    ensures r.listeners == a.listeners + [call] && r.plays == a.plays + [call]
    ensures r.current == Some(call) && !r.playing
  {
    Element(a.listeners + [call], a.plays + [call], Some(call), false)
  }

  /** The cleanup's `pause()` and `currentTime = 0`; listeners stay attached. */
  function Pause(a: Element): (r: Element)
    ensures r.listeners == a.listeners && r.plays == a.plays
    ensures r.current == None && !r.playing
  {
    a.(current := None, playing := false)
  }

  function Owners(s: seq<Listener>): (o: seq<nat>)
    ensures |o| == |s| && forall i :: 0 <= i < |s| ==> o[i] == s[i].owner
  {
    if s == [] then [] else [s[0].owner] + Owners(s[1..])
  }

  /** How many of `owners` are the live effect instance (none when `live` is None). */
  function CountLive(owners: seq<nat>, live: Option<nat>): nat {
    if owners == [] then 0
    else (if Some(owners[0]) == live then 1 else 0) + CountLive(owners[1..], live)
  }

  function LiveListeners(a: Element, live: Option<nat>): nat {
    CountLive(Owners(a.listeners), live)
  }

  /** `removeEventListener('ended', handleAudioEnd)`: detaches that one closure. */
  function Detach(s: seq<Listener>, call: Listener): (r: seq<Listener>)
    ensures forall l :: l in r <==> l in s && l != call
  {
    if s == [] then [] else (if s[0] == call then [] else [s[0]]) + Detach(s[1..], call)
  }

  function RemoveAt(s: seq<Listener>, i: nat): (r: seq<Listener>)
    requires i < |s|
    ensures |r| == |s| - 1
  {
    s[..i] + s[i + 1..]
  }

  /**
   * The `i`-th unsettled `play()` promise settles. Only the current play can start; a promise
   * that was superseded rejects whatever `resolved` says. On rejection the `catch` runs the
   * completion callback. This is the corrected handler: it also detaches the call's `'ended'`
   * listener, so that the callback cannot run a second time.
   */
  function Settle(a: Element, i: nat, resolved: bool): (r: Fired)
    requires i < |a.plays|
    ensures r.element.plays == RemoveAt(a.plays, i)
    ensures resolved && a.current == Some(a.plays[i]) ==>
              r.owners == [] && r.element.playing && r.element.listeners == a.listeners
    ensures !(resolved && a.current == Some(a.plays[i])) ==>
              r.owners == [a.plays[i].owner] && a.plays[i] !in r.element.listeners &&
              forall l :: l in a.listeners && l != a.plays[i] ==> l in r.element.listeners
  {
    var p := a.plays[i];
    var rest := RemoveAt(a.plays, i);
    if resolved && a.current == Some(p) then
      Fired(a.(plays := rest, playing := true), [])
    else
      Fired(Element(Detach(a.listeners, p), rest, if a.current == Some(p) then None else a.current,
                    a.playing && a.current != Some(p)), [p.owner])
  }

  /**
   * `Settle` as the source writes it: the promise leaves the unsettled plays, and a rejection
   * runs the callback but leaves the listener attached.
   */
  function SettleAsWritten(a: Element, i: nat, resolved: bool): (r: Fired)
    requires i < |a.plays|
    ensures r.element.listeners == a.listeners && r.element.plays == RemoveAt(a.plays, i)
    ensures resolved && a.current == Some(a.plays[i]) ==>
              r.owners == [] && r.element.playing && r.element.current == a.current
    ensures !(resolved && a.current == Some(a.plays[i])) ==>
              r.owners == [a.plays[i].owner] &&
              r.element.current == (if a.current == Some(a.plays[i]) then None else a.current) &&
              r.element.playing == (a.playing && a.current != Some(a.plays[i]))
  {
    var f := Settle(a, i, resolved);
    Fired(f.element.(listeners := a.listeners), f.owners)
  }

  /** The `'ended'` event: every attached listener runs once and detaches itself. */
  function Ended(a: Element): (r: Fired)
    ensures !a.playing ==> r == Fired(a, [])
    ensures a.playing ==> r.element.listeners == [] && r.owners == Owners(a.listeners)
  {
    if !a.playing then Fired(a, []) else Fired(Element([], a.plays, None, false), Owners(a.listeners))
  }

  predicate Ordered(s: seq<Listener>) {
    forall i, j :: 0 <= i < j < |s| ==> s[i].id < s[j].id
  }

  predicate Issued(s: seq<Listener>, epoch: nat, nextId: nat) {
    forall l :: l in s ==> l.id < nextId && l.owner <= epoch
  }

  /**
   * The bookkeeping the corrected page keeps. Calls are numbered in order below `nextId`.
   * Owners are effect instances up to `epoch`. Everything the live instance has attached belongs
   * to the play the element is loaded with. A live play that has not settled still has its
   * listener and has not started.
   */
  ghost predicate Coherent(a: Element, live: Option<nat>, epoch: nat, nextId: nat) {
    Ordered(a.listeners) && Ordered(a.plays) &&
    Issued(a.listeners, epoch, nextId) && Issued(a.plays, epoch, nextId) &&
    (live.Some? ==> live.value == epoch) &&
    (a.current.Some? ==> Some(a.current.value.owner) == live) &&
    (a.playing ==> a.current.Some?) &&
    (forall l :: l in a.listeners && Some(l.owner) == live ==> a.current == Some(l)) &&
    (forall p :: p in a.plays && Some(p.owner) == live ==>
       a.current == Some(p) && !a.playing && p in a.listeners)
  }

  lemma {:induction false} CountLiveConcat(x: seq<nat>, y: seq<nat>, live: Option<nat>)
    ensures CountLive(x + y, live) == CountLive(x, live) + CountLive(y, live)
  {
    if x == [] {
      assert x + y == y;
    } else {
      assert (x + y)[1..] == x[1..] + y;
      CountLiveConcat(x[1..], y, live);
    }
  }

  lemma {:induction false} OwnersConcat(x: seq<Listener>, y: seq<Listener>)
    ensures Owners(x + y) == Owners(x) + Owners(y)
  {
  }

  /** Nothing attached can be live when no owner is. */
  lemma {:induction false} NoneLive(s: seq<Listener>, live: Option<nat>)
    requires forall l :: l in s ==> Some(l.owner) != live
    ensures CountLive(Owners(s), live) == 0
  {
    if s != [] {
      assert Owners(s)[1..] == Owners(s[1..]);
      NoneLive(s[1..], live);
    }
  }

  /** Exactly one attached listener is live: `call`, which occurs once. */
  lemma {:induction false} OnlyLive(s: seq<Listener>, call: Listener, live: Option<nat>)
    requires Ordered(s) && call in s && Some(call.owner) == live
    requires forall l :: l in s && Some(l.owner) == live ==> l == call
    ensures CountLive(Owners(s), live) == 1
  {
    assert Owners(s)[1..] == Owners(s[1..]);
    if s[0] == call {
      forall l | l in s[1..] ensures Some(l.owner) != live {
        var j :| 0 <= j < |s[1..]| && s[1..][j] == l;
        assert s[0].id < s[j + 1].id;
      }
      NoneLive(s[1..], live);
    } else {
      OnlyLive(s[1..], call, live);
    }
  }

  /** The live instance has at most one listener attached. */
  lemma LiveListenersAtMostOne(a: Element, live: Option<nat>, epoch: nat, nextId: nat)
    requires Coherent(a, live, epoch, nextId)
    ensures LiveListeners(a, live) <= 1
  {
    if exists l :: l in a.listeners && Some(l.owner) == live {
      var l :| l in a.listeners && Some(l.owner) == live;
      OnlyLive(a.listeners, l, live);
    } else {
      NoneLive(a.listeners, live);
    }
  }

  lemma {:induction false} DetachKeepsOrder(s: seq<Listener>, call: Listener)
    requires Ordered(s)
    ensures Ordered(Detach(s, call)) && forall l :: l in Detach(s, call) ==> l in s
  {
    if s != [] {
      DetachKeepsOrder(s[1..], call);
      var r := Detach(s, call);
      var head := if s[0] == call then [] else [s[0]];
      assert r == head + Detach(s[1..], call);
      forall i, j | 0 <= i < j < |r| ensures r[i].id < r[j].id {
        if head != [] && i == 0 {
          assert r[j] in Detach(s[1..], call);
          var k :| 0 <= k < |s[1..]| && s[1..][k] == r[j];
          assert s[0].id < s[k + 1].id;
        } else {
          assert r[i] == Detach(s[1..], call)[i - |head|];
          assert r[j] == Detach(s[1..], call)[j - |head|];
        }
      }
    }
  }

  lemma {:induction false} RemoveAtKeepsOrder(s: seq<Listener>, i: nat)
    requires Ordered(s) && i < |s|
    ensures Ordered(RemoveAt(s, i)) && forall l :: l in RemoveAt(s, i) ==> l in s
  {
    var r := RemoveAt(s, i);
    forall j | 0 <= j < |r| ensures r[j] == s[if j < i then j else j + 1] {
      if j < i { assert r[j] == s[..i][j]; } else { assert r[j] == s[i + 1..][j - i]; }
    }
  }

  /** Detaching a call removes its own live listener, if it had one, and no other. */
  lemma {:induction false} DetachCount(s: seq<Listener>, call: Listener, live: Option<nat>)
    requires Ordered(s)
    ensures CountLive(Owners(Detach(s, call)), live) + (if call in s && Some(call.owner) == live then 1 else 0)
            == CountLive(Owners(s), live)
  {
    if s != [] {
      DetachCount(s[1..], call, live);
      var head := if s[0] == call then [] else [s[0]];
      assert Detach(s, call) == head + Detach(s[1..], call);
      OwnersConcat(head, Detach(s[1..], call));
      CountLiveConcat(Owners(head), Owners(Detach(s[1..], call)), live);
      assert Owners(s)[1..] == Owners(s[1..]);
      if s[0] == call {
        assert call !in s[1..] by {
          forall k | 0 <= k < |s[1..]| ensures s[1..][k] != call {
            assert s[0].id < s[k + 1].id;
          }
        }
      }
    }
  }

  /** A new call, numbered `nextId`, goes after every earlier one. */
  lemma AppendIssued(s: seq<Listener>, epoch: nat, nextId: nat)
    requires Ordered(s) && Issued(s, epoch, nextId)
    ensures Ordered(s + [Listener(nextId, epoch)]) && Issued(s + [Listener(nextId, epoch)], epoch, nextId + 1)
  {
    var r := s + [Listener(nextId, epoch)];
    forall i, j | 0 <= i < j < |r| ensures r[i].id < r[j].id {
      assert r[i] == s[i];
      if j < |s| { assert r[j] == s[j]; } else { assert s[i] in s; }
    }
  }

  /** With no live listener counted, no attached listener belongs to the live instance. */
  lemma NoLiveListener(a: Element, epoch: nat, nextId: nat)
    requires Coherent(a, Some(epoch), epoch, nextId)
    requires LiveListeners(a, Some(epoch)) == 0
    ensures forall l :: l in a.listeners ==> l.owner != epoch
  {
    forall l | l in a.listeners ensures l.owner != epoch {
      if l.owner == epoch {
        OnlyLive(a.listeners, l, Some(epoch));
      }
    }
  }

  /** A call made for the live instance when it had nothing attached: the one live listener. */
  lemma PlayCoherent(a: Element, epoch: nat, nextId: nat)
    requires Coherent(a, Some(epoch), epoch, nextId)
    requires LiveListeners(a, Some(epoch)) == 0
    ensures Coherent(Play(a, Listener(nextId, epoch)), Some(epoch), epoch, nextId + 1)
    ensures LiveListeners(Play(a, Listener(nextId, epoch)), Some(epoch)) == 1
  {
    var call := Listener(nextId, epoch);
    var r := Play(a, call);
    NoLiveListener(a, epoch, nextId);
    AppendIssued(a.listeners, epoch, nextId);
    AppendIssued(a.plays, epoch, nextId);
    OnlyLive(r.listeners, call, Some(epoch));
  }

  /** After a cleanup the next instance `epoch + 1` owns nothing on the element. */
  lemma PauseCoherent(a: Element, live: Option<nat>, epoch: nat, nextId: nat, newLive: Option<nat>)
    requires Coherent(a, live, epoch, nextId)
    requires newLive == None || newLive == Some(epoch + 1)
    ensures Coherent(Pause(a), newLive, if newLive == None then epoch else epoch + 1, nextId)
    ensures LiveListeners(Pause(a), newLive) == 0
  {
    NoneLive(a.listeners, newLive);
  }

  /**
   * Settling a play keeps the bookkeeping coherent and conserves the live instance's pending
   * callbacks: a live callback still waits on the element or has just run.
   */
  lemma SettleCoherent(a: Element, i: nat, resolved: bool, live: Option<nat>, epoch: nat, nextId: nat)
    requires Coherent(a, live, epoch, nextId) && i < |a.plays|
    ensures Coherent(Settle(a, i, resolved).element, live, epoch, nextId)
    ensures LiveListeners(a, live)
            == LiveListeners(Settle(a, i, resolved).element, live) + CountLive(Settle(a, i, resolved).owners, live)
  {
    var p := a.plays[i];
    var r := Settle(a, i, resolved);
    RemoveAtKeepsOrder(a.plays, i);
    if !(resolved && a.current == Some(p)) {
      DetachKeepsOrder(a.listeners, p);
      DetachCount(a.listeners, p, live);
      assert CountLive([p.owner], live) == (if Some(p.owner) == live then 1 else 0);
    }
  }

  /** The `'ended'` event runs exactly the callbacks attached, so the live count is conserved. */
  lemma EndedCoherent(a: Element, live: Option<nat>, epoch: nat, nextId: nat)
    requires Coherent(a, live, epoch, nextId)
    ensures Coherent(Ended(a).element, live, epoch, nextId)
    ensures LiveListeners(a, live) == LiveListeners(Ended(a).element, live) + CountLive(Ended(a).owners, live)
  {
  }

  /**
   * The source's handler is not coherent: a play of instance 7 is rejected (its callback runs),
   * the cycle re-arms and plays again, and the next `'ended'` runs the callback of instance 7
   * twice, once through the listener the rejected call left behind.
   */
  lemma LeakedListenerFiresTwice()
    ensures var a1 := Play(Idle, Listener(0, 7));
            var r1 := SettleAsWritten(a1, 0, false);
            var a2 := Play(r1.element, Listener(1, 7));
            var r2 := SettleAsWritten(a2, 0, true);
            var r3 := Ended(r2.element);
            r1.owners == [7] && r2.owners == [] && r3.owners == [7, 7]
  {
  }

  /** The same events with the corrected handler run the callback once per playback. */
  lemma DetachedListenerFiresOnce()
    ensures var a1 := Play(Idle, Listener(0, 7));
            var r1 := Settle(a1, 0, false);
            var a2 := Play(r1.element, Listener(1, 7));
            var r2 := Settle(a2, 0, true);
            var r3 := Ended(r2.element);
            r1.owners == [7] && r2.owners == [] && r3.owners == [7]
  {
    var a1 := Play(Idle, Listener(0, 7));
    assert Detach(a1.listeners, Listener(0, 7)) == [];
  }
}
