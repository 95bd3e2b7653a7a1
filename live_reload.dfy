/**
 * The live-reload hub (`liveReloadServer`): the set of browser connections
 * that get a "reload" message whenever the watched site folder changes.
 *
 * Each locked section of the Go code (register, unregister, the whole of
 * `notifyClients`) is one method here, so every method is one atomic step
 * on the client set. Connections are abstract ids; whether writing to a
 * connection fails is an input (`failing`), since the socket is not part
 * of the model.
 */
module LiveReload {

  import opened Wrappers

  /** Identity of one upgraded websocket connection (a `*websocket.Conn`). */
  type ConnId = nat

  /** fsnotify's `Op`: a bit mask of the kinds of change an event reports. */
  type Op = bv32

  const Create: Op := 1
  const Write: Op := 2
  const Remove: Op := 4
  const Rename: Op := 8
  const Chmod: Op := 16

  /**
   * The watcher's filter: an event causes a broadcast when its mask has
   * any of the write, create, remove or rename bits. A change of
   * permissions alone does not.
   */
  predicate TriggersReload(op: Op)
    ensures TriggersReload(op) ==> op != 0 && op != Chmod
  {
    op & (Write | Create | Remove | Rename) != 0
  }

  /** The filter accepts exactly the events that carry one of the four content-changing kinds. */
  lemma TriggersReloadIff(op: Op)
    ensures TriggersReload(op) <==>
      (op & Create == Create || op & Write == Write || op & Remove == Remove || op & Rename == Rename)
    ensures !TriggersReload(Chmod) && !TriggersReload(0)
    ensures TriggersReload(op | Chmod) == TriggersReload(op)
  {
  }

  /** One atomic step on the client set, as the hub's locked sections perform them. */
  datatype HubEvent =
    | Connect(conn: ConnId)
    | Disconnect(conn: ConnId)
    | FileChange(op: Op, failing: set<ConnId>)

  /**
   * The client set after one step: each connection keeps its membership
   * unless the step bears on it, and then takes what the step gives it.
   */
  function Step(clients: set<ConnId>, e: HubEvent): (r: set<ConnId>)
    ensures forall c :: c in r <==>
      match Touch(e, c)
      case Some(member) => member
      case None => c in clients
  {
    match e
    case Connect(c) => clients + {c}
    case Disconnect(c) => clients - {c}
    case FileChange(op, failing) => if TriggersReload(op) then clients - failing else clients
  }

  /**
   * The client set after a run of steps, taken in order: every client at
   * the end was a client at the start or was connected by some step.
   */
  function Run(clients: set<ConnId>, events: seq<HubEvent>): (r: set<ConnId>)
    ensures forall c :: c in r ==> c in clients || exists k :: 0 <= k < |events| && events[k] == Connect(c)
  {
    if events == [] then clients
    else Step(Run(clients, events[..|events| - 1]), events[|events| - 1])
  }

  /**
   * How a step bears on one connection: `Some(true)` when it makes the
   * connection a member, `Some(false)` when it makes it a non-member,
   * `None` when it leaves its membership alone.
   */
  function Touch(e: HubEvent, c: ConnId): Option<bool>
  {
    match e
    case Connect(d) => if d == c then Some(true) else None
    case Disconnect(d) => if d == c then Some(false) else None
    case FileChange(op, failing) => if TriggersReload(op) && c in failing then Some(false) else None
  }

  /** The last step of a run that bears on `c`, if any. */
  function LastTouch(events: seq<HubEvent>, c: ConnId): Option<bool>
  {
    if events == [] then None
    else
      match Touch(events[|events| - 1], c)
      case Some(b) => Some(b)
      case None => LastTouch(events[..|events| - 1], c)
  }

  /**
   * Membership after any interleaving of connects, disconnects and
   * broadcasts: a connection is a client exactly when the last step that
   * bore on it connected it, or, when no step bore on it, when it was a
   * client to begin with. In particular, nothing joins the set except by
   * connecting, and a disconnect or a failed write removes for good until
   * the next connect.
   */
  lemma {:induction false} RunMembership(clients: set<ConnId>, events: seq<HubEvent>, c: ConnId)
    ensures c in Run(clients, events) <==>
      match LastTouch(events, c)
      case Some(member) => member
      case None => c in clients
  {
    if events != [] {
      RunMembership(clients, events[..|events| - 1], c);
    }
  }

  /** `liveReloadServer`: the client set behind its mutex. */
  class Hub {
    var clients: set<ConnId>

    /** `newLiveReloadServer`: no clients yet. */
    constructor ()
      ensures clients == {}
    {
      clients := {};
    }

    /** The websocket handler's registration of a freshly upgraded connection. */
    method Register(c: ConnId)
      modifies this
      ensures clients == old(clients) + {c}
      ensures clients == Step(old(clients), Connect(c))
    {
      clients := clients + {c};
    }

    /**
     * The websocket handler's removal of a connection whose read failed.
     * Removing a connection that is not a member changes nothing.
     */
    method Unregister(c: ConnId)
      modifies this
      ensures clients == old(clients) - {c}
      ensures c !in old(clients) ==> clients == old(clients)
      ensures clients == Step(old(clients), Disconnect(c))
    {
      clients := clients - {c};
    }

    /**
     * `notifyClients`: writes the reload message to each client in turn.
     * A client whose write fails is closed and dropped, and the broadcast
     * carries on with the rest. `delivered` lists the clients written to
     * successfully, in write order; `dropped` is the set of clients closed.
     */
    method Broadcast(failing: set<ConnId>) returns (delivered: seq<ConnId>, dropped: set<ConnId>)
      modifies this
      ensures clients == old(clients) - failing
      ensures dropped == old(clients) * failing
      ensures forall c :: c in delivered <==> c in old(clients) && c !in failing
      ensures forall i, j :: 0 <= i < j < |delivered| ==> delivered[i] != delivered[j]
    {
      var remaining := clients;
      delivered, dropped := [], {};
      while remaining != {}
        invariant remaining <= old(clients)
        invariant dropped == (old(clients) - remaining) * failing
        invariant clients == old(clients) - dropped
        invariant forall c :: c in delivered <==> c in old(clients) - remaining && c !in failing
        invariant forall i, j :: 0 <= i < j < |delivered| ==> delivered[i] != delivered[j]
        decreases remaining
      {
        var c :| c in remaining;
        if c in failing {
          clients := clients - {c};
          dropped := dropped + {c};
        } else {
          delivered := delivered + [c];
        }
        remaining := remaining - {c};
      }
    }

    /**
     * The watcher loop's handling of one change event: a broadcast when
     * the event passes the filter, nothing otherwise.
     */
    method OnFileChange(op: Op, failing: set<ConnId>) returns (delivered: seq<ConnId>, dropped: set<ConnId>)
      modifies this
      ensures clients == Step(old(clients), FileChange(op, failing))
      ensures TriggersReload(op) ==> forall c :: c in delivered <==> c in old(clients) && c !in failing
      ensures TriggersReload(op) ==> dropped == old(clients) * failing
      ensures forall i, j :: 0 <= i < j < |delivered| ==> delivered[i] != delivered[j]
      ensures !TriggersReload(op) ==> delivered == [] && dropped == {} && clients == old(clients)
    {
      if TriggersReload(op) {
        delivered, dropped := Broadcast(failing);
      } else {
        delivered, dropped := [], {};
      }
    }
  }

  /**
   * Two tabs connect, a file is written, one tab goes away, and a file is
   * written again: both tabs get the first reload, only the remaining tab
   * gets the second, and the closed one is not written to again.
   */
  method TwoTabsScenario() returns (first: seq<ConnId>, second: seq<ConnId>, remaining: set<ConnId>)
    ensures forall c :: c in first <==> c == 1 || c == 2
    ensures forall c :: c in second <==> c == 2
    ensures remaining == {2}
  {
    var hub := new Hub();
    hub.Register(1);
    hub.Register(2);
    var dropped;
    first, dropped := hub.OnFileChange(Write, {});
    hub.Unregister(1);
    second, dropped := hub.OnFileChange(Write, {});
    remaining := hub.clients;
  }
}
