/**
 * The page/extension message bridge of extension/content.js.
 *
 * Two halves share the window's message channel: the content script, which
 * can reach extension storage and URL resolution and answers requests, and
 * the client injected into the page, which numbers its requests, remembers
 * the callbacks waiting for an answer, and routes answers back by id. The
 * URL lookup is the one synchronous call: it busy-waits for its answer for
 * up to a fixed budget. One loop iteration of that wait stands for one
 * millisecond, and what the event loop would deliver at each iteration is
 * a parameter, since the wait itself never yields to deliver anything.
 */
module MessageBridge {
  import opened Wrappers

  /** A structured-clone value carried in `data`. */
  datatype Value =
    | Absent
    | Bool(b: bool)
    | Num(n: int)
    | Text(s: string)
    | Record(fields: map<string, Value>)

  /** JavaScript truthiness of a value. */
  predicate Truthy(v: Value) {
    match v
    case Absent => false
    case Bool(b) => b
    case Num(n) => n != 0
    case Text(s) => s != ""
    case Record(_) => true
  }

  /**
   * A `message` event: whether its source is this window, then the fields of
   * `event.data` the bridge reads; a field the sender leaves out is `None`,
   * `Absent` or `""`. The keys of a `storage.get` are a list of names, or
   * `None` when the sender passed `null` or nothing, which asks for all of
   * storage. The path of a `runtime.getURL` is `None` when it is missing.
   */
  datatype Message = Message(
    fromWindow: bool,
    kind: string,
    id: int,
    action: string,
    keys: Option<seq<string>>,
    data: Value,
    path: Option<string>)

  const RequestType := "READER_REQUEST"
  const ResponseType := "READER_RESPONSE"
  const StorageGet := "storage.get"
  const StorageSet := "storage.set"
  const RuntimeGetURL := "runtime.getURL"

  /** How long `getURL` waits for its answer, in milliseconds. */
  const WaitBudget: nat := 100

  function Request(id: int, action: string, keys: Option<seq<string>>, data: Value, path: Option<string>): Message {
    Message(true, RequestType, id, action, keys, data, path)
  }

  function Response(id: int, data: Value): Message {
    Message(true, ResponseType, id, "", None, data, None)
  }

  const SuccessReply := Record(map["success" := Bool(true)])

  // ---------------------------------------------------------------------
  // The content script

  /** A request the content script accepts: from this window and of the request type. */
  predicate IsRequest(e: Message) {
    e.fromWindow && e.kind == RequestType
  }

  predicate KnownAction(action: string) {
    action == StorageGet || action == StorageSet || action == RuntimeGetURL
  }

  /** Whether a `storage.get` for `keys` returns the entry stored under `k`. */
  predicate Requested(keys: Option<seq<string>>, k: string) {
    keys.None? || k in keys.value
  }

  /**
   * What extension storage gives back for `keys`: the stored entries among
   * them, or everything stored when no keys were given.
   */
  function Lookup(storage: map<string, Value>, keys: Option<seq<string>>): map<string, Value> {
    map k | k in storage && Requested(keys, k) :: storage[k]
  }

  /**
   * A request the extension API carries out: `storage.set` needs an object
   * of entries and `runtime.getURL` a path, and each throws otherwise, so
   * such a request neither writes nor is answered.
   */
  predicate Accepted(e: Message) {
    && IsRequest(e) && KnownAction(e.action)
    && (e.action == StorageSet ==> e.data.Record?)
    && (e.action == RuntimeGetURL ==> e.path.Some?)
  }

  /** The extension URL of a packaged resource. */
  function ResolveURL(base: string, path: string): string {
    base + path
  }

  /**
   * The one answer the content script posts to an event, if any: exactly one
   * response carrying the request's id for each of the three actions, and
   * nothing for a foreign source, another type, an unknown action, a
   * `storage.set` of something other than an object or a `runtime.getURL`
   * without a path.
   */
  function Reply(storage: map<string, Value>, base: string, e: Message): (r: Option<Message>)
    ensures r.Some? <==> Accepted(e)
    ensures r.Some? ==> r.value.fromWindow && r.value.kind == ResponseType && r.value.id == e.id
    ensures r.Some? && e.action == StorageGet ==>
      r.value.data.Record? && r.value.data.fields.Keys <= storage.Keys &&
      forall k :: k in storage ==> (k in r.value.data.fields <==> e.keys.None? || k in e.keys.value)
    ensures r.Some? && e.action == StorageGet ==>
      forall k :: k in r.value.data.fields ==> r.value.data.fields[k] == storage[k]
    ensures r.Some? && e.action == StorageSet ==> r.value.data == SuccessReply
    ensures r.Some? && e.action == RuntimeGetURL ==> r.value.data == Text(ResolveURL(base, e.path.value))
  {
    if !IsRequest(e) then None
    else if e.action == StorageGet then Some(Response(e.id, Record(Lookup(storage, e.keys))))
    else if e.action == StorageSet then (if e.data.Record? then Some(Response(e.id, SuccessReply)) else None)
    else if e.action == RuntimeGetURL then
      (if e.path.Some? then Some(Response(e.id, Text(ResolveURL(base, e.path.value)))) else None)
    else None
  }

  /** Storage after an event: only an accepted `storage.set` writes, and only its own keys. */
  function StorageAfter(storage: map<string, Value>, e: Message): (r: map<string, Value>)
    ensures !(Accepted(e) && e.action == StorageSet) ==> r == storage
    ensures Accepted(e) && e.action == StorageSet ==>
      && r.Keys == storage.Keys + e.data.fields.Keys
      && (forall k :: k in e.data.fields ==> r[k] == e.data.fields[k])
      && (forall k :: k in storage && k !in e.data.fields ==> r[k] == storage[k])
  {
    if Accepted(e) && e.action == StorageSet then storage + e.data.fields else storage
  }

  /** A value written with `storage.set` comes back from a later `storage.get` of its key. */
  lemma SetThenGet(storage: map<string, Value>, base: string, setId: int, getId: int, key: string, v: Value)
    ensures var written := StorageAfter(storage, Request(setId, StorageSet, None, Record(map[key := v]), None));
      Reply(written, base, Request(getId, StorageGet, Some([key]), Absent, None)) ==
        Some(Response(getId, Record(map[key := v])))
  {
    var written := StorageAfter(storage, Request(setId, StorageSet, None, Record(map[key := v]), None));
    assert Lookup(written, Some([key])) == map[key := v];
  }

  /** A `storage.get` with no keys returns everything stored. */
  lemma GetWithoutKeysReturnsAll(storage: map<string, Value>, base: string, id: int)
    ensures Reply(storage, base, Request(id, StorageGet, None, Absent, None)) == Some(Response(id, Record(storage)))
  {
    assert Lookup(storage, None) == storage;
  }

  /** A `runtime.getURL` without a path gets no answer. */
  lemma PathlessGetURLRejected(storage: map<string, Value>, base: string, id: int)
    ensures Reply(storage, base, Request(id, RuntimeGetURL, None, Absent, None)).None?
  {
  }

  /** A `storage.set` of something other than an object writes nothing and gets no answer. */
  lemma NonObjectSetRejected(storage: map<string, Value>, base: string, id: int, data: Value)
    requires !data.Record?
    ensures Reply(storage, base, Request(id, StorageSet, None, data, None)).None?
    ensures StorageAfter(storage, Request(id, StorageSet, None, data, None)) == storage
  {
  }

  /**
   * The content script: the extension storage it forwards to, the messages
   * it has posted on the window, and the extension's base URL.
   */
  class ContentScript {
    var storage: map<string, Value>
    var posted: seq<Message>
    const extensionBase: string

    constructor (storage: map<string, Value>, extensionBase: string)
      ensures this.storage == storage && posted == [] && this.extensionBase == extensionBase
    {
      this.storage := storage;
      posted := [];
      this.extensionBase := extensionBase;
    }

    /** The `message` listener. */
    method OnMessage(e: Message)
      modifies this
      ensures storage == StorageAfter(old(storage), e)
      ensures posted == old(posted) + (match Reply(old(storage), extensionBase, e) case Some(m) => [m] case None => [])
    {
      if !e.fromWindow {
        return;
      }
      if e.kind == RequestType {
        if e.action == StorageGet {
          var result := Lookup(storage, e.keys);
          posted := posted + [Response(e.id, Record(result))];
        } else if e.action == StorageSet {
          if e.data.Record? {
            storage := storage + e.data.fields;
            posted := posted + [Response(e.id, SuccessReply)];
          }
        } else if e.action == RuntimeGetURL {
          if e.path.Some? {
            var url := ResolveURL(extensionBase, e.path.value);
            posted := posted + [Response(e.id, Text(url))];
          }
        }
      }
    }
  }

  // ---------------------------------------------------------------------
  // The page client: routing answers to callbacks

  /** An opaque handle on a callback the page passed in. */
  datatype Callback = Callback(handle: nat)

  /** One callback run: the request id, the callback, and the data it received. */
  datatype Delivery = Delivery(id: int, callback: Callback, data: Value)

  /**
   * The pending table maps an id to the callback stored for it; `get` stores
   * whatever it was given, so an entry may hold no callback.
   */
  type Pending = map<int, Option<Callback>>

  datatype Routed = Routed(pending: Pending, delivery: Option<Delivery>)

  /**
   * The page's response listener: an answer from this window whose entry
   * holds a callback removes that entry and runs the callback once with the
   * data; anything else changes nothing.
   */
  function Route(pending: Pending, e: Message): (r: Routed)
    ensures r.delivery.Some? <==>
      e.fromWindow && e.kind == ResponseType && e.id in pending && pending[e.id].Some?
    ensures r.delivery.Some? ==>
      r.delivery.value == Delivery(e.id, pending[e.id].value, e.data) && r.pending == pending - {e.id}
    ensures r.delivery.None? ==> r.pending == pending
  {
    if e.fromWindow && e.kind == ResponseType && e.id in pending && pending[e.id].Some? then
      Routed(pending - {e.id}, Some(Delivery(e.id, pending[e.id].value, e.data)))
    else
      Routed(pending, None)
  }

  /** A second answer with the same id runs nothing. */
  lemma RepeatedResponseIgnored(pending: Pending, e: Message)
    requires Route(pending, e).delivery.Some?
    ensures Route(Route(pending, e).pending, e) == Routed(Route(pending, e).pending, None)
  {
  }

  datatype Routing = Routing(pending: Pending, deliveries: seq<Delivery>)

  /** The response listener applied to a sequence of events, in order. */
  function RouteAll(pending: Pending, events: seq<Message>): Routing
    decreases |events|
  {
    if events == [] then Routing(pending, [])
    else
      var first := Route(pending, events[0]);
      var rest := RouteAll(first.pending, events[1..]);
      Routing(rest.pending, (if first.delivery.Some? then [first.delivery.value] else []) + rest.deliveries)
  }

  function DeliveredIds(ds: seq<Delivery>): set<int> {
    set d | d in ds :: d.id
  }

  /** Every callback run is the one stored in the table for its id. */
  lemma {:induction false} DeliveriesFromTable(pending: Pending, events: seq<Message>)
    ensures forall d :: d in RouteAll(pending, events).deliveries ==> d.id in pending && pending[d.id] == Some(d.callback)
    decreases |events|
  {
    if events != [] {
      var first := Route(pending, events[0]);
      DeliveriesFromTable(first.pending, events[1..]);
    }
  }

  /** Exactly the ids whose callbacks ran leave the table. */
  lemma {:induction false} RoutedIdsLeaveTable(pending: Pending, events: seq<Message>)
    ensures RouteAll(pending, events).pending == pending - DeliveredIds(RouteAll(pending, events).deliveries)
    decreases |events|
  {
    if events != [] {
      var first := Route(pending, events[0]);
      var rest := RouteAll(first.pending, events[1..]);
      RoutedIdsLeaveTable(first.pending, events[1..]);
      var head := if first.delivery.Some? then [first.delivery.value] else [];
      assert DeliveredIds(head + rest.deliveries) == DeliveredIds(head) + DeliveredIds(rest.deliveries);
    }
  }

  /** No two callback runs share an id. */
  predicate DistinctIds(ds: seq<Delivery>) {
    forall i, j :: 0 <= i < j < |ds| ==> ds[i].id != ds[j].id
  }

  lemma ConsDistinct(d: Delivery, ds: seq<Delivery>)
    requires DistinctIds(ds) && d.id !in DeliveredIds(ds)
    ensures DistinctIds([d] + ds)
  {
    var all := [d] + ds;
    forall i, j | 0 <= i < j < |all| ensures all[i].id != all[j].id {
      assert all[j] == ds[j - 1];
      if i == 0 {
        assert ds[j - 1] in ds;
      } else {
        assert all[i] == ds[i - 1];
      }
    }
  }

  /** No id has its callback run twice. */
  lemma {:induction false} RoutedIdsDistinct(pending: Pending, events: seq<Message>)
    ensures DistinctIds(RouteAll(pending, events).deliveries)
    decreases |events|
  {
    if events != [] {
      var first := Route(pending, events[0]);
      var rest := RouteAll(first.pending, events[1..]);
      RoutedIdsDistinct(first.pending, events[1..]);
      if first.delivery.Some? {
        var d0 := first.delivery.value;
        DeliveriesFromTable(first.pending, events[1..]);
        assert d0.id !in first.pending;
        assert d0.id !in DeliveredIds(rest.deliveries);
        ConsDistinct(d0, rest.deliveries);
        assert RouteAll(pending, events).deliveries == [d0] + rest.deliveries;
      } else {
        assert RouteAll(pending, events).deliveries == rest.deliveries;
      }
    }
  }

  /**
   * However the answers are repeated or interleaved, each pending callback
   * runs at most once, it is the callback stored for that id, and exactly the
   * ids it ran for leave the table.
   */
  lemma CallbacksRunAtMostOnce(pending: Pending, events: seq<Message>)
    ensures var r := RouteAll(pending, events);
      && DistinctIds(r.deliveries)
      && (forall d :: d in r.deliveries ==> d.id in pending && pending[d.id] == Some(d.callback))
      && r.pending == pending - DeliveredIds(r.deliveries)
  {
    RoutedIdsDistinct(pending, events);
    DeliveriesFromTable(pending, events);
    RoutedIdsLeaveTable(pending, events);
  }

  // ---------------------------------------------------------------------
  // The page client: the bounded wait of `getURL`

  /** An answer the `getURL` listener for `id` takes: the response type and that id, from any source. */
  predicate Answers(e: Message, id: int) {
    e.kind == ResponseType && e.id == id
  }

  /** The data of the first answer for `id` delivered at a tick in `[from, budget)`. */
  function FirstAnswer(arrival: nat -> Option<Message>, id: int, from: nat, budget: nat): Option<Value>
    decreases budget - from
  {
    if from >= budget then None
    else if arrival(from).Some? && Answers(arrival(from).value, id) then Some(arrival(from).value.data)
    else FirstAnswer(arrival, id, from + 1, budget)
  }

  /** What `getURL` returns: the captured data, or `''` when nothing was captured. */
  function WaitOutcome(arrival: nat -> Option<Message>, id: int, budget: nat): Value {
    match FirstAnswer(arrival, id, 0, budget)
    case Some(v) => v
    case None => Text("")
  }

  /**
   * The busy wait: poll `result` until it is truthy or the budget is spent.
   * `arrival(t)` is what the event loop would hand the temporary listener at
   * tick `t`; the listener takes the first answer for `id` and detaches.
   * Returns the result and whether the listener is still attached.
   */
  method AwaitResponse(id: int, arrival: nat -> Option<Message>, budget: nat) returns (result: Value, listening: bool)
    ensures result == WaitOutcome(arrival, id, budget)
    ensures listening <==> FirstAnswer(arrival, id, 0, budget).None?
  {
    result := Text("");
    listening := true;
    var elapsed: nat := 0;
    while !Truthy(result) && elapsed < budget
      invariant elapsed <= budget
      invariant listening ==>
        result == Text("") && FirstAnswer(arrival, id, 0, budget) == FirstAnswer(arrival, id, elapsed, budget)
      invariant !listening ==> FirstAnswer(arrival, id, 0, budget) == Some(result)
      decreases budget - elapsed
    {
      var event := arrival(elapsed);
      if listening && event.Some? && Answers(event.value, id) {
        result := event.value.data;
        listening := false;
      }
      elapsed := elapsed + 1;
    }
  }

  lemma {:induction false} NothingArrives(arrival: nat -> Option<Message>, id: int, from: nat, budget: nat)
    requires forall t :: from <= t < budget ==> arrival(t).None?
    ensures FirstAnswer(arrival, id, from, budget).None?
    decreases budget - from
  {
    if from < budget {
      NothingArrives(arrival, id, from + 1, budget);
    }
  }

  /**
   * The wait never yields, so the event loop delivers nothing during it:
   * `getURL` then returns `''` and leaves its listener attached.
   */
  lemma BlockedWaitReturnsEmpty(id: int, budget: nat)
    ensures WaitOutcome(t => None, id, budget) == Text("")
    ensures FirstAnswer(t => None, id, 0, budget).None?
  {
    NothingArrives(t => None, id, 0, budget);
  }

  lemma {:induction false} FirstAnswerAt(arrival: nat -> Option<Message>, id: int, from: nat, budget: nat, t: nat)
    requires from <= t < budget
    requires arrival(t).Some? && Answers(arrival(t).value, id)
    requires forall u :: from <= u < t ==> arrival(u).None? || !Answers(arrival(u).value, id)
    ensures FirstAnswer(arrival, id, from, budget) == Some(arrival(t).value.data)
    decreases t - from
  {
    if from < t {
      FirstAnswerAt(arrival, id, from + 1, budget, t);
    }
  }

  /**
   * Were the content script's answer to a `getURL` request delivered within
   * the budget, ahead of any other answer for that id, the call would return
   * the resolved URL.
   */
  lemma GetURLRoundTrip(storage: map<string, Value>, base: string, id: int, path: string,
                        arrival: nat -> Option<Message>, t: nat)
    requires t < WaitBudget
    requires arrival(t) == Reply(storage, base, Request(id, RuntimeGetURL, None, Absent, Some(path)))
    requires forall u :: 0 <= u < t ==> arrival(u).None? || !Answers(arrival(u).value, id)
    ensures WaitOutcome(arrival, id, WaitBudget) == Text(ResolveURL(base, path))
  {
    FirstAnswerAt(arrival, id, 0, WaitBudget, t);
  }

  // ---------------------------------------------------------------------
  // The page client

  /**
   * The client injected into the page: the request counter, the pending
   * callbacks, the ids whose `getURL` listener is still attached, the
   * requests it has posted and the callbacks it has run.
   */
  class PageClient {
    var requestId: int
    var pending: Pending
    var urlListeners: set<int>
    var posted: seq<Message>
    var delivered: seq<Delivery>

    /**
     * Request number `i + 1` is the `i`-th posted; every pending entry belongs
     * to a `get` or `set` request and every attached URL listener to a
     * `getURL` request; every callback run was for a posted request whose
     * entry is gone, and no id has had its callback run twice, over the
     * client's whole life.
     */
    ghost predicate Valid()
      reads this
    {
      && requestId == |posted|
      && (forall i :: 0 <= i < |posted| ==> posted[i].id == i + 1 && IsRequest(posted[i]))
      && (forall id :: id in pending ==> 1 <= id <= |posted| && posted[id - 1].action != RuntimeGetURL)
      && (forall id :: id in urlListeners ==> 1 <= id <= |posted| && posted[id - 1].action == RuntimeGetURL)
      && (forall d :: d in delivered ==> d.id !in pending && 1 <= d.id <= |posted|)
      && DistinctIds(delivered)
    }

    constructor ()
      ensures Valid()
      ensures requestId == 0 && pending == map[] && urlListeners == {} && posted == [] && delivered == []
    {
      requestId := 0;
      pending := map[];
      urlListeners := {};
      posted := [];
      delivered := [];
    }

    /** `chrome.storage.sync.get`: always stores the callback under the new id. */
    method Get(keys: Option<seq<string>>, callback: Option<Callback>) returns (id: int)
      requires Valid()
      modifies this
      ensures Valid()
      ensures id == old(requestId) + 1 && requestId == id
      ensures forall m :: m in old(posted) ==> m.id < id
      ensures id !in old(pending) && id !in old(urlListeners)
      ensures pending == old(pending)[id := callback]
      ensures posted == old(posted) + [Request(id, StorageGet, keys, Absent, None)]
      ensures urlListeners == old(urlListeners) && delivered == old(delivered)
    {
      requestId := requestId + 1;
      id := requestId;
      pending := pending[id := callback];
      posted := posted + [Request(id, StorageGet, keys, Absent, None)];
    }

    /** `chrome.storage.sync.set`: stores a callback only when one was given. */
    method Set(data: Value, callback: Option<Callback>) returns (id: int)
      requires Valid()
      modifies this
      ensures Valid()
      ensures id == old(requestId) + 1 && requestId == id
      ensures forall m :: m in old(posted) ==> m.id < id
      ensures id !in old(pending) && id !in old(urlListeners)
      ensures pending == if callback.Some? then old(pending)[id := callback] else old(pending)
      ensures posted == old(posted) + [Request(id, StorageSet, None, data, None)]
      ensures urlListeners == old(urlListeners) && delivered == old(delivered)
    {
      requestId := requestId + 1;
      id := requestId;
      if callback.Some? {
        pending := pending[id := callback];
      }
      posted := posted + [Request(id, StorageSet, None, data, None)];
    }

    /**
     * `chrome.runtime.getURL`: takes a new id, attaches a listener for it,
     * posts the request and busy-waits; adds nothing to the pending table.
     * The listener stays attached when nothing was captured.
     *
     * The wait never yields, so in the program nothing is delivered during
     * it (`arrival` is `t => None`, see `BlockedWaitReturnsEmpty`). Any other
     * `arrival` is a what-if: its events are shown to the new listener only,
     * so the pending table and the other URL listeners stay as they were,
     * although the response listener would route those events too.
     */
    method GetURL(path: string, arrival: nat -> Option<Message>) returns (url: Value)
      requires Valid()
      modifies this
      ensures Valid()
      ensures requestId == old(requestId) + 1
      ensures forall m :: m in old(posted) ==> m.id < requestId
      ensures posted == old(posted) + [Request(requestId, RuntimeGetURL, None, Absent, Some(path))]
      ensures pending == old(pending) && delivered == old(delivered)
      ensures url == WaitOutcome(arrival, requestId, WaitBudget)
      ensures urlListeners ==
        if FirstAnswer(arrival, requestId, 0, WaitBudget).None? then old(urlListeners) + {requestId}
        else old(urlListeners)
    {
      requestId := requestId + 1;
      var id := requestId;
      urlListeners := urlListeners + {id};
      posted := posted + [Request(id, RuntimeGetURL, None, Absent, Some(path))];
      assert Valid();
      var listening;
      url, listening := AwaitResponse(id, arrival, WaitBudget);
      if !listening {
        urlListeners := urlListeners - {id};
      }
    }

    /**
     * A `message` event reaching the page: the response listener routes it,
     * and an attached `getURL` listener for its id takes it and detaches.
     */
    method OnMessage(e: Message)
      requires Valid()
      modifies this
      ensures Valid()
      ensures var r := Route(old(pending), e);
        pending == r.pending && delivered == old(delivered) + (if r.delivery.Some? then [r.delivery.value] else [])
      ensures urlListeners == if e.kind == ResponseType then old(urlListeners) - {e.id} else old(urlListeners)
      ensures requestId == old(requestId) && posted == old(posted)
    {
      if e.fromWindow && e.kind == ResponseType {
        if e.id in pending {
          var callback := pending[e.id];
          if callback.Some? {
            pending := pending - {e.id};
            delivered := delivered + [Delivery(e.id, callback.value, e.data)];
          }
        }
      }
      if e.kind == ResponseType && e.id in urlListeners {
        urlListeners := urlListeners - {e.id};
      }
    }
  }

  /**
   * A `get` answered by the content script runs the stored callback with the
   * stored entries for the requested keys, and its entry leaves the table.
   */
  lemma GetAnsweredThroughHandler(pending: Pending, storage: map<string, Value>, base: string,
                                  id: int, keys: Option<seq<string>>, callback: Callback)
    requires id !in pending
    ensures var answer := Reply(storage, base, Request(id, StorageGet, keys, Absent, None));
      && answer.Some?
      && Route(pending[id := Some(callback)], answer.value) ==
           Routed(pending, Some(Delivery(id, callback, Record(Lookup(storage, keys)))))
  {
    assert pending[id := Some(callback)] - {id} == pending;
  }

  /** Ids of posted requests strictly increase, so none is reused. */
  lemma PostedIdsIncrease(c: PageClient)
    requires c.Valid()
    ensures forall i, j :: 0 <= i < j < |c.posted| ==> c.posted[i].id < c.posted[j].id
  {
  }
}
