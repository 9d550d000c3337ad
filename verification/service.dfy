/** The queues wired to the dispatcher: `PulseQueue.process_message`
    (lib/queues.py:66-87) with `process_build` as the callback of the
    normalized build queue (lib/queues.py:98-150) and of the funsize update
    queue (lib/queues.py:164-265). Every exception is caught and logged, and
    a received message is acknowledged exactly once whatever happened. */
module Service {
  import opened Wrappers
  import opened Values
  import opened Settings
  import opened Queues
  import opened Automation

  /** The world after a message, and whether the message was acknowledged. */
  datatype Handled = Handled(world: World, acked: bool)

  /** The queue's `callback`: what a record does to the world. The
      dispatcher's callback is `process_build`, whose exception the queue
      catches (see `Dispatch`). */
  type Callback = (World, Props) -> World

  /** `process_build` as a queue callback. */
  function Dispatch(d: Dispatcher): (cb: Callback)
    ensures forall w, record :: cb(w, record) == ProcessBuild(d, w, record).world
  {
    (w: World, record: Props) => ProcessBuild(d, w, record).world
  }

  /** The normalized build queue: filter, then dispatch an admitted build. */
  function HandleBuildMessage(cfg: PulseSettings, callback: Callback, w: World, body: Value,
                              message: Option<Message>): (h: Handled)
    ensures h.acked <==> message.Some?
    ensures !BuildNotification(cfg, body).Go? ==> h.world == w
    ensures BuildNotification(cfg, body).Go? ==> h.world == callback(w, BuildNotification(cfg, body).value)
  {
    var world :=
      match BuildNotification(cfg, body)
      case Go(record) => callback(w, record)
      case _ => w;
    Handled(world, message.Some?)
  }

  /** One entry of an update manifest: filtered, then dispatched; whatever
      it raises stays inside the entry. */
  function HandleUpdate(cfg: PulseSettings, callback: Callback, w: World, update: Value): (w': World)
    ensures !UpdateFilter(cfg, update).Go? ==> w' == w
    ensures UpdateFilter(cfg, update).Go? ==> w' == callback(w, UpdateFilter(cfg, update).value)
  {
    match UpdateFilter(cfg, update)
    case Go(record) => callback(w, record)
    case _ => w
  }

  /** The entries in order, each on the world the previous one left. */
  function HandleUpdates(cfg: PulseSettings, callback: Callback, w: World, entries: seq<Value>): (w': World)
    decreases |entries|
  {
    if |entries| == 0 then w
    else HandleUpdates(cfg, callback, HandleUpdate(cfg, callback, w, entries[0]), entries[1..])
  }

  /** A callback that only appends to the trace. */
  ghost predicate Appends(callback: Callback) {
    forall w, record :: Extends(w, callback(w, record))
  }

  predicate Extends(w: World, w': World) {
    |w.trace| <= |w'.trace| && w'.trace[..|w.trace|] == w.trace
  }

  /** With such a callback, handling the entries only appends to the trace. */
  lemma {:induction false} HandleUpdatesAppends(cfg: PulseSettings, callback: Callback, w: World, entries: seq<Value>)
    requires Appends(callback)
    ensures Extends(w, HandleUpdates(cfg, callback, w, entries))
    decreases |entries|
  {
    if |entries| > 0 {
      var w1 := HandleUpdate(cfg, callback, w, entries[0]);
      assert Extends(w, w1);
      HandleUpdatesAppends(cfg, callback, w1, entries[1..]);
      var w2 := HandleUpdates(cfg, callback, w1, entries[1..]);
      assert w2.trace[..|w.trace|] == w2.trace[..|w1.trace|][..|w.trace|];
    }
  }

  /** `process_build` only appends to the trace. */
  lemma DispatchAppends(d: Dispatcher)
    ensures Appends(Dispatch(d))
  {
    forall w, record ensures Extends(w, Dispatch(d)(w, record)) {
      var o := ProcessBuild(d, w, record);
    }
  }

  /** An entry that the filter rejects, or that fails before its record is
      built, might as well not be there: the others are handled exactly as
      without it. */
  lemma {:induction false} RejectedEntryIsInert(cfg: PulseSettings, callback: Callback, w: World,
                                                entries: seq<Value>, i: nat)
    requires i < |entries| && !UpdateFilter(cfg, entries[i]).Go?
    ensures HandleUpdates(cfg, callback, w, entries) == HandleUpdates(cfg, callback, w, entries[..i] + entries[i + 1..])
    decreases i
  {
    if i == 0 {
      assert entries[..0] + entries[1..] == entries[1..];
    } else {
      var w1 := HandleUpdate(cfg, callback, w, entries[0]);
      RejectedEntryIsInert(cfg, callback, w1, entries[1..], i - 1);
      var shorter := entries[..i] + entries[i + 1..];
      assert shorter[0] == entries[0];
      assert shorter[1..] == entries[1..][..i - 1] + entries[1..][i..];
    }
  }

  /** The funsize update queue: the routing-key gate and manifest download,
      then every entry on its own. */
  function HandleUpdateMessage(cfg: PulseSettings, callback: Callback, w: World, body: Value,
                               message: Option<Message>, parseKey: string -> Option<(string, string)>,
                               fetchManifest: Value -> Result<Value>): (h: Handled)
    ensures h.acked <==> message.Some?
    ensures !FunsizePreprocess(cfg, body, message, parseKey, fetchManifest).Go? ==> h.world == w
  {
    var world :=
      match FunsizePreprocess(cfg, body, message, parseKey, fetchManifest)
      case Go(data) =>
        (match UpdateEntries(data)
         case Success(entries) => HandleUpdates(cfg, callback, w, entries)
         case Failure(_) => w)
      case _ => w;
    Handled(world, message.Some?)
  }
}
