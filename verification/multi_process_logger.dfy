/** The queue-backed log relay (`MultiProcessLogger`).

    Producers in the scheduler process put `[level, msg, logger_name]`
    entries on a shared queue without blocking, dropping the entry when the
    queue is full. The owning process, which alone holds a real logger,
    drains one entry per call and emits it at its level under the entry's
    logger name. */
module MultiProcessLogger {
  import opened Wrappers

  /** The five levels with a producer method and a branch in the drain. */
  datatype Level = Debug | Info | Warning | Error | Critical

  /** The level string each producer method puts on the queue. */
  function LevelName(l: Level): string {
    match l
    case Debug => "debug"
    case Info => "info"
    case Warning => "warning"
    case Error => "error"
    case Critical => "critical"
  }

  /** The drain's `if`/`elif` chain on the level string; any other string
      matches no branch. */
  function ParseLevel(s: string): Option<Level> {
    if s == "debug" then Some(Debug)
    else if s == "info" then Some(Info)
    else if s == "warning" then Some(Warning)
    else if s == "error" then Some(Error)
    else if s == "critical" then Some(Critical)
    else None
  }

  /** Every producer level is recognised by the drain as itself, and only
      the five level strings are recognised. */
  lemma LevelNameRoundTrip(l: Level, s: string)
    ensures ParseLevel(LevelName(l)) == Some(l)
    ensures ParseLevel(s).Some? ==> LevelName(ParseLevel(s).value) == s
  {
  }

  /** A queued log entry, `[level, msg, logger_name]`. */
  datatype Entry = Entry(level: string, msg: string, loggerName: string)

  /** A queue with Python's `maxsize` convention: zero or less is unbounded. */
  datatype LogQueue = LogQueue(items: seq<Entry>, maxsize: int)

  /** `put_nowait` would raise `Queue.Full`. */
  predicate Full(q: LogQueue) {
    q.maxsize > 0 && |q.items| >= q.maxsize
  }

  /** The queue holds no more than its bound. */
  predicate WithinBound(q: LogQueue) {
    q.maxsize <= 0 || |q.items| <= q.maxsize
  }

  /** The real logger of the owning process; draining sets its name. */
  datatype Sink = Sink(name: string)

  /** A relay: the shared queue and, in the owning process, a logger. */
  datatype Relay = Relay(queue: LogQueue, logger: Option<Sink>)

  /** `put_message_in_queue`: append at the tail, or drop the entry
      silently when the queue is full. */
  function PutMessageInQueue(r: Relay, level: string, msg: string, loggerName: string): (r': Relay)
    ensures r'.logger == r.logger && r'.queue.maxsize == r.queue.maxsize
    ensures Full(r.queue) ==> r' == r
    ensures !Full(r.queue) ==> r'.queue.items == r.queue.items + [Entry(level, msg, loggerName)]
    ensures WithinBound(r.queue) ==> WithinBound(r'.queue)
  {
    if Full(r.queue) then r
    else r.(queue := r.queue.(items := r.queue.items + [Entry(level, msg, loggerName)]))
  }

  /** The producer methods `debug`, `info`, `warning`, `error` and
      `critical`, each taking the logger name first and the message second. */
  function Log(r: Relay, level: Level, loggerName: string, msg: string): (r': Relay)
    ensures r'.logger == r.logger && r'.queue.maxsize == r.queue.maxsize
    ensures Full(r.queue) ==> r' == r
    ensures !Full(r.queue) ==>
      && |r'.queue.items| == |r.queue.items| + 1
      && r'.queue.items[..|r.queue.items|] == r.queue.items
      && ParseLevel(r'.queue.items[|r.queue.items|].level) == Some(level)
      && r'.queue.items[|r.queue.items|].msg == msg
      && r'.queue.items[|r.queue.items|].loggerName == loggerName
  {
    LevelNameRoundTrip(level, "");
    PutMessageInQueue(r, LevelName(level), msg, loggerName)
  }

  /** A log record emitted to the real logger. */
  datatype Emission = Emission(level: Level, msg: string, loggerName: string)

  /** `write_log_messages` without a logger raises `AttributeError`. */
  datatype RelayError = NoLogger

  /** The relay after one drain call and what it emitted, if anything. */
  datatype Drain = Drain(relay: Relay, emitted: Option<Emission>)

  /** What draining `e` emits: a record at its level, or nothing for an
      unknown level string. */
  function Emitted(e: Entry): Option<Emission> {
    match ParseLevel(e.level)
    case Some(l) => Some(Emission(l, e.msg, e.loggerName))
    case None => None
  }

  /** `write_log_messages`: without a logger, an error and no change. With
      one, an empty queue is left alone; otherwise exactly the oldest entry
      is removed, the logger takes the entry's name, and the entry is
      emitted at its level (or consumed silently for an unknown level). */
  function WriteLogMessages(r: Relay): (res: Result<Drain, RelayError>)
    ensures res.Failure? <==> r.logger.None?
    ensures res.Success? && |r.queue.items| == 0 ==> res.value == Drain(r, None)
    ensures res.Success? && |r.queue.items| > 0 ==>
      var e := r.queue.items[0];
      && res.value.relay.queue == r.queue.(items := r.queue.items[1..])
      && res.value.relay.logger == Some(Sink(e.loggerName))
      && (res.value.emitted.Some? <==> ParseLevel(e.level).Some?)
      && (res.value.emitted.Some? ==>
            && LevelName(res.value.emitted.value.level) == e.level
            && res.value.emitted.value.msg == e.msg
            && res.value.emitted.value.loggerName == e.loggerName)
  {
    if r.logger.None? then Failure(NoLogger)
    else if |r.queue.items| == 0 then Success(Drain(r, None))
    else
      var e := r.queue.items[0];
      LevelNameRoundTrip(Debug, e.level);
      Success(Drain(Relay(r.queue.(items := r.queue.items[1..]), Some(Sink(e.loggerName))), Emitted(e)))
  }

  /** A message logged at any level into an empty queue comes out of the
      next drain at that level, with its message and logger name. */
  lemma LogThenDrain(r: Relay, level: Level, loggerName: string, msg: string)
    requires r.logger.Some? && |r.queue.items| == 0
    ensures WriteLogMessages(Log(r, level, loggerName, msg))
      == Success(Drain(r.(logger := Some(Sink(loggerName))), Some(Emission(level, msg, loggerName))))
  {
    var r' := Log(r, level, loggerName, msg);
    assert r'.queue.items[1..] == [];
  }

  /** `k` consecutive drain calls of a relay that has a logger: the
      relay afterwards and what each call emitted. */
  function DrainTimes(r: Relay, k: nat): (Relay, seq<Option<Emission>>)
    requires r.logger.Some?
    decreases k
  {
    if k == 0 then (r, [])
    else
      var d := WriteLogMessages(r).value;
      var rest := DrainTimes(d.relay, k - 1);
      (rest.0, [d.emitted] + rest.1)
  }

  /** The relay is first-in first-out: `k` drains remove the `k` oldest
      entries and emit them in the order they were queued. */
  lemma {:induction false} DrainInOrder(r: Relay, k: nat)
    requires r.logger.Some? && k <= |r.queue.items|
    ensures DrainTimes(r, k).0.queue.items == r.queue.items[k..]
    ensures DrainTimes(r, k).1 == seq(k, i requires 0 <= i < k => Emitted(r.queue.items[i]))
    decreases k
  {
    if k > 0 {
      var d := WriteLogMessages(r).value;
      DrainInOrder(d.relay, k - 1);
      assert d.relay.queue.items == r.queue.items[1..];
    }
  }
}
