/** `TimeTickerService`: the process-wide heartbeat. Callbacks are named by
    identity tokens. `setInterval`/`clearInterval` are modelled by a timer
    table holding the handles of the intervals currently armed; no timing
    is modelled. */
module TimeTickerService {
  import opened Wrappers

  type CallbackId = nat
  type IntervalId = nat

  /** The host's intervals belonging to this service: those armed, and the
      handle the next `setInterval` returns. */
  datatype Timers = Timers(armed: set<IntervalId>, next: IntervalId)

  datatype Ticker = Ticker(callbacks: seq<CallbackId>, intervalId: Option<IntervalId>, timers: Timers)

  /** The service knows every armed interval: the only one is `intervalId`. */
  predicate Consistent(t: Ticker) {
    && t.timers.armed == (if t.intervalId.Some? then {t.intervalId.value} else {})
    && (t.intervalId.Some? ==> t.intervalId.value < t.timers.next)
  }

  /** At most one interval is ever armed for a consistent service. */
  lemma AtMostOneArmed(t: Ticker)
    requires Consistent(t)
    ensures |t.timers.armed| <= 1
  {
  }

  /** `clearTimers`: cancels the stored interval, if any. */
  function ClearTimers(t: Ticker): (r: Ticker)
    ensures r.intervalId.None? && r.callbacks == t.callbacks
    ensures t.intervalId.None? ==> r == t
    ensures Consistent(t) ==> Consistent(r) && r.timers.armed == {}
  {
    match t.intervalId
    case None => t
    case Some(id) => Ticker(t.callbacks, None, Timers(t.timers.armed - {id}, t.timers.next))
  }

  /** `start`: clears any existing interval, then arms a fresh one. */
  function Start(t: Ticker): (r: Ticker)
    ensures r.intervalId.Some? && r.intervalId.value in r.timers.armed
    ensures r.callbacks == t.callbacks
    ensures Consistent(t) ==> Consistent(r) && |r.timers.armed| == 1
  {
    var c := ClearTimers(t);
    var id := c.timers.next;
    Ticker(c.callbacks, Some(id), Timers(c.timers.armed + {id}, id + 1))
  }

  /** `stop`: no interval stays armed; calling it again changes nothing. */
  function Stop(t: Ticker): (r: Ticker)
    ensures Consistent(t) ==> Consistent(r) && r.timers.armed == {}
    ensures r.callbacks == t.callbacks
    ensures ClearTimers(r) == r
  {
    ClearTimers(t)
  }

  /** The private constructor: no callbacks, then `start`. */
  function Create(): (t: Ticker)
    ensures Consistent(t) && t.callbacks == [] && t.intervalId.Some?
  {
    Start(Ticker([], None, Timers({}, 0)))
  }

  /** `getInstance`: an error until `initialize` has run. */
  function GetInstance(instance: Option<Ticker>): (r: Result<Ticker>)
    ensures r.Failure? <==> instance.None?
    ensures r.Failure? ==> r.error == "TimeTickerService must be initialized before using it"
    ensures r.Success? ==> r.value == instance.value
  {
    match instance
    case None => Failure("TimeTickerService must be initialized before using it")
    case Some(t) => Success(t)
  }

  /** `initialize`: creates the instance on the first call only. Returns the
      new value of the static `instance` field and the instance itself. */
  function Initialize(instance: Option<Ticker>): (r: (Option<Ticker>, Ticker))
    ensures r.0 == Some(r.1)
    ensures instance.Some? ==> r.1 == instance.value
    ensures instance.None? ==> Consistent(r.1) && r.1.callbacks == [] && |r.1.timers.armed| == 1
  {
    match instance
    case None => (Some(Create()), Create())
    case Some(t) => (instance, t)
  }

  /** Initialising twice is the same as once: the second call returns the
      same instance and arms nothing; afterwards `getInstance` succeeds. */
  lemma InitializeIdempotent(instance: Option<Ticker>)
    ensures Initialize(Initialize(instance).0) == Initialize(instance)
    ensures Initialize(Initialize(instance).0).1.timers == Initialize(instance).1.timers
    ensures GetInstance(Initialize(instance).0) == Success(Initialize(instance).1)
  {
  }

  function Subscribe(t: Ticker, cb: CallbackId): (r: Ticker)
    ensures |r.callbacks| == |t.callbacks| + 1
    ensures r.callbacks[..|t.callbacks|] == t.callbacks && r.callbacks[|t.callbacks|] == cb
    ensures r.intervalId == t.intervalId && r.timers == t.timers
  {
    t.(callbacks := t.callbacks + [cb])
  }

  /** `filter(c => c !== cb)`: every occurrence of `cb` goes. */
  function Without(s: seq<CallbackId>, cb: CallbackId): (r: seq<CallbackId>)
    ensures cb !in r
    ensures forall x :: x != cb ==> multiset(r)[x] == multiset(s)[x]
    ensures cb !in s ==> r == s
  {
    if |s| == 0 then []
    else
      assert s == [s[0]] + s[1..];
      if s[0] == cb then Without(s[1..], cb)
      else [s[0]] + Without(s[1..], cb)
  }

  /** Filtering distributes over concatenation, so the callbacks that stay
      keep their relative order. */
  lemma {:induction false} WithoutAppend(s1: seq<CallbackId>, s2: seq<CallbackId>, cb: CallbackId)
    ensures Without(s1 + s2, cb) == Without(s1, cb) + Without(s2, cb)
  {
    if |s1| > 0 {
      WithoutAppend(s1[1..], s2, cb);
      assert (s1 + s2)[1..] == s1[1..] + s2;
    } else {
      assert s1 + s2 == s2;
    }
  }

  function Unsubscribe(t: Ticker, cb: CallbackId): (r: Ticker)
    ensures cb !in r.callbacks
    ensures forall x :: x != cb ==> multiset(r.callbacks)[x] == multiset(t.callbacks)[x]
    ensures cb !in t.callbacks ==> r == t
    ensures r.intervalId == t.intervalId && r.timers == t.timers
    ensures r.callbacks == Without(t.callbacks, cb)
  {
    t.(callbacks := Without(t.callbacks, cb))
  }

  /** Unlike `Observable.removeObserver`, one unsubscribe undoes any number
      of subscriptions of the same callback. */
  lemma UnsubscribeUndoesRepeatedSubscribe(t: Ticker, cb: CallbackId)
    requires cb !in t.callbacks
    ensures Unsubscribe(Subscribe(Subscribe(t, cb), cb), cb) == t
  {
    WithoutAppend(t.callbacks, [cb], cb);
    WithoutAppend(t.callbacks + [cb], [cb], cb);
  }

  /** `notifySubscribers`: each callback invoked once, in list order. */
  method NotifySubscribers(t: Ticker) returns (invoked: seq<CallbackId>)
    ensures |invoked| == |t.callbacks|
    ensures forall i :: 0 <= i < |invoked| ==> invoked[i] == t.callbacks[i]
  {
    invoked := [];
    for k := 0 to |t.callbacks|
      invariant |invoked| == k
      invariant forall i :: 0 <= i < k ==> invoked[i] == t.callbacks[i]
    {
      invoked := invoked + [t.callbacks[k]];
    }
  }

  /** The public operations on the instance. */
  datatype Op = SubscribeOp(cb: CallbackId) | UnsubscribeOp(cb: CallbackId) | StopOp

  function Apply(t: Ticker, op: Op): Ticker {
    match op
    case SubscribeOp(cb) => Subscribe(t, cb)
    case UnsubscribeOp(cb) => Unsubscribe(t, cb)
    case StopOp => Stop(t)
  }

  function Run(t: Ticker, ops: seq<Op>): Ticker
    decreases |ops|
  {
    if |ops| == 0 then t else Run(Apply(t, ops[0]), ops[1..])
  }

  /** Whatever is done to the instance after `initialize`, at most one
      interval is armed, and it is the one the service would clear. */
  lemma {:induction false} RunKeepsOneInterval(instance: Option<Ticker>, ops: seq<Op>)
    requires instance.None? || Consistent(instance.value)
    ensures Consistent(Run(Initialize(instance).1, ops))
    ensures |Run(Initialize(instance).1, ops).timers.armed| <= 1
  {
    RunConsistent(Initialize(instance).1, ops);
    AtMostOneArmed(Run(Initialize(instance).1, ops));
  }

  lemma {:induction false} RunConsistent(t: Ticker, ops: seq<Op>)
    requires Consistent(t)
    ensures Consistent(Run(t, ops))
    decreases |ops|
  {
    if |ops| > 0 {
      RunConsistent(Apply(t, ops[0]), ops[1..]);
    }
  }
}
