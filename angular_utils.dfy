/**
 * The countdown timer persisted in local storage, and two small checks used
 * by forms and signals.
 *
 * Time is outside the model: each firing of the timer's one-second interval
 * is an explicit call of `Tick`, and whether the interval is scheduled is the
 * flag `running`. The `onFinish` callback is counted, not run.
 */
module AngularUtils {
  import opened Wrappers
  import opened JsonValue

  // ---------------------------------------------------------------------
  // The countdown timer
  // ---------------------------------------------------------------------

  /** The browser's local storage; the timer's entry holds the remaining seconds. */
  class Storage {
    var items: map<string, int>

    constructor (items: map<string, int>)
      ensures this.items == items
    {
      this.items := items;
    }
  }

  /** What a timer's behaviour depends on and changes. */
  datatype TimerState = TimerState(timer: int, stored: map<string, int>, running: bool, finishCalls: nat)

  /** One firing of the interval, for the timer stored under `key`. */
  function TickState(key: string, s: TimerState): (t: TimerState)
    ensures t.timer >= 0 || t.timer == s.timer
    ensures s.timer - 1 >= 0 ==> t == s.(timer := s.timer - 1, stored := s.stored[key := s.timer - 1])
    ensures s.timer - 1 < 0 ==> t == s.(stored := s.stored - {key}, running := false, finishCalls := s.finishCalls + 1)
  {
    var newValue := s.timer - 1;
    if newValue < 0 then
      TimerState(s.timer, s.stored - {key}, false, s.finishCalls + 1)
    else
      TimerState(newValue, s.stored[key := newValue], s.running, s.finishCalls)
  }

  /** `n` more seconds of real time: the interval fires only while it is scheduled. */
  function Run(key: string, s: TimerState, n: nat): TimerState
    decreases n
  {
    if n == 0 || !s.running then s else Run(key, TickState(key, s), n - 1)
  }

  /** While time remains, each second takes one off the timer and stores the new value. */
  lemma {:induction false} RunCountsDown(key: string, s: TimerState, n: nat)
    requires s.running && n <= s.timer
    ensures Run(key, s, n) == s.(timer := s.timer - n,
                                  stored := if n == 0 then s.stored else s.stored[key := s.timer - n])
    decreases n
  {
    if n > 0 {
      var s' := TickState(key, s);
      RunCountsDown(key, s', n - 1);
      assert s'.stored[key := s'.timer - (n - 1)] == s.stored[key := s.timer - n];
    }
  }

  /**
   * A running timer at `t >= 0` seconds calls `onFinish` exactly once, after
   * exactly `t + 1` firings, and then stops, leaving 0 on the timer and no entry
   * under its key; later seconds change nothing.
   */
  lemma {:induction false} RunFinishesOnce(key: string, s: TimerState, n: nat)
    requires s.running && s.timer >= 0 && n > s.timer
    ensures Run(key, s, n) == TimerState(0, s.stored - {key}, false, s.finishCalls + 1)
  {
    var t: nat := s.timer;
    RunCountsDown(key, s, t);
    RunSplit(key, s, t, n - t);
    var z := Run(key, s, t);
    assert z.timer == 0;
    var f := TickState(key, z);
    assert f == TimerState(0, s.stored - {key}, false, s.finishCalls + 1) by {
      assert z.stored - {key} == s.stored - {key};
    }
    assert Run(key, z, n - t) == Run(key, f, n - t - 1);
  }

  /** Running for `a + b` seconds is running for `a`, then for `b`. */
  lemma {:induction false} RunSplit(key: string, s: TimerState, a: nat, b: nat)
    ensures Run(key, s, a + b) == Run(key, Run(key, s, a), b)
    decreases a
  {
    if a > 0 && s.running {
      RunSplit(key, TickState(key, s), a - 1, b);
    }
  }

  /** `localStorageTimer(key, defaultStartSeconds, onFinish)` and the `timer`, `start`, `reset`, `remove` it returns. */
  class LocalStorageTimer {
    const key: string
    const storage: Storage
    var timer: int
    var running: bool
    var finishCalls: nat

    function State(): TimerState
      reads this, storage
    {
      TimerState(timer, storage.items, running, finishCalls)
    }

    /** The stored entry, when there is one, holds the timer's value. */
    predicate Synced()
      reads this, storage
    {
      key in storage.items ==> storage.items[key] == timer
    }

    /**
     * Start-up: resume from the stored value when there is one, leaving the
     * storage as it is; otherwise start at `defaultStartSeconds` and store it.
     * The interval is not scheduled until `Start` or `Reset`.
     */
    constructor (key: string, defaultStartSeconds: int, storage: Storage)
      modifies storage
      ensures this.key == key && this.storage == storage
      ensures key in old(storage.items) ==> timer == old(storage.items)[key] && storage.items == old(storage.items)
      ensures key !in old(storage.items) ==>
                timer == defaultStartSeconds && storage.items == old(storage.items)[key := defaultStartSeconds]
      ensures !running && finishCalls == 0
      ensures Synced()
    {
      this.key := key;
      this.storage := storage;
      var startSeconds := defaultStartSeconds;
      if key in storage.items {
        startSeconds := storage.items[key];
      } else {
        storage.items := storage.items[key := defaultStartSeconds];
      }
      timer := startSeconds;
      running := false;
      finishCalls := 0;
    }

    /** `remove`: stops the interval and deletes the stored entry; no other entry changes. */
    method Remove()
      modifies this, storage
      ensures storage.items == old(storage.items) - {key}
      ensures !running && timer == old(timer) && finishCalls == old(finishCalls)
      ensures Synced()
    {
      running := false;
      storage.items := storage.items - {key};
    }

    /**
     * One firing of the interval. With time left, the timer and its stored
     * entry go down by one; at zero, `onFinish` is called once, the entry is
     * removed and the interval stopped, and the timer keeps its value.
     */
    method Tick()
      modifies this, storage
      ensures State() == TickState(key, old(State()))
      ensures timer >= 0 || timer == old(timer)
      ensures Synced()
    {
      var newValue := timer - 1;
      if newValue < 0 {
        finishCalls := finishCalls + 1;
        Remove();
        return;
      }
      timer := newValue;
      storage.items := storage.items[key := newValue];
    }

    /** `reset`: (re)starts the interval and sets the timer and its stored entry to `startSeconds`. */
    method Reset(startSeconds: int)
      modifies this, storage
      ensures timer == startSeconds && storage.items == old(storage.items)[key := startSeconds]
      ensures running && finishCalls == old(finishCalls)
      ensures Synced()
    {
      running := true;  // the old interval is cleared and a new one scheduled
      timer := startSeconds;
      storage.items := storage.items[key := startSeconds];
    }

    /** `start`: (re)starts the interval; nothing else changes. */
    method Start()
      modifies this
      ensures running && timer == old(timer) && finishCalls == old(finishCalls)
      ensures Synced() == old(Synced())
    {
      running := true;  // the old interval is cleared and a new one scheduled
    }
  }

  // ---------------------------------------------------------------------
  // Form and signal checks
  // ---------------------------------------------------------------------

  /** The errors object `{ forbiddenValue: { value } }`. */
  function ForbiddenValueError(value: Json): Json {
    JObj(map["forbiddenValue" := JObj(map["value" := value])])
  }

  /**
   * `forbiddenValueValidator(forbiddenValue)`: a validator reporting an error,
   * which carries the control's value, exactly when that value is the
   * forbidden string; `None` stands for `null`.
   */
  function ForbiddenValueValidator(forbiddenValue: string): (validator: Json -> Option<Json>)
    ensures forall value :: validator(value).Some? <==> value == JStr(forbiddenValue)
    ensures forall value :: validator(value).Some? ==> validator(value).value == ForbiddenValueError(value)
  {
    value => if value == JStr(forbiddenValue) then Some(ForbiddenValueError(value)) else None
  }

  /** A value tagged with its kind, as the signals checked below hold. */
  datatype KindedValue = KindedValue(kind: string, payload: Json)

  /** A signal holding a kinded value or `undefined`. */
  class Signal {
    var value: Option<KindedValue>

    constructor (value: Option<KindedValue>)
      ensures this.value == value
    {
      this.value := value;
    }
  }

  function KindText(v: Option<KindedValue>): string {
    if v.Some? then v.value.kind else "undefined"
  }

  /**
   * `assertSignalCast(signal, kind)`: the same signal when its current value
   * has the given kind; otherwise it throws, also when the value is undefined.
   */
  function AssertSignalCast(signal: Signal, kind: string): (r: Result<Signal>)
    reads signal
    ensures r.Success? <==> signal.value.Some? && signal.value.value.kind == kind
    ensures r.Success? ==> r.value == signal
    ensures r.Failure? ==>
              r.error == "Given object with kind=" + KindText(signal.value) + " needs to have kind=" + kind
  {
    if signal.value.Some? && signal.value.value.kind == kind then Success(signal)
    else Failure("Given object with kind=" + KindText(signal.value) + " needs to have kind=" + kind)
  }
}
