/** The cluster as seen by one reconciliation pass: a finite store of
    objects, the four API calls the reconciler makes, and an injected set of
    failing calls standing for every API error, transient or not. A call
    that fails has no effect on the store. */
module Cluster {
  import opened Meta
  import opened AppTypes
  import opened Objects

  type Store = map<Key, Obj>

  /** The client calls the reconciler makes: `Get`, `Create`, `Update` and
      `Status().Update`. */
  datatype Verb = Get | Create | Update | UpdateStatus

  datatype Call = Call(verb: Verb, key: Key)

  datatype ApiError = NotFound | AlreadyExists | ServerError(message: string)

  /** Injected failures: a call listed here fails with `ServerError` carrying
      the given message and has no effect. */
  type Faults = map<Call, string>

  /** No call fails. */
  predicate Clean(faults: Faults) {
    forall c: Call :: c !in faults
  }

  /** What one step of a pass did to the object it manages: it was not
      reached, it only read the object, or it read it and then wrote it with
      `verb`. */
  datatype Touch = Skipped | Read | Wrote(verb: Verb)

  /** The calls a step with touch `t` made on `key`, in order. */
  function CallsOf(key: Key, t: Touch): seq<Call> {
    match t
    case Skipped => []
    case Read => [Call(Get, key)]
    case Wrote(verb) => [Call(Get, key), Call(verb, key)]
  }

  /** The last call a step that was reached made. */
  function LastCallOf(key: Key, t: Touch): Call
    requires t != Skipped
  {
    if t.Wrote? then Call(t.verb, key) else Call(Get, key)
  }

  /** Every call the step made went through (vacuous for a step not
      reached). */
  predicate Succeeded(key: Key, t: Touch, faults: Faults) {
    t != Skipped ==> Call(Get, key) !in faults && (t.Wrote? ==> Call(t.verb, key) !in faults)
  }

  /** The store after one step, what the step did, and what the caller got
      back. */
  datatype Step<+T> = Step(store: Store, touch: Touch, result: Result<T, ApiError>)

  /** The store invariant: every object sits under its own key and is well
      formed. */
  predicate WellFormed(s: Store) {
    forall k | k in s :: KeyOf(s[k]) == k && ObjectWellFormed(s[k])
  }

  function GetObject(s: Store, faults: Faults, key: Key): Result<Obj, ApiError> {
    if Call(Get, key) in faults then Err(ServerError(faults[Call(Get, key)]))
    else if key in s then Ok(s[key])
    else Err(NotFound)
  }

  /** Storing a well-formed object under its own key keeps the store well formed. */
  lemma WellFormedPut(s: Store, o: Obj)
    requires WellFormed(s) && ObjectWellFormed(o)
    ensures WellFormed(s[KeyOf(o) := o])
  {
  }

  function CreateObject(s: Store, faults: Faults, o: Obj): (r: Result<Store, ApiError>)
    requires WellFormed(s) && ObjectWellFormed(o)
    ensures r.Ok? ==> WellFormed(r.value)
  {
    WellFormedPut(s, o);
    var key := KeyOf(o);
    if Call(Create, key) in faults then Err(ServerError(faults[Call(Create, key)]))
    else if key in s then Err(AlreadyExists)
    else Ok(s[key := o])
  }

  function UpdateObject(s: Store, faults: Faults, o: Obj): (r: Result<Store, ApiError>)
    requires WellFormed(s) && ObjectWellFormed(o)
    ensures r.Ok? ==> WellFormed(r.value)
  {
    WellFormedPut(s, o);
    var key := KeyOf(o);
    if Call(Update, key) in faults then Err(ServerError(faults[Call(Update, key)]))
    else if key !in s then Err(NotFound)
    else Ok(s[key := o])
  }

  /** The status subresource: only the stored declaration's status changes. */
  function UpdateAppStatus(s: Store, faults: Faults, app: SimpleApp): (r: Result<Store, ApiError>)
    requires WellFormed(s)
    ensures r.Ok? ==> WellFormed(r.value)
  {
    var key := KeyOf(App(app));
    if Call(UpdateStatus, key) in faults then Err(ServerError(faults[Call(UpdateStatus, key)]))
    else if key !in s || !s[key].App? then Err(NotFound)
    else
      var stored := App(s[key].app.(status := app.status));
      WellFormedPut(s, stored);
      Ok(s[key := stored])
  }

  function Last<T>(t: seq<T>): T
    requires |t| > 0
  {
    t[|t| - 1]
  }

  /** A failure is the injected error of the last call the step made,
      returned unchanged: nothing ran after the failing call, and a
      `NotFound` on a read never surfaces. */
  predicate FailsOnlyByFault<T>(r: Step<T>, key: Key, faults: Faults) {
    r.result.Err? ==>
      && r.touch != Skipped
      && LastCallOf(key, r.touch) in faults
      && r.result.error == ServerError(faults[LastCallOf(key, r.touch)])
  }

  /** A step on `key` writes by creating an absent object or updating a
      present one. */
  predicate WritesFitting(s: Store, key: Key, t: Touch) {
    t.Wrote? ==> t.verb == if key in s then Update else Create
  }

  /** `s'` is `s` with at most the entry under `key` written. */
  predicate WrittenAt(s: Store, s': Store, key: Key) {
    s' == s || (key in s' && s' == s[key := s'[key]])
  }

  /** The entry under `k` is the same in both stores. */
  predicate Untouched(s: Store, s': Store, k: Key) {
    (k in s' <==> k in s) && (k in s ==> s'[k] == s[k])
  }

  /** A write at `key` leaves the store as it was outside any set holding `key`. */
  lemma WrittenAtFrame(s: Store, s': Store, key: Key, keys: set<Key>)
    requires WrittenAt(s, s', key) && key in keys
    ensures s' - keys == s - keys
  {
    if s' != s {
      assert s' - keys == s - keys by {
        forall k | k !in keys
          ensures k in s' - keys <==> k in s - keys
        {
        }
      }
    }
  }

  /** A store that agrees with another outside `small` agrees with it
      outside any larger set. */
  lemma FrameWiden(s: Store, s': Store, small: set<Key>, big: set<Key>)
    requires s' - small == s - small
    requires small <= big
    ensures s' - big == s - big
  {
    forall k | k !in big
      ensures k in s' <==> k in s
      ensures k in s ==> s'[k] == s[k]
    {
      assert k in s' - small <==> k in s';
      assert k in s - small <==> k in s;
    }
  }

  /** Agreement outside `keys` read at one key outside them. */
  lemma FrameAt(s: Store, s': Store, keys: set<Key>, k: Key)
    requires s' - keys == s - keys
    requires k !in keys
    ensures Untouched(s, s', k)
  {
    assert k in s' - keys <==> k in s';
    assert k in s - keys <==> k in s;
  }
}
