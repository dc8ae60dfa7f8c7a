/** Named worker threads, and the manager that creates them and takes them down in two hops. */
module ThreadHandlers {

  const SINGLETON_THREAD_NAME := "ThreadHandler"

  /** What a worker runs: a task of some user, or the request to delete the worker's own handler. */
  datatype Job = User(task: nat) | RequestDeletion(name: string)

  /** The queue after a post: a suspended handler drops it. */
  function Posted(queue: seq<Job>, suspended: bool, job: Job): seq<Job> {
    if suspended then queue else queue + [job]
  }

  // ----- Names of temporary threads -----

  type Serial = n: nat | n < 0x1_0000_0000

  const DIGITS := "0123456789"

  function Decimal(n: nat): string {
    if n < 10 then [DIGITS[n]] else Decimal(n / 10) + [DIGITS[n % 10]]
  }

  function TemporaryName(name: string, serial: Serial): string {
    name + "_" + Decimal(serial)
  }

  lemma DigitsDiffer(i: nat, j: nat)
    requires i < 10 && j < 10
    ensures DIGITS[i] == DIGITS[j] <==> i == j
    ensures DIGITS[i] != '_'
  {
  }

  lemma {:induction false} DecimalHasDigitsOnly(n: nat)
    ensures '_' !in Decimal(n) && Decimal(n) != []
  {
    DigitsDiffer(n % 10, 0);
    if n >= 10 {
      DecimalHasDigitsOnly(n / 10);
    }
  }

  lemma {:induction false} DecimalIsInjective(m: nat, n: nat)
    requires Decimal(m) == Decimal(n)
    ensures m == n
  {
    var last := |Decimal(m)| - 1;
    assert Decimal(m)[last] == DIGITS[m % 10] && Decimal(n)[last] == DIGITS[n % 10];
    DigitsDiffer(m % 10, n % 10);
    DecimalHasDigitsOnly(m / 10);
    DecimalHasDigitsOnly(n / 10);
    if m >= 10 && n >= 10 {
      assert Decimal(m)[..last] == Decimal(m / 10) && Decimal(n)[..last] == Decimal(n / 10);
      DecimalIsInjective(m / 10, n / 10);
    }
  }

  lemma {:induction false} LastUnderscoreSplits(a: string, d: string, b: string, e: string)
    requires a + "_" + d == b + "_" + e && '_' !in d && '_' !in e
    ensures a == b && d == e
    decreases |d|
  {
    var s, t := a + "_" + d, b + "_" + e;
    var last := |s| - 1;
    assert s[last] == if d == [] then '_' else d[|d| - 1];
    assert t[last] == if e == [] then '_' else e[|e| - 1];
    if d == [] {
      assert s[..last] == a && t[..last] == b;
    } else {
      assert s[..last] == a + "_" + d[..|d| - 1] && t[..last] == b + "_" + e[..|e| - 1];
      LastUnderscoreSplits(a, d[..|d| - 1], b, e[..|e| - 1]);
    }
  }

  /** Two temporary threads have the same name only if both the given name and the serial agree. */
  lemma TemporaryNamesDiffer(a: string, m: Serial, b: string, n: Serial)
    ensures TemporaryName(a, m) == TemporaryName(b, n) <==> a == b && m == n
  {
    if TemporaryName(a, m) == TemporaryName(b, n) {
      DecimalHasDigitsOnly(m);
      DecimalHasDigitsOnly(n);
      LastUnderscoreSplits(a, Decimal(m), b, Decimal(n));
      DecimalIsInjective(m, n);
    }
  }

  lemma TemporaryIsNotSingleton(name: string, serial: Serial)
    ensures TemporaryName(name, serial) != SINGLETON_THREAD_NAME
  {
    assert TemporaryName(name, serial)[|name|] == '_';
    assert '_' !in SINGLETON_THREAD_NAME;
  }

  // ----- Handlers and their manager -----

  class ThreadHandlerImpl {
    const canSuspend: bool
    var isSuspended: bool
    var queue: seq<Job>

    constructor (canSuspend: bool)
      ensures this.canSuspend == canSuspend && !isSuspended && queue == []
    {
      this.canSuspend, isSuspended, queue := canSuspend, false, [];
    }

    method PostTask(job: Job)
      modifies this`queue
      ensures queue == Posted(old(queue), isSuspended, job)
    {
      if isSuspended {
        return;
      }
      queue := queue + [job];
    }

    method Suspend()
      modifies this`isSuspended
      ensures isSuspended == (canSuspend || old(isSuspended))
    {
      if !canSuspend {
        return;
      }
      isSuspended := true;
    }
  }

  class ThreadHandlerManager {
    var handlers: map<string, ThreadHandlerImpl>
    var serial: Serial       // of the next temporary thread

    /** The singleton is there and cannot be suspended, all others can, and no two names share one. */
    ghost predicate Valid()
      reads this
    {
      && SINGLETON_THREAD_NAME in handlers
      && (forall name | name in handlers :: handlers[name].canSuspend <==> name != SINGLETON_THREAD_NAME)
      && (forall a, b | a in handlers && b in handlers && handlers[a] == handlers[b] :: a == b)
    }

    constructor ()
      ensures Valid() && handlers.Keys == {SINGLETON_THREAD_NAME}
      ensures fresh(handlers[SINGLETON_THREAD_NAME]) && serial == 0
    {
      var singleton := new ThreadHandlerImpl(false);
      handlers, serial := map[SINGLETON_THREAD_NAME := singleton], 0;
    }

    method CreateThreadHandler(name: string) returns (ok: bool)
      requires Valid()
      modifies this`handlers
      ensures Valid()
      ensures ok <==> name !in old(handlers)
      ensures !ok ==> handlers == old(handlers)
      ensures ok ==>
                && handlers.Keys == old(handlers).Keys + {name}
                && (forall n | n in old(handlers) :: handlers[n] == old(handlers)[n])
                && fresh(handlers[name]) && handlers[name].queue == [] && !handlers[name].isSuspended
    {
      if name in handlers {
        return false;
      }
      var handler := new ThreadHandlerImpl(true);
      handlers := handlers[name := handler];
      return true;
    }

    /** Posts the deletion request behind everything accepted so far and closes the queue. A handler
        that is already closed does not take a second request. */
    method DestroyThreadHandler(name: string)
      requires Valid()
      modifies handlers.Values
      ensures Valid() && handlers == old(handlers)
      ensures name != SINGLETON_THREAD_NAME && name in handlers ==>
                && handlers[name].isSuspended
                && handlers[name].queue ==
                   Posted(old(handlers[name].queue), old(handlers[name].isSuspended), RequestDeletion(name))
      ensures forall n | n in handlers && (n != name || name == SINGLETON_THREAD_NAME) ::
                handlers[n].queue == old(handlers[n].queue) && handlers[n].isSuspended == old(handlers[n].isSuspended)
    {
      if name == SINGLETON_THREAD_NAME {
        return;
      }
      if name !in handlers {
        return;
      }
      var handler := handlers[name];
      handler.PostTask(RequestDeletion(name));
      handler.Suspend();
    }

    method DeleteThreadHandler(name: string)
      requires Valid()
      modifies this`handlers
      ensures Valid()
      ensures handlers == if name == SINGLETON_THREAD_NAME then old(handlers) else old(handlers) - {name}
    {
      if name == SINGLETON_THREAD_NAME {
        return;
      }
      if name !in handlers {
        assert handlers - {name} == handlers;
        return;
      }
      handlers := handlers - {name};
    }

    method PostTask(name: string, task: nat)
      requires Valid()
      modifies handlers.Values
      ensures Valid() && handlers == old(handlers)
      ensures forall n | n in handlers ::
                && handlers[n].isSuspended == old(handlers[n].isSuspended)
                && handlers[n].queue ==
                   if n == name then Posted(old(handlers[n].queue), handlers[n].isSuspended, User(task))
                   else old(handlers[n].queue)
    {
      if name !in handlers {
        return;
      }
      var handler := handlers[name];
      handler.PostTask(User(task));
    }

    /** A thread for one task, named after the next serial: when its name is new, the task and then the
        deletion request are all it will ever hold. When the name is taken, the handler that has it gets
        both behind what it holds, unless it is closed, and is closed. */
    method PostTaskOnTemporaryThread(name: string, task: nat) returns (threadName: string)
      requires Valid()
      modifies this, handlers.Values
      ensures threadName == TemporaryName(name, old(serial)) && serial == (old(serial) + 1) % 0x1_0000_0000
      ensures Valid() && handlers.Keys == old(handlers).Keys + {threadName}
      ensures threadName !in old(handlers) ==>
                && handlers[threadName].queue == [User(task), RequestDeletion(threadName)]
                && handlers[threadName].isSuspended
      ensures threadName in old(handlers) ==>
                && handlers[threadName] == old(handlers)[threadName] && handlers[threadName].isSuspended
                && handlers[threadName].queue ==
                   old(handlers[threadName].queue) +
                   if old(handlers[threadName].isSuspended) then [] else [User(task), RequestDeletion(threadName)]
      ensures forall n | n in old(handlers) && n != threadName ::
                handlers[n] == old(handlers)[n] && handlers[n].queue == old(handlers[n].queue)
    {
      threadName := TemporaryName(name, serial);
      TemporaryIsNotSingleton(name, serial);
      serial := (serial + 1) % 0x1_0000_0000;
      var _ := CreateThreadHandler(threadName);
      PostTask(threadName, task);
      DestroyThreadHandler(threadName);
    }
  }
}

/**
 * All runs of the manager and its workers. `DestroyThreadHandler` posts and then suspends under the
 * manager's lock; a caller that kept a pointer to the handler may post in between. The worker's
 * deletion request only posts the deletion to the singleton thread, which runs its tasks in any order.
 */
module ThreadHandlerRuns {
  import opened Common
  import opened ThreadHandlers

  /** One handler instance: everything it ever accepted, and how much of it has run. */
  datatype Handler = Handler(name: string, suspended: bool, accepted: seq<Job>, ran: nat)

  /** A deletion waiting on the singleton thread. It knows only the name; `origin` records which
      instance's request posted it. */
  datatype Deletion = Deletion(name: string, origin: nat)

  datatype System = System(
    registered: map<string, nat>,
    handlers: seq<Handler>,
    deletions: seq<Deletion>,
    erased: set<nat>,
    destroying: Option<nat>)

  datatype Step =
    | Create(name: string)
    | BeginDestroy(name: string)
    | EndDestroy
    | Post(name: string, task: nat)
    | PostDirectly(handler: nat, task: nat)
    | Work(handler: nat)
    | Delete(place: nat)

  function Init(): System {
    System(map[], [], [], {}, None)
  }

  /** The manager's lock is held between the two halves of a destroy. */
  predicate Enabled(s: System, step: Step) {
    match step
    case Create(_) => s.destroying == None
    case BeginDestroy(_) => s.destroying == None
    case EndDestroy => s.destroying.Some? && s.destroying.value < |s.handlers|
    case Post(name, _) => s.destroying == None && (name in s.registered ==> s.registered[name] < |s.handlers|)
    case PostDirectly(h, _) => h < |s.handlers|
    case Work(h) => h < |s.handlers| && s.handlers[h].ran < |s.handlers[h].accepted|
    case Delete(k) => s.destroying == None && k < |s.deletions|
  }

  function Accept(s: System, h: nat, job: Job): System
    requires h < |s.handlers|
  {
    var w := s.handlers[h];
    s.(handlers := s.handlers[h := w.(accepted := Posted(w.accepted, w.suspended, job))])
  }

  function Next(s: System, step: Step): System
    requires Enabled(s, step)
  {
    match step
    case Create(name) =>
      if name == SINGLETON_THREAD_NAME || name in s.registered then s
      else s.(registered := s.registered[name := |s.handlers|], handlers := s.handlers + [Handler(name, false, [], 0)])
    case BeginDestroy(name) =>
      if name == SINGLETON_THREAD_NAME || name !in s.registered || s.registered[name] >= |s.handlers| then s
      else Accept(s, s.registered[name], RequestDeletion(name)).(destroying := Some(s.registered[name]))
    case EndDestroy =>
      var h := s.destroying.value;
      s.(handlers := s.handlers[h := s.handlers[h].(suspended := true)], destroying := None)
    case Post(name, task) => if name !in s.registered then s else Accept(s, s.registered[name], User(task))
    case PostDirectly(h, task) => Accept(s, h, User(task))
    case Work(h) =>
      var w := s.handlers[h];
      var done := s.(handlers := s.handlers[h := w.(ran := w.ran + 1)]);
      if w.accepted[w.ran].User? then done
      else done.(deletions := s.deletions + [Deletion(w.accepted[w.ran].name, h)])
    case Delete(k) =>
      var d := s.deletions[k];
      var fewer := s.(deletions := s.deletions[..k] + s.deletions[k + 1..]);
      if d.name !in s.registered then fewer
      else fewer.(registered := s.registered - {d.name}, erased := s.erased + {s.registered[d.name]})
  }

  predicate Possible(s: System, steps: seq<Step>)
    decreases |steps|
  {
    steps != [] ==> Enabled(s, steps[0]) && Possible(Next(s, steps[0]), steps[1..])
  }

  function Run(s: System, steps: seq<Step>): System
    requires Possible(s, steps)
    decreases |steps|
  {
    if steps == [] then s else Run(Next(s, steps[0]), steps[1..])
  }

  // ----- The invariant -----

  function Requests(w: Handler): nat {
    multiset(w.accepted)[RequestDeletion(w.name)]
  }

  /** How many deletions instance `h` has on their way or behind it. */
  function DeletionsOf(s: System, h: nat): nat
    requires h < |s.handlers|
  {
    multiset(s.deletions)[Deletion(s.handlers[h].name, h)] + if h in s.erased then 1 else 0
  }

  /** One request if it is being or has been destroyed, none before; and one deletion if that request
      has run, none before. */
  ghost predicate Tracked(s: System, h: nat)
    requires h < |s.handlers|
  {
    var w := s.handlers[h];
    && w.ran <= |w.accepted|
    && (forall j | j in w.accepted && j.RequestDeletion? :: j == RequestDeletion(w.name))
    && Requests(w) == (if w.suspended || s.destroying == Some(h) then 1 else 0)
    && DeletionsOf(s, h) == multiset(w.accepted[..w.ran])[RequestDeletion(w.name)]
  }

  /** The registered instances are those not erased, each under its own name. */
  ghost predicate Registered(s: System) {
    && (forall name | name in s.registered ::
          && s.registered[name] < |s.handlers| && s.handlers[s.registered[name]].name == name
          && s.registered[name] !in s.erased)
    && (forall h | 0 <= h < |s.handlers| && h !in s.erased ::
          s.handlers[h].name in s.registered && s.registered[s.handlers[h].name] == h)
    && SINGLETON_THREAD_NAME !in s.registered
  }

  ghost predicate Sound(s: System) {
    && Registered(s)
    && (forall h | 0 <= h < |s.handlers| :: Tracked(s, h))
    && (forall d | d in s.deletions :: d.origin < |s.handlers| && d.name == s.handlers[d.origin].name)
    && (forall h | h in s.erased :: h < |s.handlers|)
    && (s.destroying.Some? ==> s.destroying.value < |s.handlers|)
  }

  lemma RequestsRunAreRequests(w: Handler)
    requires w.ran <= |w.accepted|
    ensures multiset(w.accepted[..w.ran])[RequestDeletion(w.name)] <= Requests(w)
  {
    assert w.accepted == w.accepted[..w.ran] + w.accepted[w.ran..];
  }

  /** A deletion on the singleton's queue belongs to an instance that is still registered. */
  lemma DeletionFindsOrigin(s: System, d: Deletion)
    requires Sound(s) && d in s.deletions
    ensures d.origin !in s.erased && d.name in s.registered && s.registered[d.name] == d.origin
  {
    var w := s.handlers[d.origin];
    assert Tracked(s, d.origin);
    RequestsRunAreRequests(w);
    assert multiset(s.deletions)[d] >= 1;
  }

  lemma AcceptIsSound(s: System, h: nat, task: nat)
    requires Sound(s) && h < |s.handlers|
    ensures Sound(Accept(s, h, User(task)))
  {
    var s', w := Accept(s, h, User(task)), s.handlers[h];
    forall g | 0 <= g < |s'.handlers|
      ensures Tracked(s', g)
    {
      assert Tracked(s, g);
      if g == h && !w.suspended {
        assert s'.handlers[h].accepted[..w.ran] == w.accepted[..w.ran];
      }
    }
  }

  lemma BeginDestroyIsSound(s: System, name: string)
    requires Sound(s) && s.destroying == None && name in s.registered
    ensures Sound(Next(s, BeginDestroy(name)))
  {
    var s', h := Next(s, BeginDestroy(name)), s.registered[name];
    var w := s.handlers[h];
    forall g | 0 <= g < |s'.handlers|
      ensures Tracked(s', g)
    {
      assert Tracked(s, g);
      if g == h && !w.suspended {
        assert s'.handlers[h].accepted[..w.ran] == w.accepted[..w.ran];
      }
    }
  }

  /** What running one job does to the books of each instance. */
  lemma WorkTracks(s: System, h: nat, g: nat)
    requires Enabled(s, Work(h)) && g < |s.handlers|
    requires Tracked(s, h) && Tracked(s, g)
    ensures Tracked(Next(s, Work(h)), g)
  {
    var s', w := Next(s, Work(h)), s.handlers[h];
    var job := w.accepted[w.ran];
    assert w.accepted[..w.ran + 1] == w.accepted[..w.ran] + [job];
    assert job in w.accepted && s'.handlers[g].accepted == s.handlers[g].accepted;
    assert multiset(s'.deletions) ==
           multiset(s.deletions) + if job.User? then multiset{} else multiset{Deletion(w.name, h)};
  }

  lemma WorkIsSound(s: System, h: nat)
    requires Sound(s) && Enabled(s, Work(h))
    ensures Sound(Next(s, Work(h)))
  {
    var s', w := Next(s, Work(h)), s.handlers[h];
    assert Tracked(s, h);
    assert w.accepted[w.ran] in w.accepted;
    forall g | 0 <= g < |s'.handlers|
      ensures Tracked(s', g)
    {
      WorkTracks(s, h, g);
    }
    hide Tracked;
  }

  lemma DeleteIsSound(s: System, k: nat)
    requires Sound(s) && Enabled(s, Delete(k))
    ensures Sound(Next(s, Delete(k)))
  {
    var s', d := Next(s, Delete(k)), s.deletions[k];
    DeletionFindsOrigin(s, d);
    assert s.deletions == s.deletions[..k] + [d] + s.deletions[k + 1..];
    assert multiset(s.deletions) == multiset(s'.deletions) + multiset{d};
    forall g | 0 <= g < |s'.handlers|
      ensures Tracked(s', g)
    {
      assert Tracked(s, g);
    }
    forall e | e in s'.deletions
      ensures e in s.deletions
    {
    }
  }

  lemma StepIsSound(s: System, step: Step)
    requires Sound(s) && Enabled(s, step)
    ensures Sound(Next(s, step))
  {
    match step
    case Create(name) => CreateIsSound(s, name);
    case BeginDestroy(name) =>
      if name in s.registered {
        BeginDestroyIsSound(s, name);
      }
    case EndDestroy =>
      var s' := Next(s, step);
      forall g | 0 <= g < |s'.handlers|
        ensures Tracked(s', g)
      {
        assert Tracked(s, g);
      }
    case Post(name, task) =>
      if name in s.registered {
        AcceptIsSound(s, s.registered[name], task);
      }
    case PostDirectly(h, task) => AcceptIsSound(s, h, task);
    case Work(h) => WorkIsSound(s, h);
    case Delete(k) => DeleteIsSound(s, k);
  }

  lemma CreateIsSound(s: System, name: string)
    requires Sound(s) && s.destroying == None
    ensures Sound(Next(s, Create(name)))
  {
    var s' := Next(s, Create(name));
    if s' != s {
      forall g | 0 <= g < |s'.handlers|
        ensures Tracked(s', g)
      {
        if g < |s.handlers| {
          assert Tracked(s, g);
        } else {
          assert Deletion(name, g) !in s.deletions;
        }
      }
    }
  }

  lemma {:induction false} RunIsSound(s: System, steps: seq<Step>)
    requires Sound(s) && Possible(s, steps)
    ensures Sound(Run(s, steps))
    decreases |steps|
  {
    if steps != [] {
      StepIsSound(s, steps[0]);
      RunIsSound(Next(s, steps[0]), steps[1..]);
    }
  }

  ghost predicate Reachable(s: System) {
    exists steps | Possible(Init(), steps) :: Run(Init(), steps) == s
  }

  lemma ReachableIsSound(s: System)
    requires Reachable(s)
    ensures Sound(s)
  {
    var steps :| Possible(Init(), steps) && Run(Init(), steps) == s;
    RunIsSound(Init(), steps);
  }

  // ----- What it means -----

  /** However often it is destroyed, an instance accepts at most one deletion request and causes at
      most one deletion. */
  lemma AtMostOneDeletion(s: System, h: nat)
    requires Reachable(s) && h < |s.handlers|
    ensures Requests(s.handlers[h]) <= 1
    ensures DeletionsOf(s, h) <= 1
  {
    ReachableIsSound(s);
    assert Tracked(s, h);
    RequestsRunAreRequests(s.handlers[h]);
  }

  /** A deletion knows only a name, yet it always erases the very instance whose destruction caused it,
      never a later one under the same name. */
  lemma DeletesItsOwnHandler(s: System, k: nat)
    requires Reachable(s) && Enabled(s, Delete(k))
    ensures var d := s.deletions[k];
            && d.name in s.registered && s.registered[d.name] == d.origin
            && Next(s, Delete(k)).erased == s.erased + {d.origin}
  {
    ReachableIsSound(s);
    DeletionFindsOrigin(s, s.deletions[k]);
  }

  /** From a point where `w` was accepted with the deletion request right behind it. */
  ghost predicate Keeps(s: System, h: nat, before: seq<Job>, name: string) {
    h < |s.handlers| && before + [RequestDeletion(name)] <= s.handlers[h].accepted && s.handlers[h].name == name
  }

  lemma {:induction false} RunKeeps(s: System, steps: seq<Step>, h: nat, before: seq<Job>, name: string)
    requires Possible(s, steps) && Keeps(s, h, before, name)
    ensures Keeps(Run(s, steps), h, before, name)
    decreases |steps|
  {
    if steps != [] {
      RunKeeps(Next(s, steps[0]), steps[1..], h, before, name);
    }
  }

  /** Everything an instance accepted before it was first destroyed has run by the time it is erased. */
  lemma TasksRunBeforeErasure(s: System, name: string, steps: seq<Step>)
    requires Reachable(s) && s.destroying == None
    requires name in s.registered && s.registered[name] < |s.handlers| && !s.handlers[s.registered[name]].suspended
    requires Possible(Next(s, BeginDestroy(name)), steps)
    ensures var h := s.registered[name];
            var t := Run(Next(s, BeginDestroy(name)), steps);
            && h < |t.handlers|
            && s.handlers[h].accepted <= t.handlers[h].accepted
            && (h in t.erased ==> |s.handlers[h].accepted| < t.handlers[h].ran)
  {
    ReachableIsSound(s);
    var h := s.registered[name];
    var before := s.handlers[h].accepted;
    var s1 := Next(s, BeginDestroy(name));
    StepIsSound(s, BeginDestroy(name));
    assert Tracked(s, h);
    RunKeeps(s1, steps, h, before, name);
    RunIsSound(s1, steps);
    var t := Run(s1, steps);
    if h in t.erased {
      ErasedPastRequest(t, h, before, name);
    }
  }

  lemma ErasedPastRequest(t: System, h: nat, before: seq<Job>, name: string)
    requires Sound(t) && Keeps(t, h, before, name) && h in t.erased
    ensures |before| < t.handlers[h].ran
  {
    var w := t.handlers[h];
    assert Tracked(t, h);
    if w.ran <= |before| {
      TwoPlaces(w.accepted, w.ran, |before|, RequestDeletion(name));
    }
  }

  lemma TwoPlaces(jobs: seq<Job>, n: nat, p: nat, job: Job)
    requires n <= p < |jobs| && jobs[p] == job && multiset(jobs[..n])[job] >= 1
    ensures multiset(jobs)[job] >= 2
  {
    assert jobs == jobs[..n] + jobs[n..p] + [jobs[p]] + jobs[p + 1..];
  }
}
