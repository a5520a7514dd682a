/** The process-wide AdMob initializer: a claim flag taken with getAndSet,
    so the SDK setup runs for the first caller only. Calls are taken one at
    a time; the setup's asynchronous completion, which invokes the first
    caller's `onComplete`, is a separate event. */
module AdMobManager {
  import opened Wrappers

  datatype Manager = Manager(
    claimed: bool,          // isMobileAdsInitializeCalled
    setupRuns: nat,         // times MobileAds.initialize was started
    awaitingSdk: bool,      // the SDK has not yet called back
    completions: nat,       // times onComplete has fired
    testDevices: seq<string>)  // the request configuration applied

  /** The counters agree with the flag: one setup once claimed, none before,
      and that setup has either completed once or is still outstanding. */
  predicate Valid(m: Manager) {
    && m.setupRuns == (if m.claimed then 1 else 0)
    && m.completions + (if m.awaitingSdk then 1 else 0) == m.setupRuns
  }

  function Fresh(): (m: Manager)
    ensures Valid(m) && !IsInitialized(m)
    ensures m.setupRuns == 0 && m.completions == 0
  {
    Manager(false, 0, false, 0, [])
  }

  /** `initializeMobileAdsSdk`: the caller that flips the flag starts the
      setup and applies the test devices; every later caller returns at once
      and changes nothing. */
  function InitializeMobileAdsSdk(m: Manager, testDevices: seq<string>): (r: Manager)
    ensures IsInitialized(r)
    ensures IsInitialized(m) ==> r == m
    ensures !IsInitialized(m) ==>
              && r.setupRuns == m.setupRuns + 1 && r.awaitingSdk
              && r.completions == m.completions && r.testDevices == testDevices
    ensures Valid(m) ==> Valid(r)
  {
    if m.claimed then m
    else m.(claimed := true, setupRuns := m.setupRuns + 1, awaitingSdk := true, testDevices := testDevices)
  }

  /** The SDK's completion callback: fires `onComplete` for the setup that
      is outstanding, if any. */
  function SdkInitialized(m: Manager): (r: Manager)
    ensures r.claimed == m.claimed && r.setupRuns == m.setupRuns && !r.awaitingSdk
    ensures m.awaitingSdk ==> r.completions == m.completions + 1
    ensures !m.awaitingSdk ==> r == m
    ensures Valid(m) ==> Valid(r)
  {
    if m.awaitingSdk then m.(awaitingSdk := false, completions := m.completions + 1) else m
  }

  /** `isInitialized` reports the claim, not the SDK's completion: on a
      valid manager it holds exactly when the setup has been started, done
      or not. */
  predicate IsInitialized(m: Manager)
    ensures IsInitialized(m) <==> m.claimed
    ensures Valid(m) ==> (IsInitialized(m) <==> m.setupRuns == 1)
    ensures Valid(m) && !IsInitialized(m) ==> m.completions == 0 && !m.awaitingSdk
  {
    m.claimed
  }

  /** The holder of the lazily created singleton. The constructor is
      private, so every caller reaches the manager through `getInstance`. */
  datatype Process = Process(instance: Option<Manager>)

  datatype Lookup = Lookup(process: Process, manager: Manager)

  /** `getInstance`: creates the manager on first use and hands back the
      stored one ever after. */
  function GetInstance(p: Process): (r: Lookup)
    ensures r.process.instance == Some(r.manager)
    ensures p.instance.Some? ==> r.process == p && r.manager == p.instance.value
    ensures p.instance.None? ==> r.manager == Fresh()
  {
    match p.instance
    case Some(m) => Lookup(p, m)
    case None => Lookup(Process(Some(Fresh())), Fresh())
  }

  /** Every later `getInstance` returns the same manager and leaves the
      process as it was. */
  lemma GetInstanceIsStable(p: Process)
    ensures var first := GetInstance(p);
            GetInstance(first.process) == first
  {
  }

  /** The singleton, if created, is valid. */
  predicate ProcessValid(p: Process) {
    p.instance.Some? ==> Valid(p.instance.value)
  }

  /** `getInstance().isInitialized()`. */
  predicate Initialized(p: Process) {
    IsInitialized(GetInstance(p).manager)
  }

  /** Times the SDK setup was started in the process, and times
      `onComplete` fired. */
  function SetupRuns(p: Process): nat {
    match p.instance
    case None => 0
    case Some(m) => m.setupRuns
  }

  function Completions(p: Process): nat {
    match p.instance
    case None => 0
    case Some(m) => m.completions
  }

  /** `getInstance().initializeMobileAdsSdk(devices, …)`: the call acts on the
      one stored manager, so what it claims is seen by every later caller. */
  function CallInitialize(p: Process, devices: seq<string>): (r: Process)
    ensures Initialized(r)
    ensures Initialized(p) ==> r == GetInstance(p).process
    ensures !Initialized(p) ==>
              && SetupRuns(r) == SetupRuns(p) + 1 && r.instance.value.awaitingSdk
              && Completions(r) == Completions(p) && r.instance.value.testDevices == devices
    ensures ProcessValid(p) ==> ProcessValid(r)
  {
    var l := GetInstance(p);
    Process(Some(InitializeMobileAdsSdk(l.manager, devices)))
  }

  /** The SDK's completion callback, delivered to the stored manager; before
      any manager exists no setup can be outstanding, so nothing happens. */
  function Callback(p: Process): (r: Process)
    ensures Initialized(r) == Initialized(p) && SetupRuns(r) == SetupRuns(p)
    ensures p.instance.Some? && p.instance.value.awaitingSdk ==> Completions(r) == Completions(p) + 1
    ensures !(p.instance.Some? && p.instance.value.awaitingSdk) ==> r == p
    ensures ProcessValid(p) ==> ProcessValid(r)
  {
    match p.instance
    case None => p
    case Some(m) => Process(Some(SdkInitialized(m)))
  }

  datatype InitEvent = Call(testDevices: seq<string>) | SdkCallback

  function Apply(p: Process, e: InitEvent): Process {
    match e
    case Call(d) => CallInitialize(p, d)
    case SdkCallback => Callback(p)
  }

  function Run(p: Process, events: seq<InitEvent>): Process
    decreases |events|
  {
    if events == [] then p else Run(Apply(p, events[0]), events[1..])
  }

  predicate HasCall(events: seq<InitEvent>) {
    exists i | 0 <= i < |events| :: events[i].Call?
  }

  /** Across any sequence of calls and callbacks in the process, the setup
      runs at most once and `onComplete` fires at most once, and never
      before the setup started. */
  lemma {:induction false} AtMostOnce(p: Process, events: seq<InitEvent>)
    requires ProcessValid(p)
    ensures ProcessValid(Run(p, events))
    ensures SetupRuns(Run(p, events)) <= 1
    ensures Completions(Run(p, events)) <= SetupRuns(Run(p, events))
    decreases |events|
  {
    if events != [] {
      AtMostOnce(Apply(p, events[0]), events[1..]);
    } else if p.instance.Some? {
      assert Valid(p.instance.value);
    }
  }

  /** The flag never goes back: once `getInstance().isInitialized()`
      answers true, it does for ever. */
  lemma {:induction false} ClaimIsMonotone(p: Process, events: seq<InitEvent>)
    requires Initialized(p)
    ensures Initialized(Run(p, events))
    decreases |events|
  {
    if events != [] {
      ClaimIsMonotone(Apply(p, events[0]), events[1..]);
    }
  }

  /** The setup has run exactly once precisely when the process was already
      initialized or at least one call was made, however many there were. */
  lemma {:induction false} ExactlyOneSetup(p: Process, events: seq<InitEvent>)
    requires ProcessValid(p)
    ensures SetupRuns(Run(p, events)) == (if Initialized(p) || HasCall(events) then 1 else 0)
    decreases |events|
  {
    if events == [] {
      if p.instance.Some? {
        assert Valid(p.instance.value);
      }
    } else {
      var p' := Apply(p, events[0]);
      ExactlyOneSetup(p', events[1..]);
      if events[0].Call? {
        assert HasCall(events);
      } else if HasCall(events[1..]) {
        var i :| 0 <= i < |events[1..]| && events[1..][i].Call?;
        assert events[i + 1].Call?;
      }
    }
  }

  /** In a fresh process, right after the first call `getInstance()` reports
      the manager initialized while `onComplete` has not fired yet; a second
      call through `getInstance()` changes nothing, and the callback then
      completes the one setup. */
  lemma InitializedBeforeCompletion(devices: seq<string>, again: seq<string>)
    ensures var first := CallInitialize(Process(None), devices);
            && Initialized(first) && SetupRuns(first) == 1 && Completions(first) == 0
            && GetInstance(first).manager.testDevices == devices
            && CallInitialize(first, again) == first
            && Completions(Callback(first)) == 1
            && Completions(Callback(Callback(first))) == 1
  {
  }
}
