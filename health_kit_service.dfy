/**
 * `HealthKitService`'s authorization logic: the check run at start-up, which
 * requests authorization automatically the first time the status is not yet
 * determined, and the completion of that request. The HealthKit store, its
 * queries and its observer are reduced to counts of the fetches and observers
 * started; the status the store reports is a parameter, and the main-queue
 * hops happen at once.
 */
module HealthKitServiceModel {

  /** `HKAuthorizationStatus`, with `Unknown` for `@unknown default`. */
  datatype AuthorizationStatus = NotDetermined | SharingAuthorized | SharingDenied | Unknown

  /** The service's state. */
  datatype Auth = Auth(
    isAuthorized: bool,
    currentHeartRate: real,
    initialAuthCheckComplete: bool,
    isFirstLaunchAttempt: bool,
    requests: nat,
    fetches: nat,
    observers: nat)

  /** The state the initialisers leave, before the check in `init()`. */
  const Initial: Auth := Auth(false, 0.0, false, true, 0, 0, 0)

  /** Not authorized: the flag cleared, the reading reset, the check done. */
  function Unauthorized(a: Auth): Auth {
    a.(isAuthorized := false, currentHeartRate := 0.0, initialAuthCheckComplete := true)
  }

  /** `checkAuthorizationStatus()` given the status the store reports. */
  function Check(a: Auth, status: AuthorizationStatus): Auth {
    match status
    case NotDetermined =>
      if a.isFirstLaunchAttempt then a.(isFirstLaunchAttempt := false, requests := a.requests + 1)
      else Unauthorized(a)
    case SharingAuthorized =>
      a.(isAuthorized := true, fetches := a.fetches + 1, observers := a.observers + 1,
         initialAuthCheckComplete := true)
    case SharingDenied => Unauthorized(a)
    case Unknown => Unauthorized(a)
  }

  /** The completion of `requestAuthorization()` with the outcome `success`. */
  function Complete(a: Auth, success: bool): Auth {
    var a1 := a.(isAuthorized := success);
    var a2 := if success then a1.(fetches := a1.fetches + 1, observers := a1.observers + 1)
              else a1.(currentHeartRate := 0.0);
    a2.(initialAuthCheckComplete := true)
  }

  /** What can happen to the service: a status check, or an authorization
      request completing. */
  datatype Event = Checked(status: AuthorizationStatus) | Completed(success: bool)

  function Step(a: Auth, e: Event): Auth {
    match e
    case Checked(status) => Check(a, status)
    case Completed(success) => Complete(a, success)
  }

  function Run(a: Auth, es: seq<Event>): Auth
    decreases |es|
  {
    if es == [] then a else Step(Run(a, es[..|es| - 1]), es[|es| - 1])
  }

  /** Each step on its own: what the check and the completion promise. */
  lemma StepOutcomes(a: Auth, status: AuthorizationStatus, success: bool)
    ensures status == NotDetermined && a.isFirstLaunchAttempt ==>
      var b := Check(a, status);
      !b.isFirstLaunchAttempt && b.requests == a.requests + 1 &&
      b.isAuthorized == a.isAuthorized && b.initialAuthCheckComplete == a.initialAuthCheckComplete
    ensures (status == NotDetermined && !a.isFirstLaunchAttempt) || status == SharingDenied || status == Unknown ==>
      var b := Check(a, status);
      !b.isAuthorized && b.currentHeartRate == 0.0 && b.initialAuthCheckComplete && b.requests == a.requests
    ensures status == SharingAuthorized ==>
      var b := Check(a, status);
      b.isAuthorized && b.initialAuthCheckComplete && b.fetches == a.fetches + 1 && b.observers == a.observers + 1
    ensures var b := Complete(a, success);
      b.isAuthorized == success && b.initialAuthCheckComplete && b.requests == a.requests &&
      (!success ==> b.currentHeartRate == 0.0) &&
      (success ==> b.currentHeartRate == a.currentHeartRate && b.fetches == a.fetches + 1 && b.observers == a.observers + 1)
  {
  }

  /** Once the initial check is complete it stays complete. */
  lemma {:induction false} CheckCompleteStays(a: Auth, es: seq<Event>)
    requires a.initialAuthCheckComplete
    ensures Run(a, es).initialAuthCheckComplete
    decreases |es|
  {
    if es != [] {
      CheckCompleteStays(a, es[..|es| - 1]);
    }
  }

  /**
   * Whatever statuses are reported and whatever completions arrive, the
   * service requests authorization by itself at most once: exactly when some
   * check saw `NotDetermined`, and the first-attempt flag is down exactly then.
   */
  lemma {:induction false} AutoRequestAtMostOnce(es: seq<Event>)
    ensures Run(Initial, es).requests <= 1
    ensures Run(Initial, es).requests == 1 <==> Checked(NotDetermined) in es
    ensures Run(Initial, es).isFirstLaunchAttempt <==> Run(Initial, es).requests == 0
    decreases |es|
  {
    if es != [] {
      var init := es[..|es| - 1];
      AutoRequestAtMostOnce(init);
      assert es == init + [es[|es| - 1]];
      assert Checked(NotDetermined) in es <==> Checked(NotDetermined) in init || es[|es| - 1] == Checked(NotDetermined);
    }
  }

  class HealthKitService {
    var currentHeartRate: real
    var isAuthorized: bool
    var initialAuthCheckComplete: bool
    var isFirstLaunchAttempt: bool
    var requests: nat
    var fetches: nat
    var observers: nat

    function State(): Auth
      reads this
    {
      Auth(isAuthorized, currentHeartRate, initialAuthCheckComplete, isFirstLaunchAttempt,
           requests, fetches, observers)
    }

    /** `init()`: run the check with the status the store reports. */
    constructor (status: AuthorizationStatus)
      ensures State() == Check(Initial, status)
    {
      currentHeartRate, isAuthorized, initialAuthCheckComplete := 0.0, false, false;
      isFirstLaunchAttempt := true;
      requests, fetches, observers := 0, 0, 0;
      new;
      CheckAuthorizationStatus(status);
    }

    /** `requestAuthorization()`: the request goes to the store; its completion
        is `CompleteAuthorization`. */
    method RequestAuthorization()
      modifies this`requests
      ensures requests == old(requests) + 1
    {
      requests := requests + 1;
    }

    /** The completion handler of the authorization request. */
    method CompleteAuthorization(success: bool)
      requires requests > 0
      modifies this
      ensures State() == Complete(old(State()), success)
    {
      isAuthorized := success;
      if success {
        FetchLatestHeartRate();
        SetupHeartRateObserver();
      } else {
        currentHeartRate := 0.0;
      }
      initialAuthCheckComplete := true;
    }

    /** `fetchLatestHeartRate()`: one query started. */
    method FetchLatestHeartRate()
      modifies this`fetches
      ensures fetches == old(fetches) + 1
    {
      fetches := fetches + 1;
    }

    /** `setupHeartRateObserver()`: one observer query started. */
    method SetupHeartRateObserver()
      modifies this`observers
      ensures observers == old(observers) + 1
    {
      observers := observers + 1;
    }

    /** `checkAuthorizationStatus()` */
    method CheckAuthorizationStatus(status: AuthorizationStatus)
      modifies this
      ensures State() == Check(old(State()), status)
    {
      match status {
        case NotDetermined =>
          if isFirstLaunchAttempt {
            isFirstLaunchAttempt := false;
            RequestAuthorization();
          } else {
            isAuthorized := false;
            currentHeartRate := 0.0;
            initialAuthCheckComplete := true;
          }
        case SharingAuthorized =>
          isAuthorized := true;
          FetchLatestHeartRate();
          SetupHeartRateObserver();
          initialAuthCheckComplete := true;
        case SharingDenied =>
          isAuthorized := false;
          currentHeartRate := 0.0;
          initialAuthCheckComplete := true;
        case Unknown =>
          isAuthorized := false;
          currentHeartRate := 0.0;
          initialAuthCheckComplete := true;
      }
    }
  }
}
