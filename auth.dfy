/** The sign-in form. Before signing in, the locally stored session is
    cleared; a sign-in that fails with a "failed to fetch" error is retried
    once, after clearing the local session again. The sign-up branch of the
    same handler is a single backend call and is not part of this model. */
module Auth {
  import opened Common

  const MaxAttempts := 2
  const FetchFailure := "failed to fetch"
  const NetworkNotice := "Network/auth session issue. Please refresh once and try again."

  /** An error from the auth backend; its message may be missing. */
  datatype AuthError = AuthError(message: Option<string>)

  /** `/failed to fetch/i.test(error.message ?? "")`. */
  predicate IsFetchError(e: AuthError) {
    Contains(Lower(e.message.GetOr("")), FetchFailure)
  }

  /** The toast text for an error: a fixed notice for fetch failures, the
      error's own message otherwise. */
  function DisplayMessage(e: AuthError): (description: Option<string>)
    ensures IsFetchError(e) ==> description == Some(NetworkNotice)
    ensures !IsFetchError(e) ==> description == e.message
  {
    if IsFetchError(e) then Some(NetworkNotice) else e.message
  }

  /** The recognition of a fetch failure ignores letter case. */
  lemma FetchErrorIgnoresCase(message: string)
    ensures IsFetchError(AuthError(Some(Upper(message)))) == IsFetchError(AuthError(Some(message)))
  {
    LowerForgetsCase(message);
  }

  // ----------------------------------------------------------------- loop

  /** The backend-facing steps of a sign-in: a local sign-out, or a
      password sign-in attempt (numbered from 0). */
  datatype Step = ClearLocalSession | SignInAttempt(attempt: nat)

  /** `n` attempts, each one preceded by clearing the local session. */
  function Schedule(n: nat): seq<Step> {
    if n == 0 then [] else Schedule(n - 1) + [ClearLocalSession, SignInAttempt(n - 1)]
  }

  /** In a schedule, attempts are numbered in order and each comes right
      after a local sign-out. */
  lemma {:induction false} ScheduleShape(n: nat)
    ensures |Schedule(n)| == 2 * n
    ensures forall i :: 0 <= i < |Schedule(n)| && Schedule(n)[i].SignInAttempt? ==>
      i > 0 && Schedule(n)[i - 1] == ClearLocalSession && Schedule(n)[i].attempt == i / 2
    ensures forall i :: 0 <= i < |Schedule(n)| && Schedule(n)[i].SignInAttempt? ==> Schedule(n)[i].attempt < n
  {
    if n > 0 {
      ScheduleShape(n - 1);
    }
  }

  /** The retry loop of `handleAuth`. `replies[k]` is the backend's answer
      to attempt k: no error, or the error. Reports the steps taken, how
      many attempts were made, whether one succeeded, and the last error. */
  method SignInWithRetry(replies: seq<Option<AuthError>>)
    returns (steps: seq<Step>, attempts: nat, signedIn: bool, lastError: Option<AuthError>)
    requires |replies| == MaxAttempts
    ensures 1 <= attempts <= MaxAttempts && attempts == AttemptsMade(replies)
    ensures steps == Schedule(attempts)
    // a second attempt exactly when the first failed to fetch
    ensures attempts == 2 <==> replies[0].Some? && IsFetchError(replies[0].value)
    // success is the answer to the last attempt made
    ensures signedIn <==> replies[attempts - 1].None?
    // on failure the error raised is that of the last attempt
    ensures !signedIn ==> lastError == replies[attempts - 1]
  {
    steps := [ClearLocalSession];
    attempts := 0;
    signedIn := false;
    lastError := None;
    var attempt := 0;
    while attempt < MaxAttempts
      invariant attempt == attempts <= 1
      invariant steps == Schedule(attempt) + [ClearLocalSession]
      invariant attempt == 1 ==> replies[0].Some? && IsFetchError(replies[0].value)
      invariant !signedIn
    {
      steps := steps + [SignInAttempt(attempt)];
      attempts := attempts + 1;
      var error := replies[attempt];
      if error.None? {
        signedIn := true;
        return;
      }
      lastError := error;
      if !IsFetchError(error.value) || attempt == 1 {
        break;
      }
      steps := steps + [ClearLocalSession];
      attempt := attempt + 1;
    }
  }

  /** The number of attempts the loop makes: a second one only after a
      first that failed to fetch. */
  function AttemptsMade(replies: seq<Option<AuthError>>): nat
    requires |replies| == MaxAttempts
  {
    if replies[0].Some? && IsFetchError(replies[0].value) then 2 else 1
  }

  // ----------------------------------------------------------------- page

  /** Where `handleAuth` ends: on the dashboard, or on a destructive toast. */
  datatype AuthOutcome = ToDashboard | ShowError(description: Option<string>)

  class AuthPage {
    var loading: bool

    constructor ()
      ensures !loading
    {
      loading := false;
    }

    /** `handleAuth` in sign-in mode: loading is on while it runs and off on
        every way out; the answer to the last attempt made decides between
        the dashboard and a toast worded by `DisplayMessage`. */
    method HandleSignIn(replies: seq<Option<AuthError>>) returns (steps: seq<Step>, outcome: AuthOutcome)
      requires |replies| == MaxAttempts
      modifies this
      ensures !loading
      ensures steps == Schedule(AttemptsMade(replies))
      ensures var last := replies[AttemptsMade(replies) - 1];
        outcome == if last.None? then ToDashboard else ShowError(DisplayMessage(last.value))
    {
      loading := true;
      var attempts, signedIn, lastError;
      steps, attempts, signedIn, lastError := SignInWithRetry(replies);
      if signedIn {
        outcome := ToDashboard;
      } else {
        outcome := ShowError(DisplayMessage(lastError.value));
      }
      loading := false;
    }
  }
}
