/** Runs of the check-in page, driven through its handlers as the browser would, with the
    outcomes of what the network does chosen for each run. */
module Scenarios {
  import opened Types
  import opened Strings
  import opened History
  import opened Gemini
  import opened CheckIn

  /** The page is never stuck in SUBMITTING: a handler is always waiting then, and completing
      it leaves SUBMITTING, whatever its network results are. */
  method SubmittingCanComplete(app: App, post: PostOutcome, reply: Option<string>, save: SaveOutcome)
    requires app.Valid() && app.status == Submitting
    modifies app
    ensures app.Valid() && app.status != Submitting
  {
    app.Complete(0, post, reply, save);
  }

  /** With the shipped webhook URL, a POST that is rejected (the network is down) ends the
      check-in in ERROR: the awaited request throws inside the handler's try block, so the
      record is neither shown nor saved. */
  method WebhookRejectionIsError(reply: Option<string>) returns (status: AppStatus, history: seq<CheckInData>, error: Option<string>)
    ensures status == Error && history == [] && error == Some(FailureMessage)
  {
    var app := new App(GoogleScriptUrl, Absent);
    app.LoadSaved();
    app.EditEmail("a@b.com");
    ShippedUrlConfigured();
    ValidEmailIff("a@b.com");
    var accepted := app.Submit("t0", "1");
    app.Complete(0, PostRejected, reply, SaveWritten);
    status, history, error := app.status, app.history, app.errorMsg;
  }

  /** When the welcome-message call fails but the webhook answers, the check-in succeeds with
      the fallback sentence, the record heads the history, and a page loaded afterwards from
      the same storage shows the same history. */
  method GeneratorFailureStillSucceeds(url: string) returns (status: AppStatus, message: string, history: seq<CheckInData>, reloaded: seq<CheckInData>)
    ensures status == Success && message == ErrorFallback
    ensures history == [CheckInData("a@b.com", "t0", "1")]
    ensures reloaded == history
  {
    var app := new App(url, Unparseable);
    app.LoadSaved();
    app.EditEmail("a@b.com");
    ValidEmailIff("a@b.com");
    var accepted := app.Submit("t0", "1");
    app.Complete(0, PostResolved, None, SaveWritten);
    status, message, history := app.status, app.aiMessage, app.history;
    var next := new App(url, app.stored);
    next.LoadSaved();
    reloaded := next.history;
  }

  /** The first check-in of the run below: it succeeds, and the "home" button is pressed while
      its reset timer is still pending. */
  method FirstCheckInThenHome(url: string, a: CheckInData) returns (app: App)
    requires IsValidEmail(a.email)
    ensures fresh(app) && app.Valid()
    ensures app.webhookUrl == url && app.history == [a] && app.pending == []
    ensures app.status == Idle && app.timers == 1
  {
    app := new App(url, Absent);
    app.LoadSaved();
    app.EditEmail(a.email);
    var ok := app.Submit(a.timestamp, a.id);
    app.Complete(0, PostResolved, Some("hi"), SaveWritten);
    app.GoHome();
  }

  /** Both waiting check-ins of the run below complete successfully, the older one first. */
  method CompleteInOrder(app: App, a: CheckInData, b: CheckInData, c: CheckInData)
    requires app.Valid() && app.pending == [Pending(b, [a]), Pending(c, [a])]
    modifies app
    ensures app.history == [c, a]
  {
    app.Complete(0, PostResolved, Some("hi"), SaveWritten);
    assert app.pending == [Pending(c, [a])];
    app.Complete(0, PostResolved, Some("hi"), SaveWritten);
  }

  /** A reset timer left over from an earlier check-in fires while a later one is still
      waiting, which re-enables the form; a second check-in submitted then captures the same
      history as the first, so whichever completes last overwrites the other's record. Here
      the record of id "2" is lost even though both check-ins succeeded. */
  method StaleTimerDropsCheckIn(url: string) returns (history: seq<CheckInData>, lost: CheckInData)
    ensures lost == CheckInData("b@ntnu", "t2", "2")
    ensures lost !in history
    ensures history == [CheckInData("c@ntnu", "t3", "3"), CheckInData("a@ntnu", "t1", "1")]
  {
    var a, b, c := CheckInData("a@ntnu", "t1", "1"), CheckInData("b@ntnu", "t2", "2"), CheckInData("c@ntnu", "t3", "3");
    ValidEmailIff(a.email);
    ValidEmailIff(b.email);
    ValidEmailIff(c.email);
    var app := FirstCheckInThenHome(url, a);
    app.EditEmail(b.email);
    var ok := app.Submit(b.timestamp, b.id);
    app.ResetTimerFires();
    app.EditEmail(c.email);
    ok := app.Submit(c.timestamp, c.id);
    assert app.pending == [Pending(b, [a]), Pending(c, [a])];
    CompleteInOrder(app, a, b, c);
    history, lost := app.history, b;
  }
}
