/** The check-in page's component state and the handlers that change it: the mount effect that
    restores the saved history, the email field, the asynchronous check-in handler (split at its
    first `await` into `Submit` and `Complete`), the "home" button and the reset timers. */
module CheckIn {
  import opened Types
  import opened Strings
  import opened History
  import opened Gemini

  /** The value under the page's storage key: nothing, a list that parses, or text that does not. */
  datatype Stored = Absent | Saved(entries: seq<CheckInData>) | Unparseable

  /** A check-in handler suspended at its first `await`: the record it built and the history
      value its closure captured when the form was submitted. */
  datatype Pending = Pending(entry: CheckInData, snapshot: seq<CheckInData>)

  /** How the webhook POST settles: the opaque response arrives, or the request is rejected. */
  datatype PostOutcome = PostResolved | PostRejected

  /** Whether writing the storage key succeeds or throws (a full or disabled store). */
  datatype SaveOutcome = SaveWritten | SaveThrew

  const InvalidEmailMessage: string := "請輸入有效的電子郵件"
  const FailureMessage: string := "發生錯誤，請稍後再試。"

  class App {
    /** The webhook URL the page was built with, and whether it counts as configured. */
    const webhookUrl: string
    const backendConfigured: bool

    var email: string
    var status: AppStatus
    var history: seq<CheckInData>
    var aiMessage: string
    var errorMsg: Option<string>
    /** What the storage key holds. */
    var stored: Stored
    /** The records POSTed to the webhook, in the order the requests were issued. */
    var posted: seq<CheckInData>
    /** Check-in handlers waiting for their network results, oldest first. */
    var pending: seq<Pending>
    /** Reset-to-idle timers scheduled and not yet fired. */
    var timers: nat
    /** Whether the mount effect has run; it runs once. */
    var loaded: bool

    /** A submission in progress has a handler waiting; nothing is ever POSTed to an
        unconfigured webhook; every waiting handler passed the email validator. */
    ghost predicate Valid()
      reads this
    {
      backendConfigured == IsBackendConfigured(webhookUrl) &&
      (status == Submitting ==> pending != []) &&
      (!backendConfigured ==> posted == []) &&
      (forall k :: 0 <= k < |pending| ==> IsValidEmail(pending[k].entry.email))
    }

    /** The component's initial state; `saved` is what the storage key already holds. */
    constructor (url: string, saved: Stored)
      ensures Valid()
      ensures webhookUrl == url && stored == saved
      ensures email == "" && status == Idle && history == [] && aiMessage == "" && errorMsg == None
      ensures posted == [] && pending == [] && timers == 0 && !loaded
    {
      webhookUrl := url;
      backendConfigured := IsBackendConfigured(url);
      email, status, history, aiMessage, errorMsg := "", Idle, [], "", None;
      stored, posted, pending, timers, loaded := saved, [], [], 0, false;
    }

    /** The mount effect, which runs once: a saved list that parses replaces the history; a
        missing key or a parse failure leaves it as it was. */
    method LoadSaved()
      requires Valid() && !loaded
      modifies this`history, this`loaded
      ensures Valid() && loaded
      ensures stored.Saved? ==> history == stored.entries
      ensures !stored.Saved? ==> history == old(history)
    {
      match stored {
        case Saved(entries) =>
          history := entries;
        case _ =>
      }
      loaded := true;
    }

    /** Typing into the email field, which is shown and enabled only while idle or in error. */
    method EditEmail(value: string)
      requires Valid() && (status == Idle || status == Error)
      modifies this`email
      ensures Valid() && email == value
    {
      email := value;
    }

    /** Submitting the form, up to the handler's first `await`. The error message is cleared;
        an email the validator refuses then sets it to the validation message and changes
        nothing else. Otherwise the status becomes SUBMITTING, the record is built from the
        email and the given clock readings, the webhook POST is issued when the backend is
        configured, and the handler waits with the history its closure captured.
        `accepted` says which of the two happened. */
    method Submit(timestamp: string, id: string) returns (accepted: bool)
      requires Valid() && (status == Idle || status == Error)
      modifies this`errorMsg, this`status, this`posted, this`pending
      ensures Valid()
      ensures accepted <==> IsValidEmail(email)
      ensures !accepted ==>
        errorMsg == Some(InvalidEmailMessage) && status == old(status) &&
        posted == old(posted) && pending == old(pending)
      ensures accepted ==>
        var entry := CheckInData(email, timestamp, id);
        errorMsg == None && status == Submitting &&
        pending == old(pending) + [Pending(entry, history)] &&
        posted == old(posted) + (if backendConfigured then [entry] else [])
    {
      errorMsg := None;
      if !IsValidEmail(email) {
        errorMsg := Some(InvalidEmailMessage);
        return false;
      }
      status := Submitting;
      var entry := CheckInData(email, timestamp, id);
      if backendConfigured {
        posted := posted + [entry];
      }
      pending := pending + [Pending(entry, history)];
      accepted := true;
    }

    /** The rest of the handler waiting at position `k`, once its network results are in.
        A rejected POST to a configured webhook lands in the handler's catch block: error
        message, ERROR, and history, storage, message and email untouched. Otherwise the
        welcome message is shown and the captured history gets the new record in front; if
        writing storage then throws, the catch block still sets ERROR, with the new history
        shown but not stored. If it does not throw, storage holds the new history, the status
        is SUCCESS and the email field is emptied. Either way one reset timer is scheduled. */
    method Complete(k: nat, post: PostOutcome, reply: Option<string>, save: SaveOutcome)
      requires Valid() && k < |pending|
      modifies this`email, this`status, this`history, this`aiMessage, this`errorMsg,
               this`stored, this`pending, this`timers
      ensures Valid()
      ensures pending == old(pending[..k] + pending[k + 1..])
      ensures timers == old(timers) + 1
      ensures backendConfigured && post == PostRejected ==>
        errorMsg == Some(FailureMessage) && status == Error &&
        history == old(history) && stored == old(stored) &&
        aiMessage == old(aiMessage) && email == old(email)
      ensures !(backendConfigured && post == PostRejected) ==>
        aiMessage == WelcomeMessage(reply) &&
        history == PushHistory(old(pending[k].entry), old(pending[k].snapshot)) &&
        IsValidEmail(history[0].email)
      ensures !(backendConfigured && post == PostRejected) && save == SaveThrew ==>
        errorMsg == Some(FailureMessage) && status == Error &&
        stored == old(stored) && email == old(email)
      ensures !(backendConfigured && post == PostRejected) && save == SaveWritten ==>
        errorMsg == old(errorMsg) && status == Success &&
        stored == Saved(history) && email == ""
    {
      var p := pending[k];
      pending := pending[..k] + pending[k + 1..];
      timers := timers + 1;
      if backendConfigured && post == PostRejected {
        errorMsg := Some(FailureMessage);
        status := Error;
        return;
      }
      aiMessage := WelcomeMessage(reply);
      history := PushHistory(p.entry, p.snapshot);
      if save == SaveThrew {
        errorMsg := Some(FailureMessage);
        status := Error;
        return;
      }
      stored := Saved(history);
      status := Success;
      email := "";
    }

    /** The "home" button, shown only on the success panel. */
    method GoHome()
      requires Valid() && status == Success
      modifies this`status
      ensures Valid() && status == Idle
    {
      status := Idle;
    }

    /** One scheduled reset timer fires. It sets IDLE whatever the status is by then: nothing
        checks that the submission which scheduled it is still the current one. */
    method ResetTimerFires()
      requires Valid() && timers > 0
      modifies this`status, this`timers
      ensures Valid() && status == Idle && timers == old(timers) - 1
    {
      status := Idle;
      timers := timers - 1;
    }
  }
}
