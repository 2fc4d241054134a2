/**
 * The component state of the VibeCode app (VibeCodeApp.jsx:21-28) and the
 * handlers that update it: the enhancement run, sign-out, and the auth and
 * snapshot callbacks. Each React state setter is an assignment to a field.
 */
module VibeApp {

  import opened Wrappers
  import opened DataUri
  import opened Backoff
  import opened GeminiReply
  import opened PromptStore
  import opened Enhancement

  datatype User = User(uid: string)

  const ValidationMessage: string := "Please sign in, upload a photo, and write a prompt."
  const SignedOutMessage: string := "Successfully signed out."
  const SignOutErrorMessage: string := "Error signing out. Check the console for details."

  /** JavaScript truthiness of a nullable string: `null` and `''` are falsy. */
  predicate Truthy(s: Option<string>)
  {
    s.Some? && s.value != ""
  }

  /** The validation guard of line 104 lets the run go ahead. */
  predicate ReadyToEnhance(user: Option<User>, inputImage: Option<string>, vibe: string)
  {
    user.Some? && Truthy(inputImage) && vibe != ""
  }

  /**
   * The Enhance button is enabled (`disabled={!user || isEnhancing || !inputImage || !vibe}`):
   * exactly the clicks the handler's guard accepts, minus those made while a run is in flight.
   */
  function SubmitEnabled(user: Option<User>, isEnhancing: bool, inputImage: Option<string>, vibe: string): (enabled: bool)
    ensures enabled <==> ReadyToEnhance(user, inputImage, vibe) && !isEnhancing
  {
    !(user.None? || isEnhancing || !Truthy(inputImage) || vibe == "")
  }

  class App {
    var user: Option<User>
    var loading: bool
    var vibe: string
    var message: string
    var inputImage: Option<string>
    var generatedImage: Option<string>
    var isEnhancing: bool
    /** The prompt documents of the document store, keyed by user id. */
    var store: map<string, Doc>
    /** Prompt saves, generation attempts and backoff waits, in the order they happened. */
    var events: seq<Event>

    /** The initial `useState` values; `store` is what the document store already holds. */
    constructor (store: map<string, Doc>)
      ensures user == None && loading && vibe == "" && message == ""
      ensures inputImage == None && generatedImage == None && !isEnhancing
      ensures this.store == store && events == []
    {
      user := None;
      loading := true;
      vibe := "";
      message := "";
      inputImage := None;
      generatedImage := None;
      isEnhancing := false;
      this.store := store;
      events := [];
    }

    /**
     * `handleEnhancePhoto` (VibeCodeApp.jsx:103-189). `saveSucceeds` is the
     * outcome of the prompt save, `now` the clock reading of `new Date()`,
     * `replies` the endpoint's answers to successive attempts.
     */
    method EnhancePhoto(saveSucceeds: bool, now: int, replies: seq<Reply>)
      modifies this
      ensures user == old(user) && loading == old(loading) && vibe == old(vibe) && inputImage == old(inputImage)
      ensures !ReadyToEnhance(old(user), old(inputImage), old(vibe)) ==>
        && message == ValidationMessage
        && isEnhancing == old(isEnhancing) && generatedImage == old(generatedImage)
        && store == old(store) && events == old(events)
      ensures ReadyToEnhance(old(user), old(inputImage), old(vibe)) ==>
        && !isEnhancing
        && generatedImage == GeneratedImageAfter(Run(replies))
        && message == MessageAfter(Run(replies))
        && store == (if saveSucceeds then SavePrompt(old(store), old(user).value.uid, old(vibe), now) else old(store))
        && events == old(events) + EnhanceTrace(old(user).value.uid, old(vibe), now,
                                                RequestFor(old(vibe), old(inputImage).value), Run(replies).attempts)
    {
      if !ReadyToEnhance(user, inputImage, vibe) {
        message := ValidationMessage;
        return;
      }
      isEnhancing := true;
      generatedImage := None;
      message := EnhancingMessage;

      var prompt := vibe;
      var request := RequestFor(prompt, inputImage.value);
      var uid := user.value.uid;

      // The best-effort prompt save: a failure is only logged.
      events := events + [PromptWrite(uid, prompt, now)];
      if saveSucceeds {
        store := SavePrompt(store, uid, prompt, now);
      }
      ghost var saved := events;
      var run := FetchWithRetry(request, replies);
      assert events == old(events) + EnhanceTrace(uid, prompt, now, request, run.attempts) by {
        assert saved == old(events) + [PromptWrite(uid, prompt, now)];
        assert events == saved + AttemptTrace(request, run.attempts);
      }
      isEnhancing := false;
    }

    /**
     * The inner `fetchWithRetry` (VibeCodeApp.jsx:132-181), its recursion over
     * the captured `retryCount` written as a loop: attempt, and after a failure
     * wait and retry while `retryCount < maxRetries`.
     */
    method FetchWithRetry(request: Request, replies: seq<Reply>) returns (run: RunResult)
      requires isEnhancing && generatedImage == None && message == EnhancingMessage
      modifies this`events, this`generatedImage, this`message
      ensures run == Run(replies)
      ensures events == old(events) + AttemptTrace(request, run.attempts)
      ensures generatedImage == (if run.payload.Some? then GeneratedImageAfter(run) else old(generatedImage))
      ensures message == MessageAfter(run)
    {
      var retryCount := 0;
      events := events + [Attempt(request)];
      var payload := PayloadOf(ReplyAt(replies, retryCount));
      while payload.None? && retryCount < MaxRetries
        invariant 0 <= retryCount <= MaxRetries
        invariant payload == PayloadOf(ReplyAt(replies, retryCount))
        invariant Run(replies) == RunFrom(replies, retryCount)
        invariant events == old(events) + AttemptTrace(request, retryCount + 1)
        invariant generatedImage == old(generatedImage)
        decreases MaxRetries - retryCount
      {
        retryCount := retryCount + 1;
        events := events + [Wait(BackoffDelay(retryCount))];
        assert events == old(events) + FailedAttempts(request, retryCount);
        events := events + [Attempt(request)];
        payload := PayloadOf(ReplyAt(replies, retryCount));
      }
      run := RunResult(retryCount + 1, payload);
      match payload
      case Some(d) =>
        generatedImage := Some(PngDataUri(d));
        message := SuccessMessage;
      case None =>
        message := FailureMessage;
    }

    /** `handleSignOut` (VibeCodeApp.jsx:78-89); `succeeds` is the outcome of `signOut(auth)`. */
    method SignOut(succeeds: bool)
      modifies this
      ensures succeeds ==> message == SignedOutMessage && inputImage == None && generatedImage == None
      ensures !succeeds ==> message == SignOutErrorMessage && inputImage == old(inputImage) && generatedImage == old(generatedImage)
      ensures user == old(user) && loading == old(loading) && vibe == old(vibe) && isEnhancing == old(isEnhancing)
      ensures store == old(store) && events == old(events)
    {
      if succeeds {
        message := SignedOutMessage;
        inputImage := None;
        generatedImage := None;
      } else {
        message := SignOutErrorMessage;
      }
    }

    /**
     * The auth-state callback as written (VibeCodeApp.jsx:33-57): with a user
     * the callback returns at line 50, before `setLoading(false)` at line 56.
     */
    method OnAuthStateChangedAsWritten(u: Option<User>)
      modifies this
      ensures user == u
      ensures u.Some? ==> loading == old(loading) && vibe == old(vibe)
      ensures u.None? ==> !loading && vibe == ""
      ensures message == old(message) && inputImage == old(inputImage) && generatedImage == old(generatedImage)
      ensures isEnhancing == old(isEnhancing) && store == old(store) && events == old(events)
    {
      user := u;
      if u.None? {
        vibe := "";
        loading := false;
      }
    }

    /** The auth-state callback with loading finished on both branches. */
    method OnAuthStateChanged(u: Option<User>)
      modifies this
      ensures user == u && !loading
      ensures u.Some? ==> vibe == old(vibe)
      ensures u.None? ==> vibe == ""
      ensures message == old(message) && inputImage == old(inputImage) && generatedImage == old(generatedImage)
      ensures isEnhancing == old(isEnhancing) && store == old(store) && events == old(events)
    {
      user := u;
      if u.None? {
        vibe := "";
      }
      loading := false;
    }

    /** The prompt-document snapshot callback (VibeCodeApp.jsx:39-48); `None` is a missing document. */
    method OnSnapshot(doc: Option<Doc>)
      modifies this
      ensures vibe == SnapshotText(doc)
      ensures user == old(user) && loading == old(loading) && message == old(message)
      ensures inputImage == old(inputImage) && generatedImage == old(generatedImage)
      ensures isEnhancing == old(isEnhancing) && store == old(store) && events == old(events)
    {
      vibe := SnapshotText(doc);
    }
  }

  /** A reply whose single candidate carries one image part with data `d`. */
  function ImageReply(d: string): Reply
  {
    HttpReply(200, Some(Body(Some([Candidate(Some(Content(Some([
      Part(None, Some(InlineData(Some("image/png"), Some(d))))]))))]))))
  }

  /**
   * Three server errors, then an image, with a failed prompt save: the run
   * succeeds after waiting 1000, 2000 and 4000 milliseconds.
   */
  method RetriedSuccessScenario(prompt: string, upload: string, d: string)
    returns (message: string, image: Option<string>, waits: seq<nat>)
    requires prompt != "" && upload != "" && d != ""
    ensures message == SuccessMessage
    ensures image == Some(PngDataUri(d))
    ensures waits == [1000, 2000, 4000]
  {
    var app := new App(map[]);
    app.OnAuthStateChangedAsWritten(None);
    app.OnAuthStateChangedAsWritten(Some(User("u1")));
    app.vibe := prompt;
    app.inputImage := Some(upload);
    var replies := [HttpReply(500, None), HttpReply(500, None), HttpReply(500, None), ImageReply(d)];
    assert PayloadOf(ImageReply(d)) == Some(d);
    RunStopsAtFirstSuccess(replies, 3);
    app.EnhancePhoto(false, 0, replies);
    message, image := app.message, app.generatedImage;
    ghost var request := RequestFor(prompt, upload);
    EnhanceTraceShape("u1", prompt, 0, request, 4);
    DelayTable();
    assert app.events == EnhanceTrace("u1", prompt, 0, request, 4);
    waits := WaitsIn(app.events);
  }

  /** An empty prompt: only the validation message, no save and no attempt. */
  method EmptyPromptScenario(upload: string) returns (message: string, effects: nat)
    requires upload != ""
    ensures message == ValidationMessage
    ensures effects == 0
  {
    var app := new App(map[]);
    app.OnAuthStateChangedAsWritten(None);
    app.OnAuthStateChangedAsWritten(Some(User("u1")));
    app.inputImage := Some(upload);
    app.EnhancePhoto(true, 0, []);
    message, effects := app.message, |app.events|;
  }

  /**
   * The handler itself does not reject a second submission while a run is in
   * flight: the second run makes all its attempts and ends with `isEnhancing`
   * false although the first run has not finished.
   */
  method SubmitWhileEnhancingScenario(prompt: string, upload: string) returns (attempts: nat, enhancing: bool)
    requires prompt != "" && upload != ""
    ensures attempts == 4 && !enhancing
  {
    var app := new App(map[]);
    app.OnAuthStateChangedAsWritten(None);
    app.OnAuthStateChangedAsWritten(Some(User("u1")));
    app.vibe := prompt;
    app.inputImage := Some(upload);
    app.isEnhancing := true;
    assert !SubmitEnabled(app.user, app.isEnhancing, app.inputImage, app.vibe);
    app.EnhancePhoto(true, 0, []);
    RunExhaustsRetries([]);
    ghost var n := Run([]).attempts;
    ghost var request := RequestFor(prompt, upload);
    EnhanceTraceShape("u1", prompt, 0, request, n);
    assert app.events == EnhanceTrace("u1", prompt, 0, request, n);
    attempts, enhancing := AttemptsIn(app.events), app.isEnhancing;
  }

  /**
   * A restored session whose first auth notification already carries a user:
   * as written, `loading` stays true and the main panel never renders.
   */
  method RestoredSessionAsWritten(u: User) returns (stillLoading: bool)
    ensures stillLoading
  {
    var app := new App(map[]);
    app.OnAuthStateChangedAsWritten(Some(u));
    stillLoading := app.loading;
  }

  /** The same notification with loading finished on both branches. */
  method RestoredSession(u: User) returns (stillLoading: bool)
    ensures !stillLoading
  {
    var app := new App(map[]);
    app.OnAuthStateChanged(Some(u));
    stillLoading := app.loading;
  }
}
