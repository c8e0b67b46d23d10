/** Whole runs of the page, driven only through the contracts of `Workflow.App`. */
module Scenarios {
  import opened JsString
  import opened Title
  import opened Gallery
  import opened Workflow

  /** The page once `DOMContentLoaded` has run: idle, with the four sample cards in
      reverse list order and nothing sent. */
  method LoadedPage() returns (app: App)
    ensures fresh(app) && app.Valid()
    ensures app.gallery == NewestFirst(SampleImages)
    ensures app.requests == [] && app.notifications == [] && !app.generateButtonDisabled
    ensures app.liveTimers == map[] && app.pollingInterval == None && app.nextTimerId == 1
    ensures app.promptInput == "" && app.modelType == "sketch" && app.widthHeightRatio == "1:1"
  {
    app := new App("sketch", "1:1");
    app.LoadGalleryImages();
  }

  /** Submitting a prompt that does not trim to "": the trimmed prompt is sent with
      the selected options and 50 steps, and the button says "Generating...". */
  method Submit(prompt: string) returns (app: App, sent: Request)
    requires Trim(prompt) != ""
    ensures fresh(app) && app.Valid()
    ensures sent == Generate(GenerationParams(Trim(prompt), "sketch", "1:1", 50))
    ensures app.requests == [sent] && app.notifications == []
    ensures app.liveTimers == map[] && app.pollingInterval == None && app.nextTimerId == 1
    ensures app.promptInput == prompt && app.gallery == NewestFirst(SampleImages) && app.generateButtonDisabled
  {
    app := LoadedPage();
    app.SetPrompt(prompt);
    app.HandleFormSubmit();
    assert app.requests == [Generate(GenerationParams(Trim(prompt), "sketch", "1:1", 50))];
    sent := app.requests[0];
  }

  /** The accepted job "job_42" is asked for its status before any interval exists. */
  method SubmitRun(prompt: string) returns (app: App, sent: Request)
    requires Trim(prompt) != ""
    ensures fresh(app) && app.Valid()
    ensures sent == Generate(GenerationParams(Trim(prompt), "sketch", "1:1", 50))
    ensures app.requests == [sent, StatusCheck("job_42")]
    ensures app.liveTimers == map[] && app.pollingInterval == None && app.nextTimerId == 1
    ensures app.promptInput == prompt && app.gallery == NewestFirst(SampleImages) && app.generateButtonDisabled
  {
    app, sent := Submit(prompt);
    app.OnGenerateResponse(Accepted("job_42"));
  }

  /** The polling that follows: two in-progress answers leave exactly one interval,
      polling that job every 2000 ms, while the button says "Generating...". */
  method PollingRun(prompt: string) returns (app: App, sent: Request)
    requires Trim(prompt) != ""
    ensures fresh(app) && app.Valid()
    ensures sent == Generate(GenerationParams(Trim(prompt), "sketch", "1:1", 50))
    ensures app.liveTimers == map[1 := Interval("job_42", 2000)]
    ensures app.pollingInterval == Some(1) && app.nextTimerId == 2
    ensures app.promptInput == prompt && app.gallery == NewestFirst(SampleImages)
    ensures app.generateButtonDisabled && app.currentJobId == Some("job_42")
  {
    app, sent := SubmitRun(prompt);
    app.OnStatus("job_42", StatusOf("processing", "", ""));
    assert app.promptInput == prompt && app.gallery == NewestFirst(SampleImages) && app.generateButtonDisabled;
    assert app.pollingInterval == Some(1) && app.nextTimerId == 2;
    assert app.liveTimers == map[1 := Interval("job_42", 2000)];
    app.OnTimerFired(1);
    app.OnStatus("job_42", StatusOf("processing", "", ""));
  }

  /** The second half: once the timer polls again and the job is completed, the image
      loads; the gallery's newest card shows it under the prompt, in front of the four
      sample cards, no interval is live
      and the page is idle, but the handle is still set. */
  method GenerationRun(prompt: string, url: string) returns (app: App)
    requires Trim(prompt) != ""
    ensures fresh(app) && app.Valid()
    ensures app.gallery == [ItemFor(url, prompt)] + NewestFirst(SampleImages)
    ensures app.liveTimers == map[] && app.pollingInterval == Some(1) && app.nextTimerId == 2
    ensures !app.generateButtonDisabled && app.currentImageUrl == Some(url)
  {
    var sent;
    app, sent := PollingRun(prompt);
    app.OnTimerFired(1);
    assert app.promptInput == prompt && app.gallery == NewestFirst(SampleImages) && app.pollingInterval == Some(1);
    app.OnStatus("job_42", StatusOf("completed", url, ""));
    assert app.promptInput == prompt && app.gallery == NewestFirst(SampleImages) && app.pollingInterval == Some(1);
    assert app.nextTimerId == 2 && app.liveTimers == map[] && ImageLoad(url) in app.requests;
    app.OnImageLoaded(url);
  }

  /** After a completed job the handle stays set, so when a second job answers
      "pending" no interval is created: nothing polls it again while the button keeps
      saying "Generating...". */
  method SecondJobIsNotPolled(first: string, second: string)
    returns (timers: nat, handle: Option<TimerId>, buttonLabel: string)
    requires Trim(first) != "" && Trim(second) != ""
    ensures timers == 0 && handle == Some(1) && buttonLabel == "Generating..."
  {
    var app := GenerationRun(first, "https://cdn/1.png");
    app.SetPrompt(second);
    app.HandleFormSubmit();
    assert app.generateButtonDisabled && app.pollingInterval == Some(1) && app.liveTimers == map[];
    app.OnGenerateResponse(Accepted("job_2"));
    assert app.generateButtonDisabled && app.pollingInterval == Some(1) && app.liveTimers == map[];
    app.OnStatus("job_2", StatusOf("pending", "", ""));
    timers := |app.liveTimers|;
    handle := app.pollingInterval;
    buttonLabel := app.generateButtonLabel;
  }

  /** The same run with the completed transition as intended: once the image is
      shown, neither an interval nor a handle is left. */
  method IntendedGenerationRun(prompt: string, url: string) returns (app: App)
    requires Trim(prompt) != ""
    ensures fresh(app) && app.Valid()
    ensures app.gallery == [ItemFor(url, prompt)] + NewestFirst(SampleImages)
    ensures app.liveTimers == map[] && app.pollingInterval == None && app.nextTimerId == 2
    ensures !app.generateButtonDisabled && app.currentImageUrl == Some(url)
  {
    var sent;
    app, sent := PollingRun(prompt);
    app.OnTimerFired(1);
    assert app.promptInput == prompt && app.gallery == NewestFirst(SampleImages) && app.nextTimerId == 2;
    app.OnStatusIntended("job_42", StatusOf("completed", url, ""));
    assert app.promptInput == prompt && app.gallery == NewestFirst(SampleImages) && app.pollingInterval == None;
    assert app.nextTimerId == 2 && app.liveTimers == map[] && ImageLoad(url) in app.requests;
    app.OnImageLoaded(url);
  }

  /** With the intended completed transition, a second job's in-progress answer starts
      a new interval that polls that job every 2000 ms. */
  method SecondJobIsPolledIntended(first: string, second: string)
    returns (timers: map<TimerId, Interval>, handle: Option<TimerId>, buttonLabel: string)
    requires Trim(first) != "" && Trim(second) != ""
    ensures timers == map[2 := Interval("job_2", 2000)] && handle == Some(2)
    ensures buttonLabel == "Generating..."
  {
    var app := IntendedGenerationRun(first, "https://cdn/1.png");
    app.SetPrompt(second);
    app.HandleFormSubmit();
    assert app.generateButtonDisabled && app.pollingInterval == None && app.nextTimerId == 2;
    app.OnGenerateResponse(Accepted("job_2"));
    assert app.generateButtonDisabled && app.pollingInterval == None && app.nextTimerId == 2;
    app.OnStatusIntended("job_2", StatusOf("pending", "", ""));
    timers := app.liveTimers;
    handle := app.pollingInterval;
    buttonLabel := app.generateButtonLabel;
  }

  /** A blank prompt sends nothing and leaves the button idle; only the error shows. */
  method BlankPromptSendsNothing(prompt: string) returns (sent: nat, shown: seq<Notification>, loading: bool)
    requires IsBlank(prompt)
    ensures sent == 0 && !loading
    ensures shown == [Notification("Please enter a prompt", Error)]
  {
    var app := new App("sketch", "1:1");
    app.SetPrompt(prompt);
    TrimEmptyIffBlank(prompt);
    app.HandleFormSubmit();
    sent := |app.requests|;
    shown := app.notifications;
    loading := app.generateButtonDisabled;
  }
}
