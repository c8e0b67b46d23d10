/** The generation workflow of app.js: the form submit, the status polling with its
    interval timer, the image preload and display, the image actions and the gallery.
    The network, the timers and the image loader are outside the model: what the page
    sends out is appended to `requests`, and what comes back is a call to one of the
    `On...` methods. */
module Workflow {
  import opened JsString
  import opened Title
  import opened Gallery

  datatype Option<T> = None | Some(value: T)

  /** The ids `setInterval` hands out; browsers start at 1. */
  type TimerId = nat

  const NumInferenceSteps := 50
  const PollIntervalMs := 2000
  const GeneratingLabel := "Generating..."
  const IdleLabel := "Generate"
  const VariationSuffix := " (variation)"

  /** The JSON body of `POST /generate`; the constant guidance scale is left out. */
  datatype GenerationParams =
    GenerationParams(prompt: string, modelType: string, widthHeightRatio: string, numInferenceSteps: nat)

  /** What the page asks of the outside world. */
  datatype Request =
    | Generate(params: GenerationParams)  // POST /generate
    | StatusCheck(jobId: string)          // GET /status/{jobId}
    | ImageLoad(url: string)              // preloading an image by setting its src

  /** A live interval in the browser's timer table: which job it polls, how often. */
  datatype Interval = Interval(jobId: string, periodMs: nat)

  datatype Kind = Info | Success | Error
  datatype Notification = Notification(message: string, kind: Kind)

  /** How the generate request ended: a job id, or an error whose message may be "". */
  datatype GenerateOutcome = Accepted(jobId: string) | Rejected(message: string)

  /** A successful status response: `status` is "completed", "failed" or anything else. */
  datatype JobStatus =
    | Completed(imageUrl: string)
    | Failed(message: string)
    | InProgress(status: string)
  {
    /** Only a status other than "completed" and "failed" reaches the in-progress branch. */
    predicate WellFormed() {
      InProgress? ==> status != "completed" && status != "failed"
    }
  }

  /** The branch `pollJobStatus` takes on a successful response's `status`, carrying the
      response's image URL or message along. */
  function StatusOf(status: string, imageUrl: string, message: string): (r: JobStatus)
    ensures r.WellFormed()
    ensures r.Completed? <==> status == "completed"
    ensures r.Failed? <==> status == "failed"
    ensures r.Completed? ==> r.imageUrl == imageUrl
    ensures r.Failed? ==> r.message == message
    ensures r.InProgress? ==> r.status == status
  {
    if status == "completed" then Completed(imageUrl)
    else if status == "failed" then Failed(message)
    else InProgress(status)
  }

  /** The text of an error notification: `Error: ${message || fallback}`. */
  function ErrorText(message: string, fallback: string): string {
    "Error: " + OrElse(message, fallback)
  }

  /** A prompt with " (variation)" appended never trims to "". */
  lemma VariationNotBlank(prompt: string)
    ensures Trim(prompt + VariationSuffix) != ""
  {
    var p := prompt + VariationSuffix;
    assert p[|p| - 1] == ')';
    TrimNotEmpty(p, |p| - 1);
  }

  class App {
    // The form controls.
    var promptInput: string
    var modelType: string
    var widthHeightRatio: string
    // The generate button, the loading indicator, the preview and its action buttons.
    var generateButtonDisabled: bool
    var generateButtonLabel: string
    var loadingIndicatorHidden: bool
    var previewImage: Option<string>
    var imageActionsVisible: bool
    // The three module-level variables of app.js.
    var currentImageUrl: Option<string>
    var currentJobId: Option<string>
    var pollingInterval: Option<TimerId>
    // The browser's table of live intervals and the id the next one will get.
    var liveTimers: map<TimerId, Interval>
    var nextTimerId: TimerId
    // The gallery cards, newest first.
    var gallery: seq<GalleryItem>
    // Everything sent out and every notification shown, oldest first.
    var requests: seq<Request>
    var notifications: seq<Notification>

    /** The invariant: the button and the indicator agree with each other, every live
        interval is the one `pollingInterval` names (so there is at most one), and the
        current image is one the page asked to load. */
    ghost predicate StateValid()
      reads this
    {
      && generateButtonLabel == (if generateButtonDisabled then GeneratingLabel else IdleLabel)
      && loadingIndicatorHidden == !generateButtonDisabled
      && (forall t :: t in liveTimers ==> pollingInterval == Some(t))
      && 0 < nextTimerId
      && (pollingInterval.Some? ==> 0 < pollingInterval.value < nextTimerId)
      && (currentImageUrl.Some? ==> ImageLoad(currentImageUrl.value) in requests)
    }

    /** ... and, between events, the preview and its actions show the current image. */
    ghost predicate Valid()
      reads this
    {
      && StateValid()
      && previewImage == currentImageUrl
      && imageActionsVisible == currentImageUrl.Some?
    }

    /** `currentImageUrl` is truthy. */
    predicate HasImage()
      reads this
    {
      currentImageUrl.Some? && currentImageUrl.value != ""
    }

    /** The page as it is before any script runs: an empty prompt, an idle button,
        no image, no timer, an empty gallery. */
    constructor (modelType: string, widthHeightRatio: string)
      ensures Valid()
      ensures promptInput == "" && this.modelType == modelType && this.widthHeightRatio == widthHeightRatio
      ensures !generateButtonDisabled && previewImage == None
      ensures currentImageUrl == None && currentJobId == None && pollingInterval == None
      ensures liveTimers == map[] && nextTimerId == 1
      ensures gallery == [] && requests == [] && notifications == []
    {
      promptInput, this.modelType, this.widthHeightRatio := "", modelType, widthHeightRatio;
      generateButtonDisabled, generateButtonLabel, loadingIndicatorHidden := false, IdleLabel, true;
      previewImage, imageActionsVisible := None, false;
      currentImageUrl, currentJobId, pollingInterval := None, None, None;
      liveTimers, nextTimerId := map[], 1;
      gallery, requests, notifications := [], [], [];
    }

    /** There is never more than one live polling interval. */
    lemma AtMostOneLiveTimer()
      requires Valid()
      ensures |liveTimers| <= 1
    {
      if pollingInterval.Some? && pollingInterval.value in liveTimers {
        assert liveTimers.Keys == {pollingInterval.value};
      } else {
        assert liveTimers.Keys == {};
      }
    }

    /** Typing into the prompt box, or clicking a suggestion chip. */
    method SetPrompt(text: string)
      requires Valid()
      modifies this`promptInput
      ensures Valid() && promptInput == text
    {
      promptInput := text;
    }

    /** `setLoading`: the indicator, the button's state and its label follow the flag. */
    method SetLoading(isLoading: bool)
      requires Valid()
      modifies this`generateButtonDisabled, this`generateButtonLabel, this`loadingIndicatorHidden
      ensures Valid() && generateButtonDisabled == isLoading
    {
      if isLoading {
        loadingIndicatorHidden := false;
        generateButtonDisabled := true;
        generateButtonLabel := GeneratingLabel;
      } else {
        loadingIndicatorHidden := true;
        generateButtonDisabled := false;
        generateButtonLabel := IdleLabel;
      }
    }

    /** `clearInterval(handle)`: stops the interval the handle names; null stops nothing. */
    method ClearInterval(handle: Option<TimerId>)
      requires Valid()
      modifies this`liveTimers
      ensures Valid()
      ensures liveTimers == if handle.Some? then old(liveTimers) - {handle.value} else old(liveTimers)
    {
      if handle.Some? {
        liveTimers := liveTimers - {handle.value};
      }
    }

    /** `setInterval(() => pollJobStatus(jobId), 2000)`: a new live interval with a fresh id. */
    method SetInterval(jobId: string) returns (t: TimerId)
      modifies this`liveTimers, this`nextTimerId
      ensures t == old(nextTimerId) && nextTimerId == t + 1
      ensures liveTimers == old(liveTimers)[t := Interval(jobId, PollIntervalMs)]
    {
      t := nextTimerId;
      nextTimerId := nextTimerId + 1;
      liveTimers := liveTimers[t := Interval(jobId, PollIntervalMs)];
    }

    /** `resetUI`: idle button, no live interval, and the handle set back to null. */
    method ResetUI()
      requires Valid()
      modifies this`generateButtonDisabled, this`generateButtonLabel, this`loadingIndicatorHidden
      modifies this`liveTimers, this`pollingInterval
      ensures Valid() && !generateButtonDisabled
      ensures pollingInterval == None && liveTimers == map[]
    {
      SetLoading(false);
      ClearInterval(pollingInterval);
      assert liveTimers.Keys == {};
      pollingInterval := None;
    }

    method ShowNotification(message: string, kind: Kind)
      requires Valid()
      modifies this`notifications
      ensures Valid() && notifications == old(notifications) + [Notification(message, kind)]
    {
      notifications := notifications + [Notification(message, kind)];
    }

    /** `addToGallery`: one new card in front, the others kept in order. */
    method AddToGallery(url: string, prompt: string)
      requires Valid()
      modifies this`gallery
      ensures Valid() && gallery == [ItemFor(url, prompt)] + old(gallery)
    {
      gallery := [ItemFor(url, prompt)] + gallery;
    }

    /** `loadGalleryImages`: prepends the sample images one after the other, so they end
        up in front of the earlier cards in reverse list order. */
    method LoadGalleryImages()
      requires Valid()
      modifies this`gallery
      ensures Valid() && gallery == NewestFirst(SampleImages) + old(gallery)
    {
      PrependEach(SampleImages);
    }

    /** The `forEach` of `loadGalleryImages`: `addToGallery` for each image in turn. */
    method PrependEach(images: seq<SampleImage>)
      requires Valid()
      modifies this`gallery
      ensures Valid() && gallery == NewestFirst(images) + old(gallery)
    {
      for i := 0 to |images|
        invariant Valid()
        invariant gallery == NewestFirst(images[..i]) + old(gallery)
      {
        NewestFirstStep(images, i);
        PrependAssoc(ItemFor(images[i].url, images[i].prompt), NewestFirst(images[..i]), old(gallery));
        AddToGallery(images[i].url, images[i].prompt);
      }
      assert images[..|images|] == images;
    }

    /** `handleFormSubmit` up to its network call: a prompt that trims to "" only shows
        an error; any other prompt turns the loading state on and sends the trimmed
        prompt with the selected options and 50 inference steps. */
    method HandleFormSubmit()
      requires Valid()
      modifies this`generateButtonDisabled, this`generateButtonLabel, this`loadingIndicatorHidden
      modifies this`requests, this`notifications
      ensures Valid()
      ensures var prompt := Trim(promptInput);
        if prompt == "" then
          && notifications == old(notifications) + [Notification("Please enter a prompt", Error)]
          && requests == old(requests)
          && generateButtonDisabled == old(generateButtonDisabled)
        else
          && notifications == old(notifications)
          && generateButtonDisabled
          && requests == old(requests) +
               [Generate(GenerationParams(prompt, modelType, widthHeightRatio, NumInferenceSteps))]
    {
      var prompt := Trim(promptInput);
      if prompt == "" {
        ShowNotification("Please enter a prompt", Error);
        return;
      }
      SetLoading(true);
      var params := GenerationParams(prompt, modelType, widthHeightRatio, NumInferenceSteps);
      requests := requests + [Generate(params)];
    }

    /** The rest of `handleFormSubmit`: a job id starts polling; an error (a failed
        request or a non-success status) is shown and the UI is reset. */
    method OnGenerateResponse(outcome: GenerateOutcome)
      requires Valid()
      modifies this`generateButtonDisabled, this`generateButtonLabel, this`loadingIndicatorHidden
      modifies this`liveTimers, this`pollingInterval, this`requests, this`notifications
      ensures Valid()
      ensures match outcome
        case Accepted(jobId) =>
          && requests == old(requests) + [StatusCheck(jobId)]
          && notifications == old(notifications)
          && generateButtonDisabled == old(generateButtonDisabled)
          && pollingInterval == old(pollingInterval) && liveTimers == old(liveTimers)
        case Rejected(message) =>
          && requests == old(requests)
          && notifications == old(notifications) + [Notification(ErrorText(message, "Failed to generate image"), Error)]
          && !generateButtonDisabled && pollingInterval == None && liveTimers == map[]
    {
      match outcome
      case Accepted(jobId) =>
        PollJobStatus(jobId);
      case Rejected(message) =>
        ShowNotification(ErrorText(message, "Failed to generate image"), Error);
        ResetUI();
    }

    /** `pollJobStatus` up to its network call: asks for the job's status. */
    method PollJobStatus(jobId: string)
      requires Valid()
      modifies this`requests
      ensures Valid() && requests == old(requests) + [StatusCheck(jobId)]
    {
      requests := requests + [StatusCheck(jobId)];
    }

    /** A live interval fires and polls the job it was created for; a cleared one never
        fires. */
    method OnTimerFired(t: TimerId)
      requires Valid()
      modifies this`requests
      ensures Valid()
      ensures requests == if t in liveTimers then old(requests) + [StatusCheck(liveTimers[t].jobId)]
                          else old(requests)
    {
      if t in liveTimers {
        PollJobStatus(liveTimers[t].jobId);
      }
    }

    /** The rest of `pollJobStatus` for a successful response.
        Completed: the image is preloaded and the interval stopped, but the handle is
        left as it was. Failed: an error is shown and the UI reset. Anything else: the
        job becomes the current one, and an interval is created only if the handle is
        null. */
    method OnStatus(jobId: string, status: JobStatus)
      requires Valid() && status.WellFormed()
      modifies this`generateButtonDisabled, this`generateButtonLabel, this`loadingIndicatorHidden
      modifies this`liveTimers, this`nextTimerId, this`pollingInterval, this`currentJobId
      modifies this`requests, this`notifications
      ensures Valid()
      ensures match status
        case Completed(url) =>
          && requests == old(requests) + [ImageLoad(url)]
          && liveTimers == map[] && pollingInterval == old(pollingInterval) && nextTimerId == old(nextTimerId)
          && currentJobId == old(currentJobId) && notifications == old(notifications)
          && generateButtonDisabled == old(generateButtonDisabled)
        case Failed(message) =>
          && requests == old(requests)
          && notifications == old(notifications) + [Notification(ErrorText(message, "Image generation failed"), Error)]
          && !generateButtonDisabled && pollingInterval == None && liveTimers == map[]
          && nextTimerId == old(nextTimerId) && currentJobId == old(currentJobId)
        case InProgress(_) =>
          && requests == old(requests) && notifications == old(notifications)
          && generateButtonDisabled == old(generateButtonDisabled)
          && currentJobId == Some(jobId)
          && if old(pollingInterval).None? then
               && pollingInterval == Some(old(nextTimerId)) && nextTimerId == old(nextTimerId) + 1
               && liveTimers == map[old(nextTimerId) := Interval(jobId, PollIntervalMs)]
             else
               && pollingInterval == old(pollingInterval)
               && liveTimers == old(liveTimers) && nextTimerId == old(nextTimerId)
    {
      match status
      case Completed(url) =>
        FetchImage(url);
        ClearInterval(pollingInterval);
        assert liveTimers.Keys == {};
      case Failed(message) =>
        ShowNotification(ErrorText(message, "Image generation failed"), Error);
        ResetUI();
        ClearInterval(pollingInterval);
      case InProgress(_) =>
        currentJobId := Some(jobId);
        if pollingInterval.None? {
          assert liveTimers.Keys == {};
          var t := SetInterval(jobId);
          pollingInterval := Some(t);
        }
    }

    /** `OnStatus` as evidently intended: a completed job also sets the handle back to
        null, as `resetUI` does, so the next job's in-progress answer starts a new
        interval. The other two branches are those of `OnStatus`. */
    method OnStatusIntended(jobId: string, status: JobStatus)
      requires Valid() && status.WellFormed()
      modifies this`generateButtonDisabled, this`generateButtonLabel, this`loadingIndicatorHidden
      modifies this`liveTimers, this`nextTimerId, this`pollingInterval, this`currentJobId
      modifies this`requests, this`notifications
      ensures Valid()
      ensures match status
        case Completed(url) =>
          && requests == old(requests) + [ImageLoad(url)]
          && liveTimers == map[] && pollingInterval == None && nextTimerId == old(nextTimerId)
          && currentJobId == old(currentJobId) && notifications == old(notifications)
          && generateButtonDisabled == old(generateButtonDisabled)
        case Failed(message) =>
          && requests == old(requests)
          && notifications == old(notifications) + [Notification(ErrorText(message, "Image generation failed"), Error)]
          && !generateButtonDisabled && pollingInterval == None && liveTimers == map[]
          && nextTimerId == old(nextTimerId) && currentJobId == old(currentJobId)
        case InProgress(_) =>
          && requests == old(requests) && notifications == old(notifications)
          && generateButtonDisabled == old(generateButtonDisabled)
          && currentJobId == Some(jobId)
          && if old(pollingInterval).None? then
               && pollingInterval == Some(old(nextTimerId)) && nextTimerId == old(nextTimerId) + 1
               && liveTimers == map[old(nextTimerId) := Interval(jobId, PollIntervalMs)]
             else
               && pollingInterval == old(pollingInterval)
               && liveTimers == old(liveTimers) && nextTimerId == old(nextTimerId)
    {
      match status
      case Completed(url) =>
        FetchImage(url);
        ClearInterval(pollingInterval);
        assert liveTimers.Keys == {};
        pollingInterval := None;
      case Failed(_) =>
        OnStatus(jobId, status);
      case InProgress(_) =>
        OnStatus(jobId, status);
    }

    /** The `catch` of `pollJobStatus` (a failed request or a non-success status):
        an error is shown and the UI reset. */
    method OnPollError(message: string)
      requires Valid()
      modifies this`generateButtonDisabled, this`generateButtonLabel, this`loadingIndicatorHidden
      modifies this`liveTimers, this`pollingInterval, this`notifications
      ensures Valid()
      ensures notifications == old(notifications) + [Notification(ErrorText(message, "Failed to check job status"), Error)]
      ensures !generateButtonDisabled && pollingInterval == None && liveTimers == map[]
    {
      ShowNotification(ErrorText(message, "Failed to check job status"), Error);
      ResetUI();
      ClearInterval(pollingInterval);
    }

    /** `fetchImage` up to the load: starts preloading the image. */
    method FetchImage(url: string)
      requires Valid()
      modifies this`requests
      ensures Valid() && requests == old(requests) + [ImageLoad(url)]
    {
      requests := requests + [ImageLoad(url)];
    }

    /** The `onload` of `fetchImage`: the image becomes the current one and is shown. */
    method OnImageLoaded(url: string)
      requires Valid() && ImageLoad(url) in requests
      modifies this`currentImageUrl, this`previewImage, this`imageActionsVisible, this`gallery
      modifies this`generateButtonDisabled, this`generateButtonLabel, this`loadingIndicatorHidden
      ensures Valid()
      ensures currentImageUrl == Some(url) && previewImage == Some(url) && imageActionsVisible
      ensures gallery == [ItemFor(url, promptInput)] + old(gallery)
      ensures !generateButtonDisabled
    {
      currentImageUrl := Some(url);
      DisplayImage(url);
    }

    /** `displayImage`: shows the image and its actions, adds a card titled from what
        the prompt box holds now, and ends the loading state. */
    method DisplayImage(url: string)
      requires currentImageUrl == Some(url)
      requires StateValid()
      modifies this`previewImage, this`imageActionsVisible, this`gallery
      modifies this`generateButtonDisabled, this`generateButtonLabel, this`loadingIndicatorHidden
      ensures Valid()
      ensures previewImage == Some(url) && imageActionsVisible
      ensures gallery == [ItemFor(url, promptInput)] + old(gallery)
      ensures !generateButtonDisabled
    {
      previewImage := Some(url);
      imageActionsVisible := true;
      AddToGallery(url, promptInput);
      SetLoading(false);
    }

    /** `handleDownload`: nothing without a current image; otherwise a download of it
        and a success notice. */
    method HandleDownload() returns (href: Option<string>)
      requires Valid()
      modifies this`notifications
      ensures Valid()
      ensures HasImage() ==>
        && href == currentImageUrl
        && notifications == old(notifications) + [Notification("Image downloaded successfully", Success)]
      ensures !HasImage() ==> href == None && notifications == old(notifications)
    {
      if !HasImage() {
        return None;
      }
      href := currentImageUrl;
      ShowNotification("Image downloaded successfully", Success);
    }

    /** `handleShare`: the URL handed to the share sheet or the clipboard, or nothing
        without a current image. */
    method HandleShare() returns (shared: Option<string>)
      ensures shared.Some? <==> HasImage()
      ensures shared.Some? ==> shared == currentImageUrl
    {
      if !HasImage() {
        return None;
      }
      shared := currentImageUrl;
    }

    /** `handleVariations`: appends " (variation)" to the prompt, clicks the generate
        button (which does nothing while the button is disabled) and shows a notice. */
    method HandleVariations()
      requires Valid()
      modifies this`promptInput, this`requests, this`notifications
      modifies this`generateButtonDisabled, this`generateButtonLabel, this`loadingIndicatorHidden
      ensures Valid()
      ensures promptInput == old(promptInput) + VariationSuffix
      ensures generateButtonDisabled
      ensures notifications == old(notifications) + [Notification("Creating a variation of this image...", Info)]
      ensures requests == if old(generateButtonDisabled) then old(requests)
        else old(requests) + [Generate(GenerationParams(Trim(promptInput), modelType, widthHeightRatio, NumInferenceSteps))]
    {
      VariationNotBlank(promptInput);
      SetPrompt(promptInput + VariationSuffix);
      if !generateButtonDisabled {
        HandleFormSubmit();
        assert requests == old(requests) + [Generate(GenerationParams(Trim(promptInput), modelType, widthHeightRatio, NumInferenceSteps))];
      } else {
        assert requests == old(requests);
      }
      ShowNotification("Creating a variation of this image...", Info);
    }
  }
}
