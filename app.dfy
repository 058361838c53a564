/** The main component (src/App.tsx) as an object: its state variables are
    fields, its event handlers and the countdown's interval callback are
    methods, and the `useAnalysis` hook it holds is a second object. The
    results of network calls, the access token of the session and the clock
    are parameters. React's render/effect scheduling is not modelled: each
    handler runs to completion as one step. */
module GlowApp {
  import opened Strings
  import opened AnalysisTypes
  import opened AppView
  import opened UseAnalysis
  import opened SessionCodec

  // ---------------------------------------------------------------------------
  // The two mount effects

  /** The screen after the two mount effects as the source orders them: the
      payment-return effect runs first and the restore effect second, so a
      restored, unexpired analysis overrides the return from payment. */
  function MountScreenAsWritten(paymentSuccess: bool, restored: Option<AnalysisResult>, nowMs: int): (s: AppState)
    ensures s == Preview <==> restored.Some? && RemainingSeconds(restored.value.expiresAt, nowMs) > 0
    ensures s == PostPaymentAuth <==>
      paymentSuccess && !(restored.Some? && RemainingSeconds(restored.value.expiresAt, nowMs) > 0)
    ensures s == Preview || s == PostPaymentAuth || s == Landing
  {
    var afterRedirect := if paymentSuccess then PostPaymentAuth else Landing;
    if restored.Some? && RemainingSeconds(restored.value.expiresAt, nowMs) > 0 then Preview else afterRedirect
  }

  /** The screen after mounting as intended: coming back from a successful
      payment always opens the sign-up step; otherwise an unexpired stored
      analysis reopens the preview. */
  function MountScreen(paymentSuccess: bool, restored: Option<AnalysisResult>, nowMs: int): (s: AppState)
    ensures paymentSuccess ==> s == PostPaymentAuth
    ensures !paymentSuccess ==> s == MountScreenAsWritten(false, restored, nowMs)
  {
    if paymentSuccess then PostPaymentAuth
    else if restored.Some? && RemainingSeconds(restored.value.expiresAt, nowMs) > 0 then Preview
    else Landing
  }

  /** The discrepancy: a user who returns from checkout within the hour, so
      that the anonymous analysis is still stored, lands on the preview
      instead of the sign-up step that saves the analysis and opens the plan. */
  lemma PaymentReturnLostAsWritten(t: AnalysisResult, nowMs: int)
    requires t.expiresAt - nowMs >= 1000
    ensures MountScreenAsWritten(true, Some(t), nowMs) == Preview
    ensures MountScreen(true, Some(t), nowMs) == PostPaymentAuth
  {
  }

  // ---------------------------------------------------------------------------
  // Buttons

  /** The buttons that only change the screen. */
  datatype Button = StartAnalysis | Back | ScheduleCheckIn | BackToPlan

  /** Where a button leads from the screen that shows it; None when that
      screen has no such button. */
  function Target(screen: AppState, button: Button): (r: Option<AppState>)
    ensures r == Some(Plan) ==> screen == Progress
    ensures r == Some(Progress) ==> screen == Plan
    ensures r != Some(PostPaymentAuth) && r != Some(Payment)
  {
    match (screen, button)
    case (Landing, StartAnalysis) => Some(Upload)
    case (Upload, Back) => Some(Landing)
    case (Preview, Back) => Some(Upload)
    case (Payment, Back) => Some(Preview)
    case (Plan, Back) => Some(Landing)
    case (Plan, ScheduleCheckIn) => Some(Progress)
    case (Progress, BackToPlan) => Some(Plan)
    case _ => None
  }

  /** Every screen but the sign-up step has a button that leads to another
      screen. */
  lemma EveryScreenHasAnExit(screen: AppState)
    requires screen != PostPaymentAuth
    ensures exists b :: Target(screen, b).Some? && Target(screen, b).value != screen
  {
    match screen
    case Landing => assert Target(screen, StartAnalysis).Some?;
    case Progress => assert Target(screen, BackToPlan).Some?;
    case Upload => assert Target(screen, Back).Some?;
    case Preview => assert Target(screen, Back).Some?;
    case Payment => assert Target(screen, Back).Some?;
    case Plan => assert Target(screen, Back).Some?;
  }

  // ---------------------------------------------------------------------------
  // The component

  class App {
    var appState: AppState
    var uploadedImage: Option<string>
    var currentAnalysis: Option<AnalysisResult>
    var fullReportData: Option<FullReport>
    var countdownTime: int
    var expandedSections: map<string, bool>
    const hook: AnalysisHook

    /** The countdown is never negative, the plan and progress screens are
        only shown with a report loaded, and the hook is idle between steps. */
    predicate Valid()
      reads this, hook
    {
      && countdownTime >= 0
      && (appState == Plan || appState == Progress ==> fullReportData.Some?)
      && !hook.loading
    }

    /** The state of the first render. */
    constructor(hook: AnalysisHook)
      requires !hook.loading
      ensures Valid()
      ensures appState == Landing && uploadedImage.None? && currentAnalysis.None? && fullReportData.None?
      ensures countdownTime == PREVIEW_SECONDS && expandedSections == map[] && this.hook == hook
    {
      appState := Landing;
      uploadedImage := None;
      currentAnalysis := None;
      fullReportData := None;
      countdownTime := PREVIEW_SECONDS;
      expandedSections := map[];
      this.hook := hook;
    }

    /** The first mount effect: `?payment_success=true` opens the sign-up step. */
    method HandlePaymentRedirect(paymentSuccess: bool)
      requires Valid()
      modifies this
      ensures Valid()
      ensures appState == if paymentSuccess then PostPaymentAuth else old(appState)
      ensures uploadedImage == old(uploadedImage) && currentAnalysis == old(currentAnalysis)
      ensures fullReportData == old(fullReportData) && countdownTime == old(countdownTime)
      ensures expandedSections == old(expandedSections)
    {
      if paymentSuccess {
        appState := PostPaymentAuth;
      }
    }

    /** The second mount effect: a stored analysis is restored with its
        remaining time, and reopens the preview only when time is left. */
    method RestoreTempAnalysis(nowMs: int)
      requires Valid()
      modifies this
      ensures Valid()
      ensures var t := hook.GetTempAnalysis();
        if t.Some? && old(currentAnalysis).None? then
          && currentAnalysis == t
          && countdownTime == RemainingSeconds(t.value.expiresAt, nowMs)
          && appState == (if countdownTime > 0 then Preview else old(appState))
        else
          currentAnalysis == old(currentAnalysis) && countdownTime == old(countdownTime) && appState == old(appState)
      ensures uploadedImage == old(uploadedImage) && fullReportData == old(fullReportData)
      ensures expandedSections == old(expandedSections)
    {
      var temp := hook.GetTempAnalysis();
      if temp.Some? && currentAnalysis.None? {
        currentAnalysis := temp;
        countdownTime := RemainingSeconds(temp.value.expiresAt, nowMs);
        if countdownTime > 0 {
          appState := Preview;
        }
      }
    }

    /** Mounting, with the two effects in the corrected order (restore, then
        the payment return), so that the payment return wins. */
    method Mount(paymentSuccess: bool, nowMs: int)
      requires Valid() && appState == Landing && currentAnalysis.None?
      modifies this
      ensures Valid()
      ensures appState == MountScreen(paymentSuccess, hook.GetTempAnalysis(), nowMs)
      ensures currentAnalysis == hook.GetTempAnalysis()
      ensures countdownTime ==
        if hook.GetTempAnalysis().Some? then RemainingSeconds(hook.GetTempAnalysis().value.expiresAt, nowMs)
        else old(countdownTime)
      ensures uploadedImage == old(uploadedImage) && fullReportData == old(fullReportData)
      ensures expandedSections == old(expandedSections)
    {
      RestoreTempAnalysis(nowMs);
      HandlePaymentRedirect(paymentSuccess);
    }

    /** The interval callback, one second of the countdown. It only runs on
        the preview with time left; the last second expires the preview:
        temp storage is cleared, the analysis and image are dropped and the
        upload screen opens with a fresh hour on the counter. */
    method Tick()
      requires Valid()
      modifies this, hook
      ensures Valid()
      ensures fullReportData == old(fullReportData) && expandedSections == old(expandedSections)
      ensures hook.loading == old(hook.loading) && hook.error == old(hook.error)
      ensures !(old(appState) == Preview && old(countdownTime) > 0) ==>
        && appState == old(appState) && countdownTime == old(countdownTime)
        && uploadedImage == old(uploadedImage) && currentAnalysis == old(currentAnalysis)
        && hook.storage == old(hook.storage)
      ensures old(appState) == Preview && old(countdownTime) > 1 ==>
        && countdownTime == old(countdownTime) - 1 && appState == Preview
        && uploadedImage == old(uploadedImage) && currentAnalysis == old(currentAnalysis)
        && hook.storage == old(hook.storage)
      ensures old(appState) == Preview && old(countdownTime) == 1 ==>
        && countdownTime == PREVIEW_SECONDS && appState == Upload
        && uploadedImage.None? && currentAnalysis.None?
        && hook.storage == Cleared(old(hook.storage))
    {
      if appState == Preview && countdownTime > 0 {
        if countdownTime <= 1 {
          hook.ClearTempData();
          currentAnalysis := None;
          appState := Upload;
          uploadedImage := None;
          countdownTime := PREVIEW_SECONDS;
        } else {
          countdownTime := countdownTime - 1;
        }
      }
    }

    /** `handleImageSelect`: the empty string resets the image, the analysis
        and temp storage and leaves the screen alone; a picked image is
        analysed, and only a successful analysis opens the preview with the
        time it has left. */
    method HandleImageSelect(imageData: string, response: FetchOutcome<AnalysisResult>, nowMs: int)
      requires Valid()
      modifies this, hook
      ensures Valid()
      ensures fullReportData == old(fullReportData) && expandedSections == old(expandedSections)
      ensures imageData == "" ==>
        && uploadedImage.None? && currentAnalysis.None?
        && hook.storage == Cleared(old(hook.storage))
        && appState == old(appState) && countdownTime == old(countdownTime)
        && hook.error == old(hook.error)
      ensures imageData != "" ==> uploadedImage == Some(imageData)
      ensures imageData != "" && response.Fetched? ==>
        && currentAnalysis == Some(response.value)
        && countdownTime == RemainingSeconds(response.value.expiresAt, nowMs)
        && appState == Preview
        && hook.storage == old(hook.storage)[TEMP_ANALYSIS_KEY := Encode(response.value)]
        && hook.GetTempAnalysis() == Some(response.value)
        && hook.error.None?
      ensures imageData != "" && !response.Fetched? ==>
        && currentAnalysis == old(currentAnalysis) && appState == old(appState)
        && countdownTime == old(countdownTime) && hook.storage == old(hook.storage)
        && hook.error == Some(FailureMessage(response, ANALYZE_FAILED))
    {
      if imageData == "" {
        uploadedImage := None;
        currentAnalysis := None;
        hook.ClearTempData();
        return;
      }
      uploadedImage := Some(imageData);
      var result := hook.AnalyzePhoto(response);
      if result.Some? {
        currentAnalysis := result;
        countdownTime := RemainingSeconds(result.value.expiresAt, nowMs);
        appState := Preview;
      }
    }

    /** `handleSignOut`: back to the landing page with temp storage, the
        analysis and the report cleared; the picked image is kept. */
    method HandleSignOut()
      requires Valid()
      modifies this, hook
      ensures Valid()
      ensures appState == Landing && currentAnalysis.None? && fullReportData.None?
      ensures hook.storage == Cleared(old(hook.storage)) && hook.GetTempAnalysis().None?
      ensures hook.error == old(hook.error)
      ensures uploadedImage == old(uploadedImage) && countdownTime == old(countdownTime)
      ensures expandedSections == old(expandedSections)
    {
      hook.ClearTempData();
      currentAnalysis := None;
      fullReportData := None;
      appState := Landing;
    }

    /** `handleAuthSuccess`: on the sign-up step the stored analysis is saved
        and its report fetched, and the plan opens only when both succeed;
        on any other screen it goes to the landing page. */
    method HandleAuthSuccess(session: Option<string>, saveResponse: FetchOutcome<string>,
                             reportResponse: FetchOutcome<FullReport>)
      requires Valid()
      modifies this, hook
      ensures Valid()
      ensures old(appState) != PostPaymentAuth ==>
        appState == Landing && fullReportData == old(fullReportData) && hook.storage == old(hook.storage)
      ensures appState == Plan ==>
        && old(appState) == PostPaymentAuth
        && saveResponse.Fetched? && saveResponse.value != ""
        && reportResponse.Fetched? && fullReportData == Some(reportResponse.value)
      ensures old(appState) == PostPaymentAuth && session.Some? && old(hook.GetTempAnalysis()).Some?
              && saveResponse.Fetched? && saveResponse.value != "" && reportResponse.Fetched? ==>
        appState == Plan && fullReportData == Some(reportResponse.value)
      ensures old(appState) == PostPaymentAuth && appState != Plan ==>
        appState == PostPaymentAuth && fullReportData == old(fullReportData)
      ensures old(appState) != PostPaymentAuth ==> hook.error == old(hook.error)
      ensures old(appState) == PostPaymentAuth ==>
        var ticket := old(hook.GetTempAnalysis());
        if session.None? then
          hook.storage == old(hook.storage) && hook.error == Some("Authentication required")
        else if ticket.None? then
          hook.storage == old(hook.storage) && hook.error == Some("No temporary analysis data found")
        else if !saveResponse.Fetched? then
          hook.storage == old(hook.storage) && hook.error == Some(FailureMessage(saveResponse, SAVE_FAILED))
        else
          && hook.storage == old(hook.storage)[REAL_ANALYSIS_ID_KEY := saveResponse.value]
          && hook.GetTempAnalysis() == ticket
          && hook.error == if saveResponse.value == "" || reportResponse.Fetched? then None
                           else Some(FailureMessage(reportResponse, REPORT_FAILED))
      ensures uploadedImage == old(uploadedImage) && currentAnalysis == old(currentAnalysis)
      ensures countdownTime == old(countdownTime) && expandedSections == old(expandedSections)
    {
      if appState == PostPaymentAuth {
        var realAnalysisId, _ := hook.SaveAnalysisToDatabase(session, saveResponse);
        if Truthy(realAnalysisId) {
          var reportData, _ := hook.GetFullReport(realAnalysisId, session, reportResponse);
          if reportData.Some? {
            fullReportData := reportData;
            appState := Plan;
          }
        }
      } else {
        appState := Landing;
      }
    }

    /** `handleStartAnalysis`: the upload screen, no sign-in needed. */
    method HandleStartAnalysis()
      requires Valid()
      modifies this
      ensures Valid() && appState == Upload
      ensures uploadedImage == old(uploadedImage) && currentAnalysis == old(currentAnalysis)
      ensures fullReportData == old(fullReportData) && countdownTime == old(countdownTime)
      ensures expandedSections == old(expandedSections)
    {
      appState := Upload;
    }

    /** `handleGetPlan`: the payment screen, no sign-in check. */
    method HandleGetPlan()
      requires Valid()
      modifies this
      ensures Valid() && appState == Payment
      ensures uploadedImage == old(uploadedImage) && currentAnalysis == old(currentAnalysis)
      ensures fullReportData == old(fullReportData) && countdownTime == old(countdownTime)
      ensures expandedSections == old(expandedSections)
    {
      appState := Payment;
    }

    /** A screen-changing button: its target when the current screen shows
        it, otherwise nothing happens. */
    method Press(button: Button)
      requires Valid()
      modifies this
      ensures Valid()
      ensures appState == if Target(old(appState), button).Some? then Target(old(appState), button).value else old(appState)
      ensures uploadedImage == old(uploadedImage) && currentAnalysis == old(currentAnalysis)
      ensures fullReportData == old(fullReportData) && countdownTime == old(countdownTime)
      ensures expandedSections == old(expandedSections)
    {
      var target := Target(appState, button);
      if target.Some? {
        appState := target.value;
      }
    }

    /** `toggleSection`: flips one section and leaves the others alone. */
    method ToggleSection(key: string)
      requires Valid()
      modifies this
      ensures Valid()
      ensures IsExpanded(expandedSections, key) == !IsExpanded(old(expandedSections), key)
      ensures forall k :: k != key ==> IsExpanded(expandedSections, k) == IsExpanded(old(expandedSections), k)
      ensures appState == old(appState) && uploadedImage == old(uploadedImage)
      ensures currentAnalysis == old(currentAnalysis) && fullReportData == old(fullReportData)
      ensures countdownTime == old(countdownTime)
    {
      expandedSections := Toggled(expandedSections, key);
    }
  }
}
