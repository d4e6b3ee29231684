/**
 * The overlay's session: the globals `currentLeadNumber` and
 * `userOverrodeLanguage`, the three timers (lead detection, the continuous
 * monitor, the next-lead watch started by the Next button) and the parts of
 * the overlay the handlers change: the operator's form, the submit and Next
 * buttons and the extracted-data panel.
 *
 * Time is a virtual clock. Every timer callback is a method that is told
 * the time it runs at and the page it sees; the page does not change while
 * one callback runs. Each method is specified by a function on
 * `SessionState`, and the properties of the session are lemmas about those
 * functions.
 */
module Session {

  import opened Wrappers
  import opened Strings
  import opened Extraction
  import opened Payload

  // ---------------------------------------------------------------------
  // Timing constants (milliseconds)
  // ---------------------------------------------------------------------

  const DetectionRetryMs: int := 1000
  const DetectionCeilingMs: int := 60000
  const NextLeadRetryMs: int := 1000
  const NextLeadCeilingMs: int := 60000
  const ElementPollMs: int := 100
  const DefaultElementTimeoutMs: int := 5000

  // ---------------------------------------------------------------------
  // The state
  // ---------------------------------------------------------------------

  /** What the "Extracted Data:" heading shows next to it: nothing, the
      orange waiting message, or the message that detection timed out. */
  datatype Notice = NoNotice | WaitingForLead | DetectionTimedOut

  /** The extracted-data panel: "Loading...", the rows of a record, or the
      message that the next-lead watch timed out. */
  datatype Panel = Loading | Shows(rec: ExtractedRecord) | NextLeadTimedOut

  /** `leadDetectionTimeout`: no check pending, or the next check of the
      detection run that began at `start` is due at `due`. */
  datatype Detection = Idle | Armed(start: int, due: int)

  /** The interval of `monitorForNewLead`: the lead it compares against,
      when it began and when it next fires. */
  datatype Watch = NotWatching | Watching(originalLead: string, start: int, due: int)

  datatype SessionState = SessionState(
    currentLeadNumber: string,
    userOverrodeLanguage: bool,
    form: OperatorInput,
    submitEnabled: bool,
    nextEnabled: bool,
    panel: Panel,
    notice: Notice,
    detection: Detection,
    monitoring: bool,
    watch: Watch,
    open: bool)

  // ---------------------------------------------------------------------
  // The handlers as functions of the state
  //
  // `rec` is always the record `extractSourceData` returns for the page
  // at that moment (`SourceData(page)`); its lead number is what
  // `getLeadNumber` returns for the same page.
  // ---------------------------------------------------------------------

  /** `validateForm`: the submit button follows `FormValid`. */
  function Validated(st: SessionState): SessionState
  {
    st.(submitEnabled := FormValid(st.form))
  }

  /** `updateExtractedDataDisplay`: the panel shows the record; a record with
      a lead number binds it and clears the notice, one without shows the
      waiting message and leaves `currentLeadNumber` alone. */
  function Displayed(st: SessionState, rec: ExtractedRecord): SessionState
  {
    if |rec.leadNumber| > 0 then
      st.(panel := Shows(rec), notice := NoNotice, currentLeadNumber := rec.leadNumber)
    else
      st.(panel := Shows(rec), notice := WaitingForLead)
  }

  /** `resetModal`: everything the operator typed or chose is cleared, the
      lead binding and the override flag are dropped, and the timers and
      the Next button are left as they were. */
  function AfterReset(st: SessionState): (r: SessionState)
    ensures r.form == BlankInput && r.form.agentNote == ""
    ensures r.currentLeadNumber == "" && !r.userOverrodeLanguage
    ensures !r.submitEnabled
    ensures r.panel == Shows(EmptyRecord) && r.notice == WaitingForLead
    ensures r.nextEnabled == st.nextEnabled && r.detection == st.detection
    ensures r.monitoring == st.monitoring && r.watch == st.watch && r.open == st.open
  {
    BlankInputInvalid();
    Validated(Displayed(st.(form := BlankInput), EmptyRecord).(currentLeadNumber := "",
                                                             userOverrodeLanguage := false))
  }

  /** The language `autoSetLanguage` picks for a confirmation e-mail. */
  function LanguageFor(email: string): (r: string)
    ensures r == "FR" || r == "EN"
  {
    if Includes(Lower(email), "fr") then "FR" else "EN"
  }

  /** FR exactly when the lower-cased address contains `fr`, EN otherwise
      (an empty address included). */
  lemma LanguageForIff(email: string)
    ensures LanguageFor(email) == "FR" <==> exists i :: OccursAt(Lower(email), "fr", i)
    ensures LanguageFor(email) == "EN" <==> forall i :: !OccursAt(Lower(email), "fr", i)
  {
    IncludesIff(Lower(email), "fr");
  }

  /** `f` or `F` at `i`, followed by `r` or `R`. */
  predicate FrAt(email: string, i: nat)
  {
    i + 1 < |email| && (email[i] == 'f' || email[i] == 'F') && (email[i + 1] == 'r' || email[i + 1] == 'R')
  }

  /** Lower-casing first makes the test case-insensitive: FR exactly when
      the e-mail as typed has `fr`, `fR`, `Fr` or `FR` somewhere. */
  lemma LanguageForIgnoresCase(email: string)
    ensures LanguageFor(email) == "FR" <==> exists i: nat :: FrAt(email, i)
  {
    LanguageForIff(email);
    var low := Lower(email);
    forall i: nat | OccursAt(low, "fr", i)
      ensures FrAt(email, i)
    {
      assert low[i] == low[i..i + 2][0] && low[i + 1] == low[i..i + 2][1];
    }
    forall i: nat | FrAt(email, i)
      ensures OccursAt(low, "fr", i)
    {
      assert low[i..i + 2] == [low[i], low[i + 1]];
    }
  }

  /** `autoSetLanguage`: checks the language radio unless the operator chose
      one since the last reset. Checking a radio from code fires no change
      event, so neither the override flag nor the submit button moves. */
  function AutoLanguage(st: SessionState, rec: ExtractedRecord): SessionState
  {
    if st.userOverrodeLanguage then st
    else st.(form := st.form.(lang := Some(LanguageFor(rec.confirmationEmail))))
  }

  /** The test every timer applies to the page's lead number: present, and
      not the one it compares against. */
  predicate IsNewLead(lead: string, known: string)
  {
    |lead| > 0 && lead != known
  }

  /** One `checkForLead` of the detection run that began at `start`: a new
      lead is shown and bound and ends the run; otherwise the run ends at
      the ceiling (turning the waiting message into the timed-out one) or
      checks again a second later. Nothing the operator entered moves. */
  function DetectionChecked(st: SessionState, start: int, now: int, rec: ExtractedRecord)
    : (r: SessionState)
    ensures IsNewLead(rec.leadNumber, st.currentLeadNumber) ==>
              && r.detection == Idle && r.currentLeadNumber == rec.leadNumber
              && r.panel == Shows(rec) && r.notice == NoNotice
    ensures !IsNewLead(rec.leadNumber, st.currentLeadNumber) ==>
              r.currentLeadNumber == st.currentLeadNumber && r.panel == st.panel
    ensures r.detection.Armed? <==>
              !IsNewLead(rec.leadNumber, st.currentLeadNumber) && now - start < DetectionCeilingMs
    ensures r.detection.Armed? ==> r.detection == Armed(start, now + DetectionRetryMs)
    ensures r.notice == DetectionTimedOut ==>
              st.notice == WaitingForLead || st.notice == DetectionTimedOut
    ensures !IsNewLead(rec.leadNumber, st.currentLeadNumber) && now - start >= DetectionCeilingMs ==>
              && r.detection == Idle
              && (st.notice == WaitingForLead ==> r.notice == DetectionTimedOut)
              && (st.notice != WaitingForLead ==> r.notice == st.notice)
    ensures r.detection.Armed? ==> r.notice == st.notice
    ensures && r.form == st.form && r.submitEnabled == st.submitEnabled
            && r.userOverrodeLanguage == st.userOverrodeLanguage && r.nextEnabled == st.nextEnabled
            && r.watch == st.watch && r.monitoring == st.monitoring && r.open == st.open
  {
    if IsNewLead(rec.leadNumber, st.currentLeadNumber) then
      Displayed(st, rec).(currentLeadNumber := rec.leadNumber, detection := Idle)
    else if now - start >= DetectionCeilingMs then
      st.(notice := if st.notice == WaitingForLead then DetectionTimedOut else st.notice,
          detection := Idle)
    else
      st.(detection := Armed(start, now + DetectionRetryMs))
  }

  /** `extractAndUpdate` at time `now`. */
  function AfterExtract(st: SessionState, now: int, rec: ExtractedRecord): SessionState
  {
    var st1 := AutoLanguage(Displayed(AfterReset(st), rec), rec);
    if |rec.leadNumber| == 0 then DetectionChecked(st1, now, now, rec) else st1
  }

  /** One tick of the continuous monitor. */
  function MonitorTicked(st: SessionState, now: int, rec: ExtractedRecord,
                         changeStatusAvailable: bool): SessionState
  {
    var st1 := if IsNewLead(rec.leadNumber, st.currentLeadNumber)
               then AfterExtract(st, now, rec).(nextEnabled := false) else st;
    if changeStatusAvailable then st1 else st1.(nextEnabled := false)
  }

  /** One tick of the next-lead watch: a lead other than the one it
      compares against re-extracts and ends the watch; otherwise the watch
      ends at the ceiling with the timed-out message, or fires again a
      second later. */
  function WatchChecked(st: SessionState, now: int, rec: ExtractedRecord): (r: SessionState)
    requires st.watch.Watching?
    ensures IsNewLead(rec.leadNumber, st.watch.originalLead) ==>
              r == AfterExtract(st.(watch := NotWatching), now, rec)
    ensures r.watch.Watching? <==>
              !IsNewLead(rec.leadNumber, st.watch.originalLead)
              && now - st.watch.start < NextLeadCeilingMs
    ensures r.watch.Watching? ==>
              r.watch.due == st.watch.due + NextLeadRetryMs && r.(watch := st.watch) == st
    ensures r.watch.NotWatching? && !IsNewLead(rec.leadNumber, st.watch.originalLead) ==>
              r.panel == NextLeadTimedOut && r.(watch := st.watch, panel := st.panel) == st
  {
    if IsNewLead(rec.leadNumber, st.watch.originalLead) then
      AfterExtract(st.(watch := NotWatching), now, rec)
    else if now - st.watch.start >= NextLeadCeilingMs then
      st.(watch := NotWatching, panel := NextLeadTimedOut)
    else
      st.(watch := st.watch.(due := st.watch.due + NextLeadRetryMs))
  }

  /** What the Next button leads to: an alert because there is no "Change
      Status" button, an alert because the status dialog did not appear,
      or the dialog filled in and a watch for the next lead. */
  datatype NextCaseOutcome = ChangeStatusMissing | DialogMissing | AwaitingSubmit

  /** `monitorForNewLead` as called at the end of `handleNextCase`: the
      watch compares against `currentLeadNumber` as it is at that moment. */
  function WatchStarted(st: SessionState, now: int): SessionState
  {
    st.(watch := Watching(st.currentLeadNumber, now, now + NextLeadRetryMs))
  }

  /** `handleNextCase` as written, with no monitor tick during its awaits:
      the watch compares against `currentLeadNumber` read after
      `resetModal` has emptied it. */
  function NextCaseStartedAsWritten(st: SessionState, now: int, changeStatusFound: bool,
                                    dialogShown: bool): SessionState
  {
    var st1 := AfterReset(st);
    if !changeStatusFound || !dialogShown then st1
    else WatchStarted(st1, now)
  }

  /** `handleNextCase` with the lead being worked on captured before the
      reset, so that only a different lead ends the watch. */
  function NextCaseStarted(st: SessionState, now: int, changeStatusFound: bool,
                           dialogShown: bool): SessionState
  {
    var st1 := AfterReset(st);
    if !changeStatusFound || !dialogShown then st1
    else st1.(watch := Watching(st.currentLeadNumber, now, now + NextLeadRetryMs))
  }

  /** The state the bookmarklet starts in, before anything runs. */
  const Initial: SessionState :=
    SessionState("", false, BlankInput, false, false, Loading, NoNotice, Idle, false, NotWatching, true)

  /** The main sequence: extract, show the overlay, validate, start the
      monitor, and start detection when the page has no lead number. */
  function Launched(now: int, rec: ExtractedRecord): SessionState
  {
    var st := Validated(Displayed(Initial, rec)).(monitoring := true);
    if |rec.leadNumber| == 0 then DetectionChecked(st, now, now, rec) else st
  }

  // ---------------------------------------------------------------------
  // Properties of the handlers
  // ---------------------------------------------------------------------

  /** After `extractAndUpdate`: the bound lead is the freshly extracted one
      ("" when there is none), the override flag is down, the form is blank
      but for the language, which is FR exactly when the lower-cased
      confirmation e-mail contains `fr`, and the submit button is off. A
      page without a lead number starts a detection run with the waiting
      message up; one with a lead number leaves any pending detection as it
      was. */
  lemma ExtractAndUpdateResult(st: SessionState, now: int, rec: ExtractedRecord)
    ensures var r := AfterExtract(st, now, rec);
      && r.currentLeadNumber == rec.leadNumber
      && !r.userOverrodeLanguage
      && r.form == BlankInput.(lang := Some(LanguageFor(rec.confirmationEmail)))
      && !r.submitEnabled && r.nextEnabled == st.nextEnabled
      && r.panel == Shows(rec)
      && (|rec.leadNumber| == 0 ==>
            r.detection == Armed(now, now + DetectionRetryMs) && r.notice == WaitingForLead)
      && (|rec.leadNumber| > 0 ==> r.detection == st.detection && r.notice == NoNotice)
      && r.watch == st.watch && r.monitoring == st.monitoring
  {
  }

  /** The override check in `autoSetLanguage` never takes effect on this
      path: `resetModal` lowers the flag just before, so the outcome does
      not depend on it. */
  lemma ExtractIgnoresOverride(st: SessionState, now: int, rec: ExtractedRecord)
    ensures AfterExtract(st, now, rec) ==
            AfterExtract(st.(userOverrodeLanguage := !st.userOverrodeLanguage), now, rec)
  {
    var flipped := st.(userOverrodeLanguage := !st.userOverrodeLanguage);
    assert AfterReset(flipped) == AfterReset(st);
  }

  /** A monitor tick re-syncs exactly when the page shows a lead number
      other than the bound one: the form is reset, the lead is bound and
      Next is disabled. Otherwise it changes nothing but Next, which it
      disables when "Change Status" is not available. */
  lemma MonitorTickEffect(st: SessionState, now: int, rec: ExtractedRecord,
                          changeStatusAvailable: bool)
    ensures var r := MonitorTicked(st, now, rec, changeStatusAvailable);
      && (IsNewLead(rec.leadNumber, st.currentLeadNumber) ==>
            && r.currentLeadNumber == rec.leadNumber && !r.nextEnabled && !r.submitEnabled
            && r.panel == Shows(rec) && r.form.lob.None?)
      && (!IsNewLead(rec.leadNumber, st.currentLeadNumber) ==>
            r == st.(nextEnabled := st.nextEnabled && changeStatusAvailable))
  {
    ExtractAndUpdateResult(st, now, rec);
  }

  /** A second monitor tick that sees the same page changes nothing. */
  lemma MonitorTickIdempotent(st: SessionState, now: int, later: int, rec: ExtractedRecord,
                              changeStatusAvailable: bool)
    ensures var once := MonitorTicked(st, now, rec, changeStatusAvailable);
      MonitorTicked(once, later, rec, changeStatusAvailable) == once
  {
    MonitorTickEffect(st, now, rec, changeStatusAvailable);
    MonitorTickEffect(MonitorTicked(st, now, rec, changeStatusAvailable), later, rec,
                      changeStatusAvailable);
  }

  /** Launching binds the page's lead number, leaves the language unchosen
      and the submit and Next buttons off, and starts the monitor; a
      detection run is pending exactly when the page has no lead number. */
  lemma LaunchBindsLead(now: int, rec: ExtractedRecord)
    ensures var r := Launched(now, rec);
      && r.currentLeadNumber == rec.leadNumber && r.panel == Shows(rec)
      && r.form == BlankInput && !r.submitEnabled && !r.nextEnabled
      && r.monitoring && r.watch.NotWatching?
      && (r.detection.Armed? <==> |rec.leadNumber| == 0)
  {
    BlankInputInvalid();
  }

  /** As written, the watch started by Next compares against "", so while
      the page still shows the lead that was being worked on, its first
      tick already takes that lead for a new one and re-extracts it. */
  lemma AsWrittenWatchTakesWorkedLead(st: SessionState, now: int, rec: ExtractedRecord)
    requires |rec.leadNumber| > 0 && rec.leadNumber == st.currentLeadNumber
    ensures var w := NextCaseStartedAsWritten(st, now, true, true);
      && w.watch == Watching("", now, now + NextLeadRetryMs)
      && WatchChecked(w, now + NextLeadRetryMs, rec) ==
         AfterExtract(w.(watch := NotWatching), now + NextLeadRetryMs, rec)
  {
  }

  /** The other interleaving of `handleNextCase` as written: when a monitor
      tick lands between the reset and the start of the watch (during the
      dialog wait and the pauses), it re-binds the lead still on screen,
      and the watch then waits past it as intended. */
  lemma MonitorRebindsWorkedLead(st: SessionState, tick: int, now: int, later: int,
                                 rec: ExtractedRecord, changeStatusAvailable: bool)
    requires |rec.leadNumber| > 0 && rec.leadNumber == st.currentLeadNumber
    requires later < now + NextLeadCeilingMs
    ensures var ticked := MonitorTicked(AfterReset(st), tick, rec, changeStatusAvailable);
      var w := WatchStarted(ticked, now);
      && ticked.currentLeadNumber == st.currentLeadNumber
      && w.watch == Watching(st.currentLeadNumber, now, now + NextLeadRetryMs)
      && WatchChecked(w, later, rec).watch.Watching?
  {
    MonitorTickEffect(AfterReset(st), tick, rec, changeStatusAvailable);
  }

  /** With the worked lead captured first, the watch keeps waiting while
      the page shows that lead, and ends only on a different one or at the
      ceiling. */
  lemma CorrectedWatchWaitsForNewLead(st: SessionState, now: int, later: int,
                                      rec: ExtractedRecord)
    requires rec.leadNumber == st.currentLeadNumber
    requires later < now + NextLeadCeilingMs
    ensures var w := NextCaseStarted(st, now, true, true);
      && w.watch == Watching(st.currentLeadNumber, now, now + NextLeadRetryMs)
      && WatchChecked(w, later, rec).watch.Watching?
  {
  }

  /** A form that passes `validateForm` has every radio group checked. */
  lemma ValidFormReads(f: OperatorInput)
    requires FormValid(f)
    ensures ReadSelections(f).Some?
  {
  }

  // ---------------------------------------------------------------------
  // The session object
  // ---------------------------------------------------------------------

  class Session {
    var currentLeadNumber: string
    var userOverrodeLanguage: bool
    var form: OperatorInput
    var submitEnabled: bool
    var nextEnabled: bool
    var panel: Panel
    var notice: Notice
    var detection: Detection
    var monitoring: bool
    var watch: Watch
    var open: bool
    /** Checks made by the current detection run. */
    ghost var detectionChecks: nat

    function State(): SessionState
      reads this
    {
      SessionState(currentLeadNumber, userOverrodeLanguage, form, submitEnabled, nextEnabled,
                   panel, notice, detection, monitoring, watch, open)
    }

    /** The submit button follows the form, and a detection run makes at
        most 61 checks: the immediate one and sixty retries, each at least
        a second after the one before, none begun past the ceiling. */
    ghost predicate Valid()
      reads this
    {
      && submitEnabled == FormValid(form)
      && detectionChecks <= 61
      && (detection.Armed? ==>
            detection.start + detectionChecks * DetectionRetryMs <= detection.due
            < detection.start + DetectionCeilingMs + DetectionRetryMs)
    }

    /** The main sequence. */
    constructor (now: int, page: Page)
      ensures Valid()
      ensures State() == Launched(now, SourceData(page))
    {
      currentLeadNumber := "";
      userOverrodeLanguage := false;
      form := BlankInput;
      submitEnabled := false;
      nextEnabled := false;
      panel := Loading;
      notice := NoNotice;
      detection := Idle;
      monitoring := false;
      watch := NotWatching;
      open := true;
      detectionChecks := 0;
      new;
      var sourceData := ExtractSourceData(page);
      UpdateExtractedDataDisplay(sourceData);
      ValidateForm();
      StartContinuousLeadMonitoring();
      if |sourceData.leadNumber| == 0 {
        StartLeadDetection(now, page);
      }
    }

    method ValidateForm()
      modifies this
      ensures State() == Validated(old(State()))
      ensures detectionChecks == old(detectionChecks)
    {
      submitEnabled := FormValid(form);
    }

    method UpdateExtractedDataDisplay(data: ExtractedRecord)
      modifies this
      ensures State() == Displayed(old(State()), data)
      ensures detectionChecks == old(detectionChecks)
    {
      panel := Shows(data);
      if |data.leadNumber| > 0 {
        notice := NoNotice;
        currentLeadNumber := data.leadNumber;
      } else {
        notice := WaitingForLead;
      }
    }

    method ResetModal()
      requires Valid()
      modifies this
      ensures Valid()
      ensures State() == AfterReset(old(State()))
      ensures detectionChecks == old(detectionChecks)
    {
      form := BlankInput;
      UpdateExtractedDataDisplay(EmptyRecord);
      currentLeadNumber := "";
      userOverrodeLanguage := false;
      ValidateForm();
    }

    method AutoSetLanguage(data: ExtractedRecord)
      modifies this
      ensures State() == AutoLanguage(old(State()), data)
      ensures detectionChecks == old(detectionChecks)
    {
      if userOverrodeLanguage {
        return;
      }
      var confirmEmail := Lower(data.confirmationEmail);
      if Includes(confirmEmail, "fr") {
        form := form.(lang := Some("FR"));
      } else {
        form := form.(lang := Some("EN"));
      }
    }

    method ExtractAndUpdate(now: int, page: Page)
      requires Valid()
      modifies this
      ensures Valid()
      ensures State() == AfterExtract(old(State()), now, SourceData(page))
    {
      ResetModal();
      var freshData := ExtractSourceData(page);
      UpdateExtractedDataDisplay(freshData);
      AutoSetLanguage(freshData);
      if |freshData.leadNumber| == 0 {
        StartLeadDetection(now, page);
      }
    }

    /** `startLeadDetection`: cancel any pending check and check at once. */
    method StartLeadDetection(now: int, page: Page)
      requires submitEnabled == FormValid(form)
      modifies this
      ensures Valid()
      ensures State() == DetectionChecked(old(State()), now, now, SourceData(page))
    {
      CancelDetection();
      CheckForLead(now, now, page);
    }

    /** `clearTimeout(leadDetectionTimeout)`; a new run starts its count. */
    method CancelDetection()
      modifies this
      ensures State() == old(State()).(detection := Idle)
      ensures detectionChecks == 0
    {
      detection := Idle;
      detectionChecks := 0;
    }

    /** The detection callback, run when its check falls due. */
    method DetectionTick(now: int, page: Page)
      requires Valid() && detection.Armed? && detection.due <= now
      modifies this
      ensures Valid()
      ensures State() == DetectionChecked(old(State()), old(detection.start), now, SourceData(page))
    {
      CheckForLead(detection.start, now, page);
    }

    method CheckForLead(start: int, now: int, page: Page)
      requires submitEnabled == FormValid(form)
      requires start + detectionChecks * DetectionRetryMs <= now
      requires detectionChecks <= 60
      modifies this
      ensures Valid()
      ensures State() == DetectionChecked(old(State()), start, now, SourceData(page))
    {
      var leadNum := GetLeadNumber(page.headings);
      if IsNewLead(leadNum, currentLeadNumber) {
        var freshData := ExtractSourceData(page);
        ShowDetectedLead(start, now, freshData);
        return;
      }
      EndOrRearm(start, now, SourceData(page));
    }

    method ShowDetectedLead(start: int, now: int, data: ExtractedRecord)
      requires submitEnabled == FormValid(form) && detectionChecks <= 60
      requires IsNewLead(data.leadNumber, currentLeadNumber)
      modifies this
      ensures Valid()
      ensures State() == DetectionChecked(old(State()), start, now, data)
    {
      detectionChecks := detectionChecks + 1;
      UpdateExtractedDataDisplay(data);
      currentLeadNumber := data.leadNumber;
      detection := Idle;
    }

    method EndOrRearm(start: int, now: int, ghost rec: ExtractedRecord)
      requires submitEnabled == FormValid(form)
      requires detectionChecks <= 60
      requires start + detectionChecks * DetectionRetryMs <= now
      requires !IsNewLead(rec.leadNumber, currentLeadNumber)
      modifies this
      ensures Valid()
      ensures State() == DetectionChecked(old(State()), start, now, rec)
    {
      detectionChecks := detectionChecks + 1;
      if now - start >= DetectionCeilingMs {
        if notice == WaitingForLead {
          notice := DetectionTimedOut;
        }
        detection := Idle;
        return;
      }
      detection := Armed(start, now + DetectionRetryMs);
    }

    method StartContinuousLeadMonitoring()
      modifies this
      ensures State() == old(State()).(monitoring := true)
      ensures detectionChecks == old(detectionChecks)
    {
      monitoring := true;
    }

    method EnableNextButton()
      requires Valid()
      modifies this
      ensures Valid()
      ensures State() == old(State()).(nextEnabled := true)
    {
      nextEnabled := true;
    }

    method DisableNextButton()
      requires Valid()
      modifies this
      ensures Valid()
      ensures State() == old(State()).(nextEnabled := false)
    {
      nextEnabled := false;
    }

    /** The callback of the 3-second monitor interval. */
    method MonitorTick(now: int, page: Page)
      requires Valid() && monitoring
      modifies this
      ensures Valid()
      ensures State() == MonitorTicked(old(State()), now, SourceData(page), page.changeStatusAvailable)
    {
      var currentPageLead := GetLeadNumber(page.headings);
      if IsNewLead(currentPageLead, currentLeadNumber) {
        ExtractAndUpdate(now, page);
        DisableNextButton();
      }
      if !page.changeStatusAvailable {
        DisableNextButton();
      }
    }

    /** The close button: stop the monitor and remove the overlay. */
    method Close()
      modifies this
      ensures State() == old(State()).(monitoring := false, open := false)
      ensures detectionChecks == old(detectionChecks)
    {
      monitoring := false;
      open := false;
    }

    /** The operator changes the form; the input and change listeners
        revalidate, and choosing another language marks an override. A
        checked radio group stays checked: the operator can only move its
        choice. */
    method OperatorEdits(f: OperatorInput)
      requires Valid()
      requires form.lob.Some? ==> f.lob.Some?
      requires form.custType.Some? ==> f.custType.Some?
      requires form.lang.Some? ==> f.lang.Some?
      modifies this
      ensures Valid()
      ensures State() == old(State()).(form := f, submitEnabled := FormValid(f),
                                       userOverrodeLanguage := old(userOverrodeLanguage) || f.lang != old(form.lang))
    {
      if f.lang != form.lang {
        userOverrodeLanguage := true;
      }
      form := f;
      ValidateForm();
    }

    /** The submit button: nothing while it is disabled; otherwise the
        fresh request (or the assignment warning) and Next enabled. An
        enabled button never meets an unchecked radio group. */
    method SubmitClicked(page: Page) returns (r: Option<Submission>)
      requires Valid()
      modifies this
      ensures Valid()
      ensures !old(submitEnabled) ==> r.None? && State() == old(State())
      ensures old(submitEnabled) ==> State() == old(State()).(nextEnabled := true)
      ensures old(submitEnabled) ==>
                && r.Some? && !r.value.TypeError?
                && (r.value.AssignFirst? <==> NeedsAssignment(page))
                && (r.value.Sent? ==>
                      && ReadSelections(old(form)).Some?
                      && r.value.request == RequestFor(page, ReadSelections(old(form)).value, old(form).agentNote))
    {
      if !submitEnabled {
        return None;
      }
      ValidFormReads(form);
      var submission := GenerateFormUrl(page, form);
      r := Some(submission);
      EnableNextButton();
    }

    /** The "copy URL" option: no assignment check, and Next is enabled only
        when the URL was built (an unchecked radio group throws first). */
    method CopyUrlClicked(page: Page) returns (r: Submission)
      requires Valid()
      modifies this
      ensures Valid()
      ensures !r.AssignFirst?
      ensures r.TypeError? <==> ReadSelections(old(form)).None?
      ensures r.Sent? ==>
                && ReadSelections(old(form)).Some?
                && r.request == RequestFor(page, ReadSelections(old(form)).value, old(form).agentNote)
      ensures State() == old(State()).(nextEnabled := old(nextEnabled) || r.Sent?)
    {
      r := CopyFormUrl(page, form);
      if r.Sent? {
        EnableNextButton();
      }
    }

    /** The Next button. It is created disabled and its click handler is
        the only way in, so it runs only while `nextEnabled` holds. Whether
        the page has a "Change Status" button is an input; `dialogShown` is
        whether the `ElementWait` for the status dialog, with the default
        5000 ms timeout, ends `Resolved` rather than `Rejected`. The three
        dialog fields written through the framework are not modelled. */
    method NextCase(now: int, changeStatusFound: bool, dialogShown: bool)
      returns (outcome: NextCaseOutcome)
      requires Valid() && nextEnabled
      modifies this
      ensures Valid()
      ensures State() == NextCaseStarted(old(State()), now, changeStatusFound, dialogShown)
      ensures outcome == if !changeStatusFound then ChangeStatusMissing
                         else if !dialogShown then DialogMissing
                         else AwaitingSubmit
    {
      var workedLead := currentLeadNumber;
      ResetModal();
      if !changeStatusFound {
        return ChangeStatusMissing;
      }
      if !dialogShown {
        return DialogMissing;
      }
      watch := Watching(workedLead, now, now + NextLeadRetryMs);
      return AwaitingSubmit;
    }

    /** The callback of the next-lead watch's interval. */
    method NextLeadTick(now: int, page: Page)
      requires Valid() && watch.Watching? && watch.due <= now
      modifies this
      ensures Valid()
      ensures State() == WatchChecked(old(State()), now, SourceData(page))
    {
      var newLead := GetLeadNumber(page.headings);
      if IsNewLead(newLead, watch.originalLead) {
        StopWatch();
        ExtractAndUpdate(now, page);
      } else {
        EndOrRearmWatch(now, SourceData(page));
      }
    }

    /** `clearInterval(checkInterval)`. */
    method StopWatch()
      requires Valid()
      modifies this
      ensures Valid()
      ensures State() == old(State()).(watch := NotWatching)
    {
      watch := NotWatching;
    }

    /** The watch found no new lead: it gives up at the ceiling or fires
        again a second later. */
    method EndOrRearmWatch(now: int, ghost rec: ExtractedRecord)
      requires Valid() && watch.Watching?
      requires !IsNewLead(rec.leadNumber, watch.originalLead)
      modifies this
      ensures Valid()
      ensures State() == WatchChecked(old(State()), now, rec)
    {
      if now - watch.start >= NextLeadCeilingMs {
        watch := NotWatching;
        panel := NextLeadTimedOut;
      } else {
        watch := watch.(due := watch.due + NextLeadRetryMs);
      }
    }
  }

  // ---------------------------------------------------------------------
  // waitForElement
  // ---------------------------------------------------------------------

  datatype WaitOutcome = Pending | Resolved | Rejected

  /** The promise of `waitForElement`: polls every 100 ms until the element
      is present (resolve) or `timeout` ms have passed (reject). Whether the
      element is present is an input to each poll. */
  class ElementWait {
    const start: int
    const timeout: int
    var due: int
    var outcome: WaitOutcome
    /** Polls made so far. */
    ghost var checks: nat

    /** Each poll is at least 100 ms after the one before and none is
        scheduled once the timeout has passed, so after the first poll
        there are fewer than `timeout / 100 + 2` of them. */
    ghost predicate Valid()
      reads this
    {
      && checks >= 1
      && (checks == 1 || checks * ElementPollMs < timeout + 2 * ElementPollMs)
      && (outcome.Pending? ==>
            start + checks * ElementPollMs <= due < start + timeout + ElementPollMs)
    }

    /** Create the promise and poll at once. */
    constructor (now: int, timeout: int, present: bool)
      ensures Valid() && this.start == now && this.timeout == timeout
      ensures present ==> outcome == Resolved
      ensures !present && timeout <= 0 ==> outcome == Rejected
      ensures !present && timeout > 0 ==> outcome == Pending && due == now + ElementPollMs
    {
      start := now;
      this.timeout := timeout;
      due := now;
      outcome := Pending;
      checks := 0;
      new;
      Poll(now, present);
    }

    /** One poll: resolve when present, reject when the elapsed time has
        reached the timeout, poll again in 100 ms otherwise. */
    method Poll(now: int, present: bool)
      requires outcome.Pending? && due <= now
      requires start + checks * ElementPollMs <= now
      requires checks == 0 || checks * ElementPollMs < timeout + ElementPollMs
      modifies this
      ensures Valid()
      ensures present ==> outcome == Resolved
      ensures !present && now - start >= timeout ==> outcome == Rejected
      ensures !present && now - start < timeout ==> outcome == Pending && due == now + ElementPollMs
      ensures checks == old(checks) + 1
    {
      checks := checks + 1;
      if present {
        outcome := Resolved;
      } else if now - start >= timeout {
        outcome := Rejected;
      } else {
        due := now + ElementPollMs;
      }
    }

    /** The scheduled poll, once it falls due. */
    method Tick(now: int, present: bool)
      requires Valid() && outcome.Pending? && due <= now
      modifies this
      ensures Valid()
      ensures present ==> outcome == Resolved
      ensures !present && now - start >= timeout ==> outcome == Rejected
      ensures !present && now - start < timeout ==> outcome == Pending && due == now + ElementPollMs
    {
      Poll(now, present);
    }
  }


}
