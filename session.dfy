/** The session controller of `DNAAnalysisApp`: the state the component
    keeps with `useState`, and the callbacks that change it. The browser's
    audio services are outside the model: each callback receives the
    outcome its audio call had as a parameter. A callback that awaits a
    later event (the end of a question's playback, the 1000 ms timer before
    the next question) leaves that event pending, and the event arrives
    later as a method of its own. */
module Session {
  import opened Catalog
  import opened Profile
  import opened Analysis
  import opened Synthesis
  import opened MockAnswer

  datatype Option<T> = None | Some(value: T)

  /** `SessionStatus`. */
  datatype Status = Idle | Listening | WaitingForUser | Recording | Processing | Finished

  /** Why the microphone could not be had: no media API at all, or a
      refusal. */
  datatype MicFailure = Unsupported | Denied

  /** What asking for the microphone gave. */
  datatype MicAccess = Granted | Refused(reason: MicFailure)

  /** Why starting the recorder failed: no `MediaRecorder` API, or an
      error thrown while creating or starting the recorder, with its
      message. */
  datatype StartFailure = NoRecorderApi | StartThrew(message: string)

  /** What starting the recorder gave. */
  datatype RecorderStart = Started | StartFailed(cause: StartFailure)

  /** Why stopping the recorder failed: no recorder, a recorder that had
      already stopped and holds no audio, or a recorder error of the given
      name. */
  datatype StopFailure = NoRecorder | InactiveWithoutChunks | RecorderError(name: string)

  /** The errors the session shows; `ErrorText` gives the message the
      error screen displays. */
  datatype Error =
    | NoQuestionError
    | PlaybackError
    | MicError(mic: MicFailure)
    | NotInitializedError
    | StartError(start: StartFailure)
    | StopError(stop: StopFailure)

  function ErrorText(e: Error): string {
    match e
    case NoQuestionError => "Nenhuma pergunta para tocar."
    case PlaybackError => "Erro ao reproduzir áudio"
    case MicError(Unsupported) => "Não foi possível acessar o microfone. API não disponível."
    case MicError(Denied) => "Não foi possível acessar o microfone. Verifique as permissões."
    case NotInitializedError => "Áudio não inicializado. Permita o acesso ao microfone."
    case StartError(NoRecorderApi) => "MediaRecorder API não está disponível."
    case StartError(StartThrew(message)) => message
    case StopError(NoRecorder) => "MediaRecorder não inicializado"
    case StopError(InactiveWithoutChunks) => "MediaRecorder estava inativo e sem chunks de áudio."
    case StopError(RecorderError(name)) => "Erro no MediaRecorder: " + name
  }

  /** The fixed texts are not empty. */
  lemma MicTextShown(m: MicFailure)
    ensures ErrorText(MicError(m)) != ""
  {
    match m
    case Unsupported =>
    case Denied =>
  }

  lemma StopTextShown(f: StopFailure)
    ensures ErrorText(StopError(f)) != ""
  {
    match f
    case NoRecorder =>
    case InactiveWithoutChunks =>
    case RecorderError(name) =>
  }

  lemma SessionTextShown(e: Error)
    requires e.NoQuestionError? || e.PlaybackError? || e.NotInitializedError?
    ensures ErrorText(e) != ""
  {
    match e
    case NoQuestionError =>
    case PlaybackError =>
    case NotInitializedError =>
  }

  /** Only an error thrown with an empty message shows an empty text. */
  lemma SilentErrors(e: Error)
    ensures ErrorText(e) == "" <==> e == StartError(StartThrew(""))
  {
    match e
    case MicError(m) => MicTextShown(m);
    case StopError(f) => StopTextShown(f);
    case StartError(NoRecorderApi) => assert ErrorText(e) != "";
    case StartError(StartThrew(message)) =>
    case _ => SessionTextShown(e);
  }

  /** The current question exists, the profile keeps its invariant, every
      question passed has been answered, and every timer names a question
      of the catalogue. */
  predicate Consistent(index: nat, profile: ExpertProfile, replays: seq<nat>) {
    index < QuestionCount &&
    WellFormed(profile) &&
    index <= |profile.fragmentos| &&
    forall k :: 0 <= k < |replays| ==> replays[k] < QuestionCount
  }

  class Controller {
    var status: Status
    var index: nat
    var profile: ExpertProfile
    var finalReport: string
    var error: Option<Error>
    var audioInitialized: bool
    /** Playbacks started whose end has not yet been signalled. */
    var pendingPlaybacks: nat
    /** Stops requested whose recorder has not yet answered. */
    var pendingStops: nat
    /** Next-question timers set and not yet fired, oldest first, each
        holding the index of the question it will play. */
    var pendingReplays: seq<nat>

    /** The current question exists, the profile keeps its invariant, every
        question passed has been answered, and every timer names a
        question of the catalogue. */
    predicate Valid()
      reads this
    {
      Consistent(index, profile, pendingReplays)
    }

    /** The error screen shows: an error is set and its text is not empty,
        since the empty string is falsy. */
    predicate ErrorShown()
      reads this
    {
      error.Some? && ErrorText(error.value) != ""
    }

    /** The initial `useState` values. */
    constructor()
      ensures Valid()
      ensures status == Idle && index == 0 && profile == Initial() && finalReport == ""
      ensures error == None && !audioInitialized
      ensures pendingPlaybacks == 0 && pendingStops == 0 && pendingReplays == []
    {
      status := Idle;
      index := 0;
      finalReport := "";
      error := None;
      audioInitialized := false;
      pendingPlaybacks := 0;
      pendingStops := 0;
      pendingReplays := [];
      profile := Initial();
    }

    /** `playCurrentQuestionInternal(q)`: without a question, an error and
        the finished state; otherwise the question starts playing. */
    method PlayQuestion(q: Option<Question>)
      requires Valid()
      modifies this
      ensures Valid()
      ensures q.None? ==> status == Finished && error == Some(NoQuestionError) &&
                          pendingPlaybacks == old(pendingPlaybacks)
      ensures q.Some? ==> status == Listening && error == old(error) &&
                          pendingPlaybacks == old(pendingPlaybacks) + 1
      ensures index == old(index) && profile == old(profile) && finalReport == old(finalReport)
      ensures audioInitialized == old(audioInitialized) && pendingReplays == old(pendingReplays) &&
              pendingStops == old(pendingStops)
    {
      if q.None? {
        error := Some(NoQuestionError);
        status := Finished;
      } else {
        status := Listening;
        pendingPlaybacks := pendingPlaybacks + 1;
      }
    }

    /** The end of a playback: whether the audio ended, could not start or
        failed, the user may now record; a failure also shows an error. */
    method PlaybackEnded(failed: bool)
      requires Valid() && pendingPlaybacks > 0
      modifies this
      ensures Valid()
      ensures status == WaitingForUser
      ensures error == if failed then Some(PlaybackError) else old(error)
      ensures pendingPlaybacks == old(pendingPlaybacks) - 1
      ensures index == old(index) && profile == old(profile) && finalReport == old(finalReport)
      ensures audioInitialized == old(audioInitialized) && pendingReplays == old(pendingReplays) &&
              pendingStops == old(pendingStops)
    {
      status := WaitingForUser;
      pendingPlaybacks := pendingPlaybacks - 1;
      if failed {
        error := Some(PlaybackError);
      }
    }

    /** `initializeApp`: clears the error, asks for the microphone and, if
        granted, plays the first question; a refusal shows its message and
        goes back to the welcome screen. */
    method Initialize(mic: MicAccess)
      requires Valid()
      modifies this
      ensures Valid()
      ensures mic == Granted ==> status == Listening && error == None && audioInitialized &&
                                 pendingPlaybacks == old(pendingPlaybacks) + 1
      ensures mic != Granted ==> status == Idle && error == Some(MicError(mic.reason)) &&
                                 audioInitialized == old(audioInitialized) &&
                                 pendingPlaybacks == old(pendingPlaybacks)
      ensures index == old(index) && profile == old(profile) && finalReport == old(finalReport)
      ensures pendingReplays == old(pendingReplays) && pendingStops == old(pendingStops)
    {
      error := None;
      status := Listening;
      if mic == Granted {
        audioInitialized := true;
        CatalogSize();
        PlayQuestion(Some(Questions[0]));
      } else {
        error := Some(MicError(mic.reason));
        status := Idle;
      }
    }

    /** `startRecording`, from the record button, which is enabled only
        while waiting for the user and is not on screen while the error
        screen shows. An error with an empty text leaves the button on
        screen. */
    method StartRecording(start: RecorderStart)
      requires Valid() && status == WaitingForUser && !ErrorShown()
      modifies this
      ensures Valid()
      ensures !audioInitialized ==> status == WaitingForUser && error == Some(NotInitializedError)
      ensures audioInitialized && start == Started ==> status == Recording && error == None
      ensures audioInitialized && start != Started ==>
                status == WaitingForUser && error == Some(StartError(start.cause))
      ensures index == old(index) && profile == old(profile) && finalReport == old(finalReport)
      ensures audioInitialized == old(audioInitialized)
      ensures pendingPlaybacks == old(pendingPlaybacks) && pendingReplays == old(pendingReplays) &&
              pendingStops == old(pendingStops)
    {
      if !audioInitialized {
        error := Some(NotInitializedError);
        return;
      }
      error := None;
      if start == Started {
        status := Recording;
      } else {
        error := Some(StartError(start.cause));
        status := WaitingForUser;
      }
    }

    /** `stopRecording`, from the stop button, shown only while recording:
        the session shows that it is processing and asks the recorder to
        stop. The recorder answers later, through `RecordingReceived` or
        `StopFailed`. */
    method StopRecording()
      requires Valid() && status == Recording && !ErrorShown()
      modifies this
      ensures Valid()
      ensures status == Processing && pendingStops == old(pendingStops) + 1
      ensures index == old(index) && profile == old(profile) && finalReport == old(finalReport)
      ensures error == old(error) && audioInitialized == old(audioInitialized)
      ensures pendingPlaybacks == old(pendingPlaybacks) && pendingReplays == old(pendingReplays)
    {
      status := Processing;
      pendingStops := pendingStops + 1;
    }

    /** The rest of `stopRecording` when the recorder fails to stop: the
        error shows, the answer is not recorded and the user may record
        again. */
    method StopFailed(failure: StopFailure)
      requires Valid() && pendingStops > 0
      modifies this
      ensures Valid()
      ensures status == WaitingForUser && error == Some(StopError(failure))
      ensures pendingStops == old(pendingStops) - 1
      ensures index == old(index) && profile == old(profile) && finalReport == old(finalReport)
      ensures audioInitialized == old(audioInitialized) && pendingPlaybacks == old(pendingPlaybacks) &&
              pendingReplays == old(pendingReplays)
    {
      pendingStops := pendingStops - 1;
      error := Some(StopError(failure));
      status := WaitingForUser;
    }

    /** The rest of `stopRecording` once the recorder hands over the audio:
        the mock answer to the current question is folded into the
        profile; the session then moves to the next question, whose
        playback a timer starts, or, after the last question, renders the
        report. */
    method RecordingReceived(date: string)
      requires Valid() && pendingStops > 0
      modifies this
      ensures Valid()
      ensures profile == AnswerMock(old(profile), old(index))
      ensures old(index) + 1 < QuestionCount ==>
                status == old(status) && index == old(index) + 1 &&
                pendingReplays == old(pendingReplays) + [index] && finalReport == old(finalReport)
      ensures old(index) + 1 == QuestionCount ==>
                status == Finished && index == old(index) &&
                finalReport == Report(profile, date) && pendingReplays == old(pendingReplays)
      ensures pendingStops == old(pendingStops) - 1
      ensures error == old(error) && audioInitialized == old(audioInitialized)
      ensures pendingPlaybacks == old(pendingPlaybacks)
    {
      pendingStops := pendingStops - 1;
      AnswerMockKeepsInvariant(profile, index);
      var updated := AnswerMock(profile, index);
      if index + 1 < QuestionCount {
        Advance(updated);
      } else {
        Finish(updated, date);
      }
    }

    /** Stores the new profile and moves to the next question, setting the
        timer that will play it. */
    method Advance(updated: ExpertProfile)
      requires Valid() && index + 1 < QuestionCount
      requires WellFormed(updated) && index < |updated.fragmentos|
      modifies this
      ensures Valid()
      ensures profile == updated && status == old(status) && index == old(index) + 1
      ensures pendingReplays == old(pendingReplays) + [index] && finalReport == old(finalReport)
      ensures error == old(error) && audioInitialized == old(audioInitialized)
      ensures pendingPlaybacks == old(pendingPlaybacks) && pendingStops == old(pendingStops)
    {
      profile := updated;
      index := index + 1;
      pendingReplays := pendingReplays + [index];
    }

    /** Stores the final profile and renders its report. */
    method Finish(updated: ExpertProfile, date: string)
      requires Valid() && WellFormed(updated) && index <= |updated.fragmentos|
      modifies this
      ensures Valid()
      ensures profile == updated && status == Finished && index == old(index)
      ensures finalReport == Report(updated, date) && pendingReplays == old(pendingReplays)
      ensures error == old(error) && audioInitialized == old(audioInitialized)
      ensures pendingPlaybacks == old(pendingPlaybacks) && pendingStops == old(pendingStops)
    {
      profile := updated;
      finalReport := Report(updated, date);
      status := Finished;
    }

    /** The oldest next-question timer fires and plays its question. */
    method ReplayTimerFired()
      requires Valid() && |pendingReplays| > 0
      modifies this
      ensures Valid()
      ensures status == Listening && error == old(error)
      ensures pendingReplays == old(pendingReplays)[1..] && pendingStops == old(pendingStops)
      ensures pendingPlaybacks == old(pendingPlaybacks) + 1
      ensures index == old(index) && profile == old(profile) && finalReport == old(finalReport)
      ensures audioInitialized == old(audioInitialized)
    {
      var next := pendingReplays[0];
      pendingReplays := pendingReplays[1..];
      CatalogSize();
      PlayQuestion(Some(Questions[next]));
    }

    /** `restart`: back to the initial values, releasing the microphone.
        Timers and playbacks already under way are not cancelled. */
    method Restart()
      requires Valid()
      modifies this
      ensures Valid()
      ensures status == Idle && index == 0 && profile == Initial() && finalReport == ""
      ensures error == None && !audioInitialized
      ensures pendingPlaybacks == old(pendingPlaybacks) && pendingReplays == old(pendingReplays) &&
              pendingStops == old(pendingStops)
    {
      status := Idle;
      index := 0;
      profile := Initial();
      finalReport := "";
      error := None;
      audioInitialized := false;
    }

    /** `handleRetry`, from the error screen, which shows only for an
        error with a non-empty text: clears the error, then asks
        for the microphone again if it was never granted, replays the
        current question if one was playing or awaited an answer, and
        starts over otherwise. */
    method HandleRetry(mic: MicAccess)
      requires Valid() && ErrorShown()
      modifies this
      ensures Valid()
      ensures !old(audioInitialized) && mic == Granted ==>
                status == Listening && error == None && audioInitialized &&
                pendingPlaybacks == old(pendingPlaybacks) + 1 &&
                index == old(index) && profile == old(profile) && finalReport == old(finalReport)
      ensures !old(audioInitialized) && mic != Granted ==>
                status == Idle && error == Some(MicError(mic.reason)) && !audioInitialized &&
                pendingPlaybacks == old(pendingPlaybacks) &&
                index == old(index) && profile == old(profile) && finalReport == old(finalReport)
      ensures old(audioInitialized) && old(status) in {WaitingForUser, Listening} ==>
                status == Listening && error == None && audioInitialized &&
                pendingPlaybacks == old(pendingPlaybacks) + 1 &&
                index == old(index) && profile == old(profile) && finalReport == old(finalReport)
      ensures old(audioInitialized) && old(status) !in {WaitingForUser, Listening} ==>
                status == Idle && index == 0 && profile == Initial() && finalReport == "" &&
                error == None && !audioInitialized && pendingPlaybacks == old(pendingPlaybacks)
      ensures pendingReplays == old(pendingReplays) && pendingStops == old(pendingStops)
    {
      error := None;
      if !audioInitialized {
        Initialize(mic);
      } else if status == WaitingForUser || status == Listening {
        CatalogSize();
        PlayQuestion(Some(Questions[index]));
      } else {
        Restart();
      }
    }
  }

  /** The controller waits, with nothing pending, for the answer to
      question `i` of a session whose earlier answers all succeeded. */
  predicate AwaitingAnswer(c: Controller, i: nat)
    reads c
  {
    i < |Questions| &&
    c.Valid() && c.status == WaitingForUser && c.error == None && c.audioInitialized &&
    c.index == i && c.profile == MockProfile(i) &&
    c.pendingPlaybacks == 0 && c.pendingStops == 0 && c.pendingReplays == []
  }

  /** The controller has recorded the answer before question `i` and
      waits, with nothing else pending, for the timer that plays it. */
  predicate ReplayDue(c: Controller, i: nat)
    reads c
  {
    i < |Questions| &&
    c.Valid() && c.status == Processing && c.error == None && c.audioInitialized &&
    c.index == i && c.profile == MockProfile(i) &&
    c.pendingPlaybacks == 0 && c.pendingStops == 0 && c.pendingReplays == [i]
  }

  /** The answer to a question that is not the last: the user records and
      the recorder stops. */
  method AnswerAndAdvance(c: Controller, i: nat, date: string)
    requires i + 1 < QuestionCount && AwaitingAnswer(c, i)
    modifies c
    ensures ReplayDue(c, i + 1)
  {
    c.StartRecording(Started);
    c.StopRecording();
    c.RecordingReceived(date);
    MockProfileStep(i);
  }

  /** A recorder that throws an error with an empty message leaves no
      error screen, so the user may press the record button again, and
      this time the recorder starts. */
  method RecordAfterSilentFailure(c: Controller, i: nat)
    requires AwaitingAnswer(c, i)
    modifies c
    ensures c.Valid() && c.status == Recording && c.error == None
    ensures c.index == i && c.profile == MockProfile(i)
  {
    c.StartRecording(StartFailed(StartThrew("")));
    SilentErrors(StartError(StartThrew("")));
    c.StartRecording(Started);
  }

  /** The timer fires and the next question plays to its end. */
  method PlayNext(c: Controller, i: nat)
    requires ReplayDue(c, i)
    modifies c
    ensures AwaitingAnswer(c, i)
  {
    c.ReplayTimerFired();
    c.PlaybackEnded(false);
  }

  /** The round for the last question ends the session on its report. */
  method AnswerLast(c: Controller, date: string)
    requires AwaitingAnswer(c, QuestionCount - 1)
    modifies c
    ensures c.Valid()
    ensures c.status == Finished && c.error == None && c.audioInitialized
    ensures c.index == QuestionCount - 1
    ensures c.profile == MockProfile(QuestionCount)
    ensures c.finalReport == Report(MockProfile(QuestionCount), date)
  {
    c.StartRecording(Started);
    c.StopRecording();
    c.RecordingReceived(date);
    MockProfileStep(QuestionCount - 1);
  }

  /** A session in which every audio call succeeds: the welcome screen's
      start, then for each question its playback, a recording and the
      timer to the next. It ends on the report of the mock profile. */
  method CompleteSession(date: string) returns (c: Controller)
    ensures c.Valid()
    ensures c.status == Finished && c.error == None && c.audioInitialized
    ensures c.index == QuestionCount - 1
    ensures c.profile == MockProfile(QuestionCount)
    ensures c.finalReport == Report(MockProfile(QuestionCount), date)
  {
    c := new Controller();
    c.Initialize(Granted);
    c.PlaybackEnded(false);
    var i := 0;
    while i < QuestionCount - 1
      invariant i < QuestionCount && AwaitingAnswer(c, i)
    {
      AnswerAndAdvance(c, i, date);
      PlayNext(c, i + 1);
      i := i + 1;
    }
    AnswerLast(c, date);
  }
}
