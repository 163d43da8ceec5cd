/** The setup and login flow (`AuthWidget`). The source keeps the step as
    an integer field and moves it across several methods; the model keeps
    the same fields in a class whose methods are proved against the pure
    transition functions below, and proves about those functions that the
    flow never finishes without the credentials and the API key stored. */
module Auth {
  import opened Wrappers
  import opened Text
  import Config
  import Telegram

  /** The steps, numbered as in the source by `StepNumber`. */
  datatype Step = ApiCredentials | PhoneNumber | LoginCode | CloudPassword | GeminiKey

  function StepNumber(s: Step): (n: int)
    ensures n in {0, 1, 2, 22, 3}
  {
    match s
    case ApiCredentials => 0
    case PhoneNumber => 1
    case LoginCode => 2
    case CloudPassword => 22
    case GeminiKey => 3
  }

  /** Distinct steps have distinct numbers, so the integer field the
      source keeps determines the step. */
  lemma StepNumberInjective(a: Step, b: Step)
    ensures StepNumber(a) == StepNumber(b) <==> a == b
  {
  }

  /** The message boxes and the info text the flow shows the user. */
  datatype Notice =
    | FillBothFields
    | IncorrectData
    | SendCodeFailed(detail: string)
    | LoginFailed(detail: string)
    | InvalidPassword(detail: string)
    | EnterKey
    | ConfigError(detail: string)

  /** How one handler ended: silently, with a notice, or with an exception
      that escaped it (so nothing after the failing call ran). */
  datatype Reaction = Quiet | Warned(notice: Notice) | Escaped

  /** What the Telethon calls made during one handler answered. */
  datatype Backend = Backend(
    build: Attempt,                     // building the client (`int(api_id)`)
    connect: Attempt,                   // `client.connect()` at the first step
    session: Telegram.SessionReply,     // `connect_and_check_auth` at start-up
    sendCode: Attempt,                  // `send_code_request`
    signIn: Telegram.SignInCall -> Telegram.SignInReply)  // `client.sign_in`, per call

  /** Everything the flow's decisions depend on: the widget's fields, the
      configuration file and the worker's fields. `finished` records that
      `finish_setup` handed over to the main window. */
  datatype State = State(
    step: Step,
    finished: bool,
    buttonEnabled: bool,
    autoLoginPending: bool,
    file: Config.FileState,
    hasClient: bool,
    phone: Option<string>)

  predicate HasCredentials(f: Config.FileState)
  {
    Config.Stored(Config.Loaded(f), Config.ApiIdKey) && Config.Stored(Config.Loaded(f), Config.ApiHashKey)
  }

  predicate HasGeminiKey(f: Config.FileState)
  {
    Config.Stored(Config.Loaded(f), Config.GeminiKeyName)
  }

  /** `__init__` and `check_initial_state`: the flow starts at the first
      step and schedules an automatic login only when both credentials are
      stored. */
  function Initial(f: Config.FileState): (s: State)
    ensures s.step == ApiCredentials && !s.finished && s.buttonEnabled && !s.hasClient
    ensures s.autoLoginPending <==> HasCredentials(f)
    ensures s.file == f && s.phone == None
  {
    State(ApiCredentials, false, true, HasCredentials(f), f, false, None)
  }

  /** `check_gemini`: finish when a key is stored, else ask for one. */
  function CheckGemini(s: State): (t: State)
    ensures t.finished <==> s.finished || HasGeminiKey(s.file)
    ensures t.step == if HasGeminiKey(s.file) then s.step else GeminiKey
    ensures t.file == s.file && t.hasClient == s.hasClient && t.buttonEnabled == s.buttonEnabled
  {
    if HasGeminiKey(s.file) then s.(finished := true) else s.(step := GeminiKey)
  }

  /** The first step: both trimmed inputs must be non-empty; they are
      saved, the client is built and connected. Building (`int(api_id)`)
      or connecting may raise, and nothing after the raise runs. */
  function ApiStep(s: State, id: string, hash: string, b: Backend): (r: (State, Reaction))
    ensures r.0.finished == s.finished && r.0.autoLoginPending == s.autoLoginPending
    ensures r.0.step == PhoneNumber || r.0.step == s.step
    ensures r.1.Escaped? ==> r.0.step == s.step
  {
    if id != "" && hash != "" then
      var f := Config.Saved(s.file, map[Config.ApiIdKey := id, Config.ApiHashKey := hash]);
      match Telegram.InitOutcome(Config.Loaded(f), b.build)
      case Created =>
        if b.connect.Ok? then (s.(file := f, hasClient := true, step := PhoneNumber), Quiet)
        else (s.(file := f, hasClient := true), Escaped)
      case NoCredentials => (s.(file := f), Warned(IncorrectData))
      case BuildRaised(_) => (s.(file := f), Escaped)
    else (s, Warned(FillBothFields))
  }

  /** The phone step: ask for a code; move on only when it was sent. */
  function PhoneStep(s: State, phone: string, b: Backend): (r: (State, Reaction))
    ensures r.0 == s.(phone := Some(phone), step := r.0.step)
    ensures r.0.step == (if b.sendCode.Ok? then LoginCode else s.step)
    ensures r.1 == (if b.sendCode.Ok? then Quiet else Warned(SendCodeFailed(b.sendCode.message)))
  {
    var sent := Telegram.SendCodeResult(b.sendCode);
    var t := s.(phone := Some(phone));
    if sent.0 then (t.(step := LoginCode), Quiet) else (t, Warned(SendCodeFailed(sent.1)))
  }

  /** The code step: the code is sent with the stored phone; success goes
      to the Gemini check, the `"2FA_REQUIRED"` sentinel to the password
      step, any other failure stays with a notice. */
  function CodeStep(s: State, code: string, b: Backend): (r: (State, Reaction))
    ensures var reply := b.signIn(Telegram.WithCode(s.phone, Some(code)));
      && (reply.Accepted? ==> r == (CheckGemini(s), Quiet))
      && (reply.PasswordNeeded? ==> r == (s.(step := CloudPassword), Quiet))
      && (reply == Telegram.Rejected(Telegram.TwoFactorRequired) ==> r == (s.(step := CloudPassword), Quiet))
      && (reply.Rejected? && reply.message != Telegram.TwoFactorRequired ==> r == (s, Warned(LoginFailed(reply.message))))
  {
    var login := Telegram.SignInResult(b.signIn(Telegram.SignInCallFor(s.phone, Some(code), None)));
    if login.0 then (CheckGemini(s), Quiet)
    else if login.1 == Telegram.TwoFactorRequired then (s.(step := CloudPassword), Quiet)
    else (s, Warned(LoginFailed(login.1)))
  }

  /** The password step: a non-empty password is sent on its own, an
      empty one falls back to the phone with no code. Success goes to the
      Gemini check; any failure, the sentinel included, stays with a
      notice carrying the failure's text. */
  function PasswordStep(s: State, password: string, b: Backend): (r: (State, Reaction))
    ensures var reply := b.signIn(if password != "" then Telegram.WithPassword(password) else Telegram.WithCode(s.phone, None));
      && (reply.Accepted? ==> r == (CheckGemini(s), Quiet))
      && (!reply.Accepted? ==> r == (s, Warned(InvalidPassword(Telegram.SignInResult(reply).1))))
  {
    var login := Telegram.SignInResult(b.signIn(Telegram.SignInCallFor(s.phone, None, Some(password))));
    if login.0 then (CheckGemini(s), Quiet) else (s, Warned(InvalidPassword(login.1)))
  }

  /** The key step: a non-empty trimmed key is saved and the flow
      finishes; an empty one stays with a notice. */
  function KeyStep(s: State, key: string): (r: (State, Reaction))
    ensures key != "" ==>
      r.0.finished && r.1 == Quiet && Config.Loaded(r.0.file) == Config.Merge(Config.Loaded(s.file), map[Config.GeminiKeyName := key])
    ensures key == "" ==> r == (s, Warned(EnterKey))
    ensures r.0.step == s.step && r.0.hasClient == s.hasClient && r.0.autoLoginPending == s.autoLoginPending
  {
    if key != "" then (s.(file := Config.Saved(s.file, map[Config.GeminiKeyName := key]), finished := true), Quiet)
    else (s, Warned(EnterKey))
  }

  /** The step-dispatched body of `_process_action`, between disabling and
      re-enabling the button. */
  function Dispatch(s: State, input1: string, input2: string, b: Backend): (r: (State, Reaction))
    ensures r.1.Escaped? ==> s.step == ApiCredentials && r.0.step == ApiCredentials
    ensures s.finished ==> r.0.finished
  {
    match s.step
    case ApiCredentials => ApiStep(s, Strip(input1), Strip(input2), b)
    case PhoneNumber => PhoneStep(s, Strip(input1), b)
    case LoginCode => CodeStep(s, Strip(input1), b)
    case CloudPassword => PasswordStep(s, Strip(input1), b)
    case GeminiKey => KeyStep(s, Strip(input1))
  }

  /** `_process_action`: the button is disabled, the step's handler runs,
      and the button is enabled again unless an exception escaped. */
  function AfterAction(s: State, input1: string, input2: string, b: Backend): (r: (State, Reaction))
    ensures r.0.buttonEnabled <==> !r.1.Escaped?
    ensures r.1.Escaped? ==> s.step == ApiCredentials && r.0.step == ApiCredentials
    ensures s.finished ==> r.0.finished
  {
    var d := Dispatch(s.(buttonEnabled := false), input1, input2, b);
    (d.0.(buttonEnabled := !d.1.Escaped?), d.1)
  }

  /** `AfterAction` is the dispatched step with the button enabled again
      unless an exception escaped. */
  lemma AfterActionOfDispatch(s: State, input1: string, input2: string, b: Backend, t: State, r: Reaction)
    requires (t, r) == Dispatch(s.(buttonEnabled := false), input1, input2, b)
    ensures AfterAction(s, input1, input2, b) == (t.(buttonEnabled := !r.Escaped?), r)
  {
  }

  /** `try_auto_login` as written, run once by the timer
      `check_initial_state` set: an authorized session goes to the Gemini
      check, an unauthorized one to the phone step, and an exception back
      to the first step. The handler writes "Config error" into the info
      label, but `set_step_api`, called right after it, overwrites that
      label with the first step's instructions, so no notice is left. */
  function AfterAutoLogin(s: State, b: Backend): (r: (State, Reaction))
    requires s.autoLoginPending
    ensures !r.0.autoLoginPending && r.0.file == s.file && r.1 == Quiet
    ensures b.session.Unauthorized? && !b.build.Raised? ==> r.0.step == PhoneNumber
    ensures var c := Telegram.ConnectAndCheck(s.hasClient, Config.Loaded(s.file), b.build, b.session);
      var t := s.(autoLoginPending := false, hasClient := c.0);
      && (c.1 == Telegram.Answer(true) ==> r.0 == CheckGemini(t))
      && (c.1 == Telegram.Answer(false) ==> r.0 == t.(step := PhoneNumber))
      && (c.1.CheckRaised? ==> r.0 == t.(step := ApiCredentials))
  {
    var (hasClient, check) := Telegram.ConnectAndCheck(s.hasClient, Config.Loaded(s.file), b.build, b.session);
    var t := s.(autoLoginPending := false, hasClient := hasClient);
    match check
    case Answer(authorized) => if authorized then (CheckGemini(t), Quiet) else (t.(step := PhoneNumber), Quiet)
    case CheckRaised(_) => (t.(step := ApiCredentials), Quiet)
  }

  /** `try_auto_login` as evidently intended: the same transitions, with
      the exception's text left on screen as a "Config error" notice. */
  function AfterAutoLoginReported(s: State, b: Backend): (r: (State, Reaction))
    requires s.autoLoginPending
    ensures var c := Telegram.ConnectAndCheck(s.hasClient, Config.Loaded(s.file), b.build, b.session);
      && (r.1.Warned? <==> c.1.CheckRaised?)
      && (c.1.CheckRaised? ==> r == (AfterAutoLogin(s, b).0, Warned(ConfigError(c.1.message))))
      && (!c.1.CheckRaised? ==> r == AfterAutoLogin(s, b))
  {
    var c := Telegram.ConnectAndCheck(s.hasClient, Config.Loaded(s.file), b.build, b.session);
    var t := s.(autoLoginPending := false, hasClient := c.0);
    match c.1
    case Answer(authorized) => if authorized then (CheckGemini(t), Quiet) else (t.(step := PhoneNumber), Quiet)
    case CheckRaised(m) => (t.(step := ApiCredentials), Warned(ConfigError(m)))
  }

  /** When connecting or the authorization check raises, the program as
      written ends at the first step showing nothing about the error, while
      the intended flow shows it. */
  lemma AutoLoginErrorLost(s: State, b: Backend)
    requires s.autoLoginPending
    requires Telegram.ConnectAndCheck(s.hasClient, Config.Loaded(s.file), b.build, b.session).1.CheckRaised?
    ensures AfterAutoLogin(s, b).0.step == ApiCredentials && AfterAutoLogin(s, b).1 == Quiet
    ensures AfterAutoLoginReported(s, b).1.Warned? && AfterAutoLogin(s, b).1 != AfterAutoLoginReported(s, b).1
  {
  }

  /** A concrete case: both credentials stored, no client yet, the client
      builds, and `connect` raises. */
  lemma AutoLoginErrorLostExample(b: Backend)
    requires b.build.Ok? && b.session == Telegram.SessionRaised("Connection refused")
    ensures var f := Config.Present(map[Config.ApiIdKey := "1", Config.ApiHashKey := "h"]);
      var s := Initial(f);
      s.autoLoginPending && AfterAutoLogin(s, b).1 == Quiet
      && AfterAutoLoginReported(s, b).1 == Warned(ConfigError("Connection refused"))
  {
    var f := Config.Present(map[Config.ApiIdKey := "1", Config.ApiHashKey := "h"]);
    assert Config.Stored(Config.Loaded(f), Config.ApiIdKey) && Config.Stored(Config.Loaded(f), Config.ApiHashKey);
  }

  /** What the flow keeps true: every step after the first, an existing
      client and a pending automatic login all imply that both credentials
      are stored, and finishing also implies that the API key is stored. */
  predicate Inv(s: State)
  {
    && (s.autoLoginPending ==> HasCredentials(s.file))
    && (s.hasClient ==> HasCredentials(s.file))
    && (s.step != ApiCredentials ==> HasCredentials(s.file))
    && (s.finished ==> HasCredentials(s.file) && HasGeminiKey(s.file))
  }

  lemma SavedKeepsConfig(f: Config.FileState, data: map<string, string>)
    requires forall k :: k in data ==> data[k] != ""
    ensures HasCredentials(f) ==> HasCredentials(Config.Saved(f, data))
    ensures HasGeminiKey(f) ==> HasGeminiKey(Config.Saved(f, data))
  {
    if HasCredentials(f) {
      Config.SavedKeepsStored(f, data, Config.ApiIdKey);
      Config.SavedKeepsStored(f, data, Config.ApiHashKey);
    }
    if HasGeminiKey(f) {
      Config.SavedKeepsStored(f, data, Config.GeminiKeyName);
    }
  }

  lemma InitialInv(f: Config.FileState)
    ensures Inv(Initial(f))
  {
  }

  lemma ApiStepKeepsInv(s: State, id: string, hash: string, b: Backend)
    requires Inv(s)
    ensures Inv(ApiStep(s, id, hash, b).0)
  {
    if id != "" && hash != "" {
      var data := map[Config.ApiIdKey := id, Config.ApiHashKey := hash];
      SavedKeepsConfig(s.file, data);
      assert HasCredentials(Config.Saved(s.file, data));
    }
  }

  lemma KeyStepKeepsInv(s: State, key: string)
    requires Inv(s) && s.step == GeminiKey
    ensures Inv(KeyStep(s, key).0)
  {
    if key != "" {
      var data := map[Config.GeminiKeyName := key];
      SavedKeepsConfig(s.file, data);
      assert HasGeminiKey(Config.Saved(s.file, data));
    }
  }

  /** Every click keeps the invariant. */
  lemma ActionKeepsInv(s: State, input1: string, input2: string, b: Backend)
    requires Inv(s)
    ensures Inv(AfterAction(s, input1, input2, b).0)
  {
    var t := s.(buttonEnabled := false);
    match s.step
    case ApiCredentials => ApiStepKeepsInv(t, Strip(input1), Strip(input2), b);
    case GeminiKey => KeyStepKeepsInv(t, Strip(input1));
    case _ =>
  }

  /** The automatic login keeps the invariant. */
  lemma AutoLoginKeepsInv(s: State, b: Backend)
    requires Inv(s) && s.autoLoginPending
    ensures Inv(AfterAutoLogin(s, b).0)
    ensures Inv(AfterAutoLoginReported(s, b).0)
  {
  }

  /** What can happen to the flow: a click on the action button with the
      two inputs' texts, or the start-up timer firing. */
  datatype Event = Click(input1: string, input2: string, b: Backend) | TimerFires(b: Backend)

  /** One event's effect on the flow. A disabled button emits no click,
      so a click while it is disabled changes nothing. */
  function Apply(s: State, e: Event): State
  {
    match e
    case Click(input1, input2, b) => if s.buttonEnabled then AfterAction(s, input1, input2, b).0 else s
    case TimerFires(b) => if s.autoLoginPending then AfterAutoLoginReported(s, b).0 else s
  }

  lemma ApplyKeepsInv(s: State, e: Event)
    requires Inv(s)
    ensures Inv(Apply(s, e))
  {
    match e
    case Click(input1, input2, b) => ActionKeepsInv(s, input1, input2, b);
    case TimerFires(b) => if s.autoLoginPending { AutoLoginKeepsInv(s, b); }
  }

  function Run(s: State, events: seq<Event>): State
    decreases |events|
  {
    if events == [] then s else Run(Apply(s, events[0]), events[1..])
  }

  lemma {:induction false} RunKeepsInv(s: State, events: seq<Event>)
    requires Inv(s)
    ensures Inv(Run(s, events))
    decreases |events|
  {
    if events != [] {
      ApplyKeepsInv(s, events[0]);
      RunKeepsInv(Apply(s, events[0]), events[1..]);
    }
  }

  /** Whatever the user types and whatever the backend answers, the flow
      never hands over to the main window unless the API id, the API hash
      and the Gemini key are all stored and non-empty. */
  lemma {:induction false} NeverFinishedWithoutConfig(f: Config.FileState, events: seq<Event>)
    ensures var t := Run(Initial(f), events);
      t.finished ==> HasCredentials(t.file) && HasGeminiKey(t.file)
  {
    InitialInv(f);
    RunKeepsInv(Initial(f), events);
  }

  /** The first step moves on exactly when both trimmed inputs are
      non-empty and the client builds and connects; otherwise it stays. The
      "Incorrect data" notice can never be shown, since the credentials were
      saved non-empty just before the client was built. An exception
      escapes exactly when both inputs are non-empty and building or
      connecting raises, and the worker holds a client from then on exactly
      when the build succeeded. */
  lemma ApiStepTransitions(s: State, id: string, hash: string, b: Backend)
    ensures var (t, r) := ApiStep(s, id, hash, b);
      && (t.step == PhoneNumber <==> (id != "" && hash != "" && b.build.Ok? && b.connect.Ok?) || s.step == PhoneNumber)
      && r != Warned(IncorrectData)
      && (r == Warned(FillBothFields) <==> id == "" || hash == "")
      && (id != "" && hash != "" ==>
            Config.Get(Config.Loaded(t.file), Config.ApiIdKey) == Some(id) && Config.Get(Config.Loaded(t.file), Config.ApiHashKey) == Some(hash))
      && (r == Escaped <==> id != "" && hash != "" && (b.build.Raised? || b.connect.Raised?))
      && t.hasClient == (s.hasClient || (id != "" && hash != "" && b.build.Ok?))
  {
    if id != "" && hash != "" {
      var data := map[Config.ApiIdKey := id, Config.ApiHashKey := hash];
      var m := Config.Loaded(Config.Saved(s.file, data));
      assert Config.Stored(m, Config.ApiIdKey) && Config.Stored(m, Config.ApiHashKey);
    }
  }

  /** `AuthWidget`: its step, the handed-over flag, the action button's
      enabled state and the pending start-up login, over the shared
      configuration store and worker. */
  class AuthWidget {
    var step: Step
    var finished: bool
    var buttonEnabled: bool
    var autoLoginPending: bool
    const config: Config.ConfigStore
    const worker: Telegram.Worker

    /** The flow's state as the transition functions see it. */
    function Snapshot(): State
      reads this, config, worker
    {
      State(step, finished, buttonEnabled, autoLoginPending, config.file, worker.hasClient, worker.phone)
    }

    constructor(config: Config.ConfigStore, worker: Telegram.Worker)
      requires !worker.hasClient && worker.phone == None
      ensures this.config == config && this.worker == worker
      ensures Snapshot() == Initial(config.file)
    {
      this.config := config;
      this.worker := worker;
      step := ApiCredentials;
      finished := false;
      buttonEnabled := true;
      var id := config.GetValue(Config.ApiIdKey);
      var hash := config.GetValue(Config.ApiHashKey);
      autoLoginPending := id.Some? && id.value != "" && hash.Some? && hash.value != "";
    }

    /** `check_gemini`. */
    method CheckGeminiKey()
      modifies this
      ensures Snapshot() == CheckGemini(old(Snapshot()))
    {
      var key := config.GetValue(Config.GeminiKeyName);
      if key.Some? && key.value != "" {
        finished := true;
      } else {
        step := GeminiKey;
      }
    }

    /** The first step's branch of `_process_action`. */
    method ApiAction(id: string, hash: string, b: Backend) returns (r: Reaction)
      modifies this, config, worker
      ensures (Snapshot(), r) == ApiStep(old(Snapshot()), id, hash, b)
    {
      r := Warned(FillBothFields);
      if id != "" && hash != "" {
        config.Save(map[Config.ApiIdKey := id, Config.ApiHashKey := hash]);
        var init := worker.InitClient(config.Load(), b.build);
        if init.Created? {
          if b.connect.Ok? {
            step := PhoneNumber;
            r := Quiet;
          } else {
            r := Escaped;
          }
        } else if init.NoCredentials? {
          r := Warned(IncorrectData);
        } else {
          r := Escaped;
        }
      }
    }

    /** The phone step's branch of `_process_action`. */
    method PhoneAction(phone: string, b: Backend) returns (r: Reaction)
      modifies this, worker
      ensures (Snapshot(), r) == PhoneStep(old(Snapshot()), phone, b)
    {
      var ok, msg := worker.SendCode(phone, b.sendCode);
      if ok {
        step := LoginCode;
        r := Quiet;
      } else {
        r := Warned(SendCodeFailed(msg));
      }
    }

    /** The code step's branch of `_process_action`. */
    method CodeAction(code: string, b: Backend) returns (r: Reaction)
      modifies this
      ensures (Snapshot(), r) == CodeStep(old(Snapshot()), code, b)
    {
      var ok, msg := worker.SignIn(Some(code), None, b.signIn);
      if ok {
        CheckGeminiKey();
        r := Quiet;
      } else if msg == Telegram.TwoFactorRequired {
        step := CloudPassword;
        r := Quiet;
      } else {
        r := Warned(LoginFailed(msg));
      }
    }

    /** The password step's branch of `_process_action`. */
    method PasswordAction(password: string, b: Backend) returns (r: Reaction)
      modifies this
      ensures (Snapshot(), r) == PasswordStep(old(Snapshot()), password, b)
    {
      var ok, msg := worker.SignIn(None, Some(password), b.signIn);
      if ok {
        CheckGeminiKey();
        r := Quiet;
      } else {
        r := Warned(InvalidPassword(msg));
      }
    }

    /** The key step's branch of `_process_action`. */
    method KeyAction(key: string) returns (r: Reaction)
      modifies this, config
      ensures (Snapshot(), r) == KeyStep(old(Snapshot()), key)
    {
      if key != "" {
        config.Save(map[Config.GeminiKeyName := key]);
        finished := true;
        r := Quiet;
      } else {
        r := Warned(EnterKey);
      }
    }

    /** The step-dispatched body of `_process_action`. */
    method RunStep(input1: string, input2: string, b: Backend) returns (r: Reaction)
      modifies this, config, worker
      ensures (Snapshot(), r) == Dispatch(old(Snapshot()), input1, input2, b)
    {
      ghost var before := Snapshot();
      match step {
        case ApiCredentials =>
          r := ApiAction(Strip(input1), Strip(input2), b);
          assert (Snapshot(), r) == Dispatch(before, input1, input2, b);
        case PhoneNumber =>
          r := PhoneAction(Strip(input1), b);
          assert (Snapshot(), r) == Dispatch(before, input1, input2, b);
        case LoginCode =>
          r := CodeAction(Strip(input1), b);
          assert (Snapshot(), r) == Dispatch(before, input1, input2, b);
        case CloudPassword =>
          r := PasswordAction(Strip(input1), b);
          assert (Snapshot(), r) == Dispatch(before, input1, input2, b);
        case GeminiKey =>
          r := KeyAction(Strip(input1));
          assert (Snapshot(), r) == Dispatch(before, input1, input2, b);
      }
    }

    /** `_process_action`, with the texts of the two inputs. */
    method ProcessAction(input1: string, input2: string, b: Backend) returns (r: Reaction)
      modifies this, config, worker
      ensures (Snapshot(), r) == AfterAction(old(Snapshot()), input1, input2, b)
    {
      buttonEnabled := false;
      ghost var disabled := Snapshot();
      assert disabled == old(Snapshot()).(buttonEnabled := false);
      r := RunStep(input1, input2, b);
      ghost var handled := Snapshot();
      assert (handled, r) == Dispatch(disabled, input1, input2, b);
      if !r.Escaped? {
        buttonEnabled := true;
      }
      assert Snapshot() == handled.(buttonEnabled := !r.Escaped?) by {
        assert config.file == handled.file && worker.hasClient == handled.hasClient && worker.phone == handled.phone;
        assert step == handled.step && finished == handled.finished && autoLoginPending == handled.autoLoginPending;
      }
      AfterActionOfDispatch(old(Snapshot()), input1, input2, b, handled, r);
    }

    /** `try_auto_login`, when the start-up timer fires. */
    method TryAutoLogin(b: Backend) returns (r: Reaction)
      requires autoLoginPending
      modifies this, worker
      ensures (Snapshot(), r) == AfterAutoLogin(old(Snapshot()), b)
    {
      autoLoginPending := false;
      var check := worker.ConnectAndCheckAuth(config.Load(), b.build, b.session);
      match check {
        case Answer(authorized) =>
          if authorized {
            CheckGeminiKey();
            r := Quiet;
          } else {
            step := PhoneNumber;
            r := Quiet;
          }
        case CheckRaised(_) =>
          step := ApiCredentials;
          r := Quiet;
      }
    }
  }
}
