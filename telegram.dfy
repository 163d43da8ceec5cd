/** The messaging side (`TelegramWorker`). Every Telethon call is an input:
    what it returned or what it raised. What the worker itself decides —
    the client's creation, the sentinel for a required password, which
    dialogs count as unread, and where history splits — is modelled. */
module Telegram {
  import opened Wrappers
  import Config
  import Seqs

  /** How many dialogs `get_unread_dialogs` asks for. */
  const DialogLimit: nat := 30
  /** How many already-read messages of context `get_chat_history` adds. */
  const ContextSize: nat := 30
  /** The failure message `sign_in` uses to signal a required password. */
  const TwoFactorRequired := "2FA_REQUIRED"

  datatype Kind = Channel | Group | Person

  /** A conversation as the program uses it. */
  datatype Dialog = Dialog(name: string, kind: Kind, unread: nat)

  /** An attribute of a sender object: missing, `None`, or a string. */
  datatype Attr = Absent | Null | Str(s: string)

  /** The sender `msg.get_sender()` resolves to (a user has `first_name`, a
      chat or channel has `title`; `None` has neither). */
  datatype Sender = Sender(firstName: Attr, title: Attr)

  /** A message: its id, the id it replies to (if any), its sender and its
      text, where `""` stands for both an empty and a missing text. */
  datatype Message = Message(id: nat, replyTo: Option<nat>, sender: Sender, text: string)

  predicate IsUnread(d: Dialog)
  {
    d.unread > 0
  }

  /** The filter inside `get_unread_dialogs`, applied to what `get_dialogs`
      returned. */
  function UnreadDialogs(fetched: seq<Dialog>): (r: seq<Dialog>)
    ensures |r| <= |fetched|
  {
    Seqs.Filter(fetched, IsUnread)
  }

  /** The unread list is exactly the fetched dialogs with a positive unread
      count: each kept as often as it was fetched, in fetched order, and at
      most `DialogLimit` of them when at most that many were fetched. */
  lemma UnreadDialogsExact(fetched: seq<Dialog>, a: seq<Dialog>, b: seq<Dialog>, d: Dialog)
    ensures d in UnreadDialogs(fetched) <==> d in fetched && d.unread > 0
    ensures multiset(UnreadDialogs(fetched))[d] == if d.unread > 0 then multiset(fetched)[d] else 0
    ensures UnreadDialogs(a + b) == UnreadDialogs(a) + UnreadDialogs(b)
    ensures |fetched| <= DialogLimit ==> |UnreadDialogs(fetched)| <= DialogLimit
  {
    Seqs.FilterCount(fetched, IsUnread, d);
    Seqs.FilterAppend(a, b, IsUnread);
  }

  /** The `limit` `get_chat_history` fetches with. */
  function HistoryLimit(unread: nat): nat
  {
    unread + ContextSize
  }

  /** `messages[:unread], messages[unread:]` on what was fetched (newest
      first): the new messages, then the older context. */
  function SplitHistory(fetched: seq<Message>, unread: nat): (r: (seq<Message>, seq<Message>))
    ensures r.0 + r.1 == fetched
    ensures |r.0| == if unread <= |fetched| then unread else |fetched|
  {
    var k := if unread <= |fetched| then unread else |fetched|;
    (fetched[..k], fetched[k..])
  }

  /** When the backend honours the limit, there are never more than
      `ContextSize` old messages, and there are `unread` new ones unless the
      chat holds fewer messages than that. */
  lemma SplitHistoryBounds(fetched: seq<Message>, unread: nat)
    requires |fetched| <= HistoryLimit(unread)
    ensures |SplitHistory(fetched, unread).1| <= ContextSize
    ensures |fetched| >= unread ==> |SplitHistory(fetched, unread).0| == unread
    ensures |fetched| < unread ==> SplitHistory(fetched, unread).1 == []
  {
  }

  /** What `init_client` does with the stored credentials. */
  datatype InitResult = Created | NoCredentials | BuildRaised(message: string)

  /** `init_client`: a client is built only when both `api_id` and
      `api_hash` are stored and non-empty; building it may still raise
      (`int(api_id)` on a non-integer), which the model takes as `build`. */
  function InitOutcome(cfg: map<string, string>, build: Attempt): (r: InitResult)
    ensures r.Created? <==> Config.Stored(cfg, Config.ApiIdKey) && Config.Stored(cfg, Config.ApiHashKey) && build.Ok?
    ensures r.NoCredentials? <==> !(Config.Stored(cfg, Config.ApiIdKey) && Config.Stored(cfg, Config.ApiHashKey))
  {
    if Config.Stored(cfg, Config.ApiIdKey) && Config.Stored(cfg, Config.ApiHashKey) then
      match build
      case Ok => Created
      case Raised(m) => BuildRaised(m)
    else NoCredentials
  }

  /** What `client.is_user_authorized` answered, after `client.connect`,
      or the exception either raised. */
  datatype SessionReply = Authorized | Unauthorized | SessionRaised(message: string)

  /** What `connect_and_check_auth` gives its caller: a boolean, or an
      exception that escapes it. */
  datatype AuthCheck = Answer(authorized: bool) | CheckRaised(message: string)

  /** `connect_and_check_auth` from whether a client exists: returns whether
      a client exists afterwards and the answer. Without stored credentials
      it answers `False` without touching the network. */
  function ConnectAndCheck(hasClient: bool, cfg: map<string, string>, build: Attempt, session: SessionReply): (r: (bool, AuthCheck))
    ensures r.0 <==> hasClient || InitOutcome(cfg, build).Created?
    ensures r.1 == Answer(true) ==> r.0 && session.Authorized?
    ensures !hasClient && InitOutcome(cfg, build).NoCredentials? ==> r == (false, Answer(false))
    ensures !hasClient && InitOutcome(cfg, build).BuildRaised? ==> r == (false, CheckRaised(InitOutcome(cfg, build).message))
    ensures hasClient || InitOutcome(cfg, build).Created? ==>
      && (session.Authorized? ==> r.1 == Answer(true))
      && (session.Unauthorized? ==> r.1 == Answer(false))
      && (session.SessionRaised? ==> r.1 == CheckRaised(session.message))
  {
    var init := if hasClient then Created else InitOutcome(cfg, build);
    match init
    case NoCredentials => (hasClient, Answer(false))
    case BuildRaised(m) => (hasClient, CheckRaised(m))
    case Created =>
      match session
      case Authorized => (true, Answer(true))
      case Unauthorized => (true, Answer(false))
      case SessionRaised(m) => (true, CheckRaised(m))
  }

  /** `send_code`: `(True, "Code sent!")` or `(False, str(e))`. */
  function SendCodeResult(a: Attempt): (r: (bool, string))
    ensures r.0 <==> a.Ok?
    ensures a.Raised? ==> r.1 == a.message
  {
    match a
    case Ok => (true, "Code sent!")
    case Raised(m) => (false, m)
  }

  /** What Telethon's `sign_in` did: accepted, raised
      `SessionPasswordNeededError`, or raised something else. */
  datatype SignInReply = Accepted | PasswordNeeded | Rejected(message: string)

  /** The Telethon call `sign_in` makes: with the password alone, or with
      the stored phone and the code (either may be `None`). */
  datatype SignInCall = WithPassword(password: string) | WithCode(phone: Option<string>, code: Option<string>)

  /** `if password:` in `sign_in`: a non-empty password is sent on its own;
      otherwise the phone and the code are, even when the code is `None`. */
  function SignInCallFor(phone: Option<string>, code: Option<string>, password: Option<string>): (c: SignInCall)
    ensures c.WithPassword? <==> password.Some? && password.value != ""
    ensures c.WithPassword? ==> c.password == password.value
    ensures c.WithCode? ==> c.phone == phone && c.code == code
  {
    if password.Some? && password.value != "" then WithPassword(password.value) else WithCode(phone, code)
  }

  /** `sign_in`: success, the `"2FA_REQUIRED"` sentinel for a required
      password, or the exception's text. The sentinel is a string, so an
      unrelated failure whose text happens to be the sentinel reads the
      same. */
  function SignInResult(reply: SignInReply): (r: (bool, string))
    ensures r.0 <==> reply.Accepted?
    ensures (!r.0 && r.1 == TwoFactorRequired) <==> (reply.PasswordNeeded? || reply == Rejected(TwoFactorRequired))
    ensures reply.Rejected? ==> r.1 == reply.message
  {
    match reply
    case Accepted => (true, "Successful login!")
    case PasswordNeeded => (false, TwoFactorRequired)
    case Rejected(m) => (false, m)
  }

  /** `TelegramWorker`: whether a client object exists, and the phone number
      last used to ask for a code. */
  class Worker {
    var hasClient: bool
    var phone: Option<string>

    constructor()
      ensures !hasClient && phone == None
    {
      hasClient := false;
      phone := None;
    }

    /** `init_client`. */
    method InitClient(cfg: map<string, string>, build: Attempt) returns (r: InitResult)
      modifies this
      ensures r == InitOutcome(cfg, build)
      ensures hasClient == (old(hasClient) || r.Created?) && phone == old(phone)
    {
      r := InitOutcome(cfg, build);
      if r.Created? {
        hasClient := true;
      }
    }

    /** `connect_and_check_auth`. */
    method ConnectAndCheckAuth(cfg: map<string, string>, build: Attempt, session: SessionReply) returns (r: AuthCheck)
      modifies this
      ensures (hasClient, r) == ConnectAndCheck(old(hasClient), cfg, build, session)
      ensures phone == old(phone)
    {
      if !hasClient {
        var init := InitClient(cfg, build);
        if init.NoCredentials? {
          return Answer(false);
        } else if init.BuildRaised? {
          return CheckRaised(init.message);
        }
      }
      match session
      case Authorized => r := Answer(true);
      case Unauthorized => r := Answer(false);
      case SessionRaised(m) => r := CheckRaised(m);
    }

    /** `send_code`: remembers the phone number whatever the outcome. */
    method SendCode(number: string, a: Attempt) returns (ok: bool, msg: string)
      modifies this
      ensures phone == Some(number) && hasClient == old(hasClient)
      ensures (ok, msg) == SendCodeResult(a)
    {
      phone := Some(number);
      ok, msg := a.Ok?, if a.Ok? then "Code sent!" else a.message;
    }

    /** `sign_in(code, password)`; `telethon` stands for what the client
        answers to each call it can be given. */
    method SignIn(code: Option<string>, password: Option<string>, telethon: SignInCall -> SignInReply)
      returns (ok: bool, msg: string)
      ensures (ok, msg) == SignInResult(telethon(SignInCallFor(phone, code, password)))
    {
      var call;
      if password.Some? && password.value != "" {
        call := WithPassword(password.value);
      } else {
        call := WithCode(phone, code);
      }
      match telethon(call)
      case Accepted => ok, msg := true, "Successful login!";
      case PasswordNeeded => ok, msg := false, TwoFactorRequired;
      case Rejected(m) => ok, msg := false, m;
    }
  }
}
