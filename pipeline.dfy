/** The main window (`MainWindow`): loading the unread list, formatting a
    chat's messages into prompt lines, building the prompt, and the loop
    that summarizes the selected chats one after the other. Widgets, HTML
    templates and the markdown renderer are not modelled; what the window
    shows is kept as values. */
module Pipeline {
  import opened Wrappers
  import opened Text
  import Seqs
  import Config
  import Telegram
  import Gemini

  const MediaPlaceholder := "[Media/Sticker]"
  const IdOpen := "[ID:"
  const ReplyOpen := " [ReplyTo:"

  /** `getattr(sender, 'first_name', None) or getattr(sender, 'title',
      'Unknown')`, where a `None` title prints as "None". */
  function SenderName(s: Telegram.Sender): string
  {
    if s.firstName.Str? && s.firstName.s != "" then s.firstName.s
    else match s.title
      case Absent => "Unknown"
      case Null => "None"
      case Str(t) => t
  }

  /** `msg.text or "[Media/Sticker]"`. */
  function Content(m: Telegram.Message): string
  {
    if m.text == "" then MediaPlaceholder else m.text
  }

  /** Whether `msg.reply_to_msg_id` is truthy. */
  predicate HasReply(m: Telegram.Message)
  {
    m.replyTo.Some? && m.replyTo.value != 0
  }

  function ReplyTag(m: Telegram.Message): Option<nat>
  {
    if HasReply(m) then m.replyTo else None
  }

  /** The reply tag of a line: ` [ReplyTo:<r>]` for a reply, else nothing. */
  function Tag(m: Telegram.Message): string
  {
    if HasReply(m) then ReplyOpen + Decimal(m.replyTo.value) + "]" else ""
  }

  /** What follows the tags: ` <name>: <text or placeholder>`. */
  function Body(m: Telegram.Message): string
  {
    " " + SenderName(m.sender) + ": " + Content(m)
  }

  /** The line `_format_messages` writes for one message. */
  function Line(m: Telegram.Message): string
  {
    IdOpen + Decimal(m.id) + "]" + Tag(m) + Body(m)
  }

  /** Each line ends with the message's text, or with the media
      placeholder when the text is empty. */
  lemma LineEndsWithContent(m: Telegram.Message)
    ensures |Content(m)| <= |Line(m)|
    ensures Line(m)[|Line(m)| - |Content(m)|..] == Content(m)
    ensures Content(m) == if m.text == "" then MediaPlaceholder else m.text
  {
    var head := IdOpen + Decimal(m.id) + "]" + Tag(m) + " " + SenderName(m.sender) + ": ";
    assert Line(m) == head + Content(m);
  }

  /** The lines for `messages`, in reverse of their order (the fetch is
      newest first, so the lines run oldest first). */
  function Lines(messages: seq<Telegram.Message>): (r: seq<string>)
    ensures |r| == |messages|
  {
    if messages == [] then [] else Lines(messages[1..]) + [Line(messages[0])]
  }

  /** What `_format_messages` returns. */
  function Format(messages: seq<Telegram.Message>): string
  {
    JoinLines(Lines(messages))
  }

  /** Line `k` is the line of the `k`-th message from the end. */
  lemma {:induction false} LinesAt(messages: seq<Telegram.Message>, k: nat)
    requires k < |messages|
    ensures Lines(messages)[k] == Line(messages[|messages| - 1 - k])
  {
    if k < |messages| - 1 {
      LinesAt(messages[1..], k);
    }
  }

  /** `_format_messages`: walks the messages from last to first, appending
      one line each, and joins the lines with newlines. */
  method FormatMessages(messages: seq<Telegram.Message>) returns (text: string)
    ensures text == Format(messages)
  {
    var lines: seq<string> := [];
    var i := |messages|;
    while i > 0
      invariant 0 <= i <= |messages|
      invariant lines == Lines(messages[i..])
    {
      i := i - 1;
      assert messages[i..][1..] == messages[i + 1..];
      lines := lines + [Line(messages[i])];
    }
    assert messages[0..] == messages;
    text := JoinLines(lines);
  }

  lemma LineHasNoNewline(m: Telegram.Message)
    requires '\n' !in SenderName(m.sender) && '\n' !in Content(m)
    ensures '\n' !in Line(m)
  {
    assert '\n' !in Decimal(m.id);
    assert HasReply(m) ==> '\n' !in Decimal(m.replyTo.value);
  }

  /** One line per message, in reverse of input order: when no sender name
      and no text holds a newline, splitting the formatted text on newlines
      gives back exactly the messages' lines, the last message first. */
  lemma OneLinePerMessage(messages: seq<Telegram.Message>)
    requires messages != []
    requires forall i :: 0 <= i < |messages| ==>
      '\n' !in SenderName(messages[i].sender) && '\n' !in Content(messages[i])
    ensures |SplitLines(Format(messages))| == |messages|
    ensures forall k :: 0 <= k < |messages| ==> SplitLines(Format(messages))[k] == Line(messages[|messages| - 1 - k])
  {
    var lines := Lines(messages);
    forall k | 0 <= k < |lines|
      ensures '\n' !in lines[k] && lines[k] == Line(messages[|messages| - 1 - k])
    {
      LinesAt(messages, k);
      LineHasNoNewline(messages[|messages| - 1 - k]);
    }
    SplitJoinLines(lines);
  }

  /** Reads a decimal number closed by `]` from the start of `s`, with
      what follows the `]`. */
  function ReadNumber(s: string): Option<(nat, string)>
  {
    var k := FindChar(s, ']');
    if k == |s| || !AllDigits(s[..k]) then None
    else Some((ParseDecimal(s[..k]), s[k + 1..]))
  }

  /** Reads an optional reply tag from the start of `tail`, with what
      follows it. */
  function ParseReply(tail: string): Option<(Option<nat>, string)>
  {
    if ReplyOpen <= tail then
      match ReadNumber(tail[|ReplyOpen|..])
      case None => None
      case Some((r, body)) => Some((Some(r), body))
    else Some((None, tail))
  }

  /** Reads the id and the reply tag back from the start of a line, with
      the text that follows them. */
  function ParseMeta(line: string): Option<(nat, Option<nat>, string)>
  {
    if !(IdOpen <= line) then None
    else match ReadNumber(line[|IdOpen|..])
      case None => None
      case Some((id, tail)) =>
        match ParseReply(tail)
        case None => None
        case Some((r, body)) => Some((id, r, body))
  }

  /** The first `]` after a run of digits is the one right after them. */
  lemma {:induction false} FindAfterDigits(d: string, x: string)
    requires AllDigits(d)
    ensures FindChar(d + "]" + x, ']') == |d|
  {
    if d != [] {
      assert (d + "]" + x)[0] == d[0];
      assert (d + "]" + x)[1..] == d[1..] + "]" + x;
      FindAfterDigits(d[1..], x);
    }
  }

  /** A decimal number closed by `]` reads back as itself, and what
      follows the `]` is left over. */
  lemma ReadNumberOf(n: nat, x: string)
    ensures ReadNumber(Decimal(n) + "]" + x) == Some((n, x))
  {
    var d := Decimal(n);
    FindAfterDigits(d, x);
    ParseDecimalOfDecimal(n);
    assert (d + "]" + x)[..|d|] == d;
    assert (d + "]" + x)[|d| + 1..] == x;
  }

  lemma Unprefix(a: string, b: string)
    ensures a <= a + b && (a + b)[|a|..] == b
  {
  }

  lemma ReplyRoundTrip(m: Telegram.Message)
    requires HasReply(m) || !(ReplyOpen <= Body(m))
    ensures ParseReply(Tag(m) + Body(m)) == Some((ReplyTag(m), Body(m)))
  {
    if HasReply(m) {
      var d := Decimal(m.replyTo.value);
      assert Tag(m) + Body(m) == ReplyOpen + (d + "]" + Body(m));
      Unprefix(ReplyOpen, d + "]" + Body(m));
      ReadNumberOf(m.replyTo.value, Body(m));
    } else {
      assert Tag(m) + Body(m) == Body(m);
    }
  }

  lemma IdRoundTrip(n: nat, tail: string)
    ensures ParseMeta(IdOpen + (Decimal(n) + "]" + tail)) ==
      match ParseReply(tail)
      case None => None
      case Some((r, body)) => Some((n, r, body))
  {
    Unprefix(IdOpen, Decimal(n) + "]" + tail);
    ReadNumberOf(n, tail);
  }

  /** The tag round trip: the id, and the reply id exactly when the message
      is a reply, read back from the line, unless a line with no reply tag
      has a body that itself starts like a reply tag. */
  lemma MetaRoundTrip(m: Telegram.Message)
    requires HasReply(m) || !(ReplyOpen <= Body(m))
    ensures ParseMeta(Line(m)) == Some((m.id, ReplyTag(m), Body(m)))
  {
    assert Line(m) == IdOpen + (Decimal(m.id) + "]" + (Tag(m) + Body(m)));
    IdRoundTrip(m.id, Tag(m) + Body(m));
    ReplyRoundTrip(m);
  }

  const PromptMiddle := PromptRule + PromptNew
  const PromptRule := "\n================================\n"
  const PromptNew := "--- NEW MESSAGES (summarize these) ---\n"
  const PromptTail := "\n\nTASK: " + "Write a brief summary of the NEW messages."

  const PromptHeadStart := "Role: Personal Assistant. " + "Analyze the correspondence in chat '"
  const PromptHeadEnd := PromptFormat + PromptReplies + PromptContext
  const PromptFormat := "'.\nIMPORTANT: " + "Messages have format " + "'[ID:...] [ReplyTo:...] Name: Text'. "
  const PromptReplies := "Use ReplyTo to understand " + "who is replying to whom.\n\n"
  const PromptContext := "--- CONTEXT (already read) ---\n"

  /** The instructions before the context, naming the chat. */
  function PromptHead(chat: string): string
  {
    PromptHeadStart + chat + PromptHeadEnd
  }

  /** Where the pieces of a five-part concatenation sit. */
  lemma Pieces(a: string, b: string, c: string, d: string, e: string)
    ensures var p := a + b + c + d + e;
      && |p| == |a| + |b| + |c| + |d| + |e|
      && a <= p
      && p[|a|..|a| + |b|] == b
      && p[|a| + |b|..|p| - |e| - |d|] == c
      && p[|p| - |e| - |d|..|p| - |e|] == d
      && p[|p| - |e|..] == e
  {
    var p := a + b + c + d + e;
    assert p == a + (b + (c + (d + e)));
  }

  /** The prompt `start_processing` sends, by its three varying parts:
      the chat's name, the already-read context and the new messages. */
  datatype PromptText = PromptText(chat: string, context: string, newer: string)

  /** The text of a prompt: the fixed instructions, then the context, then
      the new messages, each embedded verbatim. */
  function Render(p: PromptText): (text: string)
    ensures |text| == |PromptHead(p.chat)| + |p.context| + |PromptMiddle| + |p.newer| + |PromptTail|
    ensures PromptHead(p.chat) <= text
    ensures text[|PromptHead(p.chat)|..|PromptHead(p.chat)| + |p.context|] == p.context
  {
    Pieces(PromptHead(p.chat), p.context, PromptMiddle, p.newer, PromptTail);
    PromptHead(p.chat) + p.context + PromptMiddle + p.newer + PromptTail
  }

  /** After the context come the separator, the new messages verbatim and
      the task line, which ends the prompt. */
  lemma RenderEnds(p: PromptText)
    ensures var text := Render(p);
      && |PromptHead(p.chat)| + |p.context| + |PromptMiddle| + |p.newer| + |PromptTail| == |text|
      && text[|PromptHead(p.chat)| + |p.context|..|text| - |PromptTail| - |p.newer|] == PromptMiddle
      && text[|text| - |PromptTail| - |p.newer|..|text| - |PromptTail|] == p.newer
      && text[|text| - |PromptTail|..] == PromptTail
  {
    Pieces(PromptHead(p.chat), p.context, PromptMiddle, p.newer, PromptTail);
  }

  /** The prompt for a chat from its fetched history: the older part as
      context, the unread part as the messages to summarize. */
  function PromptFor(d: Telegram.Dialog, fetched: seq<Telegram.Message>): PromptText
  {
    var parts := Telegram.SplitHistory(fetched, d.unread);
    PromptText(d.name, Format(parts.1), Format(parts.0))
  }

  /** The prompt asks about the first `unread` fetched messages (the
      newest) and gives the rest as context, each part formatted oldest
      first, and names the chat. */
  lemma PromptSplitsHistory(d: Telegram.Dialog, fetched: seq<Telegram.Message>)
    ensures var k := if d.unread <= |fetched| then d.unread else |fetched|;
      && PromptFor(d, fetched).chat == d.name
      && PromptFor(d, fetched).newer == Format(fetched[..k])
      && PromptFor(d, fetched).context == Format(fetched[k..])
  {
    var parts := Telegram.SplitHistory(fetched, d.unread);
    var k := if d.unread <= |fetched| then d.unread else |fetched|;
    assert parts.0 == fetched[..k] by {
      assert parts.0 == (parts.0 + parts.1)[..k];
    }
    assert parts.1 == fetched[k..] by {
      assert parts.1 == (parts.0 + parts.1)[k..];
    }
  }

  /** What one chat's turn of the loop met outside the model. */
  datatype Fetch = Fetched(messages: seq<Telegram.Message>) | FetchRaised(message: string)
  datatype ChatEffects = ChatEffects(
    history: Fetch,                   // `get_chat_history`
    senders: Attempt,                 // the `get_sender` calls while formatting
    service: PromptText -> Gemini.Reply,  // the HTTP exchange for the rendered prompt
    markdownOk: bool)                 // whether `markdown.markdown` succeeded

  /** How the summary was rendered: as markdown, or as escaped text in an
      error-coloured box when markdown raised. */
  datatype Rendering = AsMarkdown | AsEscapedText

  /** Why a chat produced an error block. A summary that is not a string
      makes both `markdown.markdown` and `html.escape` raise. */
  datatype Failure = FetchFailed(message: string) | SenderFailed(message: string) | SummaryNotText(value: Gemini.Json)

  /** One block of the results page. */
  datatype Block =
    | SummaryBlock(name: string, unread: nat, summary: Gemini.Outcome, rendering: Rendering)
    | ErrorBlock(name: string, failure: Failure)

  /** One chat's turn of `start_processing`: a summary block, or an error
      block when any step raised. */
  function ChatBlock(d: Telegram.Dialog, key: Option<string>, e: ChatEffects): (b: Block)
    ensures b.name == d.name
    ensures e.history.FetchRaised? ==> b == ErrorBlock(d.name, FetchFailed(e.history.message))
    ensures e.history.Fetched? && e.senders.Raised? ==> b == ErrorBlock(d.name, SenderFailed(e.senders.message))
    ensures e.history.Fetched? && e.senders.Ok? ==>
      var o := Gemini.Classify(key, e.service(PromptFor(d, e.history.messages)));
      o.Generated? && !o.value.JStr? ==> b == ErrorBlock(d.name, SummaryNotText(o.value))
  {
    match e.history
    case FetchRaised(m) => ErrorBlock(d.name, FetchFailed(m))
    case Fetched(messages) =>
      if e.senders.Raised? then ErrorBlock(d.name, SenderFailed(e.senders.message))
      else
        var o := Gemini.Classify(key, e.service(PromptFor(d, messages)));
        if o.Generated? && !o.value.JStr? then ErrorBlock(d.name, SummaryNotText(o.value))
        else SummaryBlock(d.name, d.unread, o, if e.markdownOk then AsMarkdown else AsEscapedText)
  }

  /** The summary service is asked only after the history and every
      sender were fetched: when either raised, the block is the same
      whatever the service would have answered. */
  lemma NoRequestAfterFailure(d: Telegram.Dialog, key: Option<string>, e: ChatEffects, other: PromptText -> Gemini.Reply)
    requires e.history.FetchRaised? || e.senders.Raised?
    ensures ChatBlock(d, key, e) == ChatBlock(d, key, e.(service := other))
    ensures ChatBlock(d, key, e).ErrorBlock?
  {
  }

  /** A chat gets a summary block exactly when its history and senders
      were fetched and the service's reply is not a generated value other
      than a string; the block then holds the classified reply, the unread
      count, and markdown rendering exactly when markdown succeeded. */
  lemma SummaryBlockExactly(d: Telegram.Dialog, key: Option<string>, e: ChatEffects)
    ensures ChatBlock(d, key, e).SummaryBlock? <==>
      && e.history.Fetched? && e.senders.Ok?
      && var o := Gemini.Classify(key, e.service(PromptFor(d, e.history.messages)));
         !(o.Generated? && !o.value.JStr?)
    ensures ChatBlock(d, key, e).SummaryBlock? ==>
      && ChatBlock(d, key, e).summary == Gemini.Classify(key, e.service(PromptFor(d, e.history.messages)))
      && ChatBlock(d, key, e).unread == d.unread
      && (ChatBlock(d, key, e).rendering == AsMarkdown <==> e.markdownOk)
  {
  }

  /** The blocks of a whole run, one per selected chat, in order. */
  function Blocks(chats: seq<Telegram.Dialog>, key: Option<string>, effects: seq<ChatEffects>): (r: seq<Block>)
    requires |effects| == |chats|
    ensures |r| == |chats|
  {
    if chats == [] then []
    else [ChatBlock(chats[0], key, effects[0])] + Blocks(chats[1..], key, effects[1..])
  }

  /** Block `i` depends on chat `i` alone: one chat's failure changes no
      other chat's block. */
  lemma {:induction false} BlocksAt(chats: seq<Telegram.Dialog>, key: Option<string>, effects: seq<ChatEffects>, i: nat)
    requires |effects| == |chats| && i < |chats|
    ensures Blocks(chats, key, effects)[i] == ChatBlock(chats[i], key, effects[i])
  {
    if i > 0 {
      BlocksAt(chats[1..], key, effects[1..], i - 1);
    }
  }

  lemma {:induction false} BlocksSnoc(chats: seq<Telegram.Dialog>, key: Option<string>, effects: seq<ChatEffects>,
                                      d: Telegram.Dialog, e: ChatEffects)
    requires |effects| == |chats|
    ensures Blocks(chats + [d], key, effects + [e]) == Blocks(chats, key, effects) + [ChatBlock(d, key, e)]
  {
    if chats != [] {
      assert (chats + [d])[1..] == chats[1..] + [d];
      assert (effects + [e])[1..] == effects[1..] + [e];
      BlocksSnoc(chats[1..], key, effects[1..], d, e);
    }
  }

  lemma BlocksStep(chats: seq<Telegram.Dialog>, key: Option<string>, effects: seq<ChatEffects>, i: nat)
    requires |effects| == |chats| && i < |chats|
    ensures Blocks(chats[..i + 1], key, effects[..i + 1]) ==
      Blocks(chats[..i], key, effects[..i]) + [ChatBlock(chats[i], key, effects[i])]
  {
    assert chats[..i + 1] == chats[..i] + [chats[i]];
    assert effects[..i + 1] == effects[..i] + [effects[i]];
    BlocksSnoc(chats[..i], key, effects[..i], chats[i], effects[i]);
  }

  /** The values the progress bar takes during a run of `n` chats:
      0, then one more after each chat. */
  function ProgressValues(n: nat): (r: seq<int>)
    ensures |r| == n + 1
    ensures forall i :: 0 <= i <= n ==> r[i] == i
  {
    if n == 0 then [0] else ProgressValues(n - 1) + [n]
  }

  /** What the progress bar's text says: Qt's default percentage before
      the program first sets it, the chat being summarized, "Done!", or
      nothing after going back to the list. */
  datatype BarText = Percent | Analysing(chat: string) | Done | Blank

  /** The text the bar shows for each state. */
  function BarString(t: BarText): string
  {
    match t
    case Percent => "%p%"
    case Analysing(chat) => "Analysis: " + chat + "..."
    case Done => "Done!"
    case Blank => ""
  }

  /** Distinct bar states show distinct texts, so the text names the chat
      being summarized. */
  lemma {:induction false} BarStringInjective(a: BarText, b: BarText)
    ensures BarString(a) == BarString(b) <==> a == b
  {
    if a.Analysing? && b.Analysing? && BarString(a) == BarString(b) {
      var prefix := "Analysis: ";
      assert BarString(a)[|prefix|..|BarString(a)| - 3] == a.chat;
      assert BarString(b)[|prefix|..|BarString(b)| - 3] == b.chat;
    }
  }

  /** The bar's text after summarizing `chats`, starting from `before`. */
  function BarAfter(before: BarText, chats: seq<Telegram.Dialog>): BarText
  {
    if chats == [] then before else Analysing(chats[|chats| - 1].name)
  }

  datatype Page = AuthPage | SelectionPage | ResultsPage

  /** A row of the chat list: its dialog, its text and its check box. */
  datatype ListItem = ListItem(dialog: Telegram.Dialog, caption: string, checked: bool)

  /** What `get_unread_dialogs` saw from `get_dialogs`. */
  datatype DialogsReply = Listed(dialogs: seq<Telegram.Dialog>) | ListRaised(message: string)

  function Icon(k: Telegram.Kind): string
  {
    match k
    case Channel => "\U{1F4E2}"
    case Group => "\U{1F465}"
    case Person => "\U{1F464}"
  }

  function NewItem(d: Telegram.Dialog): ListItem
  {
    ListItem(d, Icon(d.kind) + " " + d.name + " (+" + Decimal(d.unread) + ")", false)
  }

  /** The status line after a successful load of `n` unread chats. */
  function ChatCount(n: nat): string
  {
    if n == 0 then "No unread messages." else "Active chats: " + Decimal(n)
  }

  predicate IsChecked(item: ListItem)
  {
    item.checked
  }

  function DialogOf(item: ListItem): Telegram.Dialog
  {
    item.dialog
  }

  /** The dialogs of the checked rows, in list order. */
  function Selected(items: seq<ListItem>): seq<Telegram.Dialog>
  {
    Seqs.Map(Seqs.Filter(items, IsChecked), DialogOf)
  }

  lemma SelectedAppend(a: seq<ListItem>, b: seq<ListItem>)
    ensures Selected(a + b) == Selected(a) + Selected(b)
  {
    Seqs.FilterAppend(a, b, IsChecked);
    Seqs.MapAppend(Seqs.Filter(a, IsChecked), Seqs.Filter(b, IsChecked), DialogOf);
  }

  /** A freshly loaded list has nothing selected. */
  lemma {:induction false} NewItemsUnselected(ds: seq<Telegram.Dialog>)
    ensures Selected(Seqs.Map(ds, NewItem)) == []
  {
    if ds != [] {
      assert Seqs.Map(ds, NewItem) == [NewItem(ds[0])] + Seqs.Map(ds[1..], NewItem);
      SelectedAppend([NewItem(ds[0])], Seqs.Map(ds[1..], NewItem));
      NewItemsUnselected(ds[1..]);
    }
  }

  /** The rows `load_chats` adds, one per dialog, in order, all unchecked. */
  method ListItems(dialogs: seq<Telegram.Dialog>) returns (items: seq<ListItem>)
    ensures items == Seqs.Map(dialogs, NewItem)
    ensures Selected(items) == []
  {
    items := [];
    var i := 0;
    while i < |dialogs|
      invariant 0 <= i <= |dialogs|
      invariant items == Seqs.Map(dialogs[..i], NewItem)
    {
      assert Seqs.Map(dialogs[..i + 1], NewItem) == items + [NewItem(dialogs[i])] by {
        assert dialogs[..i + 1] == dialogs[..i] + [dialogs[i]];
        Seqs.MapAppend(dialogs[..i], [dialogs[i]], NewItem);
      }
      items := items + [NewItem(dialogs[i])];
      i := i + 1;
    }
    assert dialogs[..i] == dialogs;
    NewItemsUnselected(dialogs);
  }

  /** `MainWindow`, as far as its state carries the program's logic: the
      page shown, the chat list, the status line, the result blocks, the
      progress bar and the back button. */
  class MainWindow {
    var page: Page
    var items: seq<ListItem>
    var status: string
    var blocks: seq<Block>
    var progress: int
    var progressMax: nat
    var progressTrail: seq<int>
    var progressFormat: BarText
    var backEnabled: bool

    constructor()
      ensures page == AuthPage && items == [] && status == "Ready to work" && blocks == [] && backEnabled
      ensures progress == -1 && progressMax == 100 && progressFormat == Percent
    {
      page := AuthPage;
      items := [];
      status := "Ready to work";
      blocks := [];
      progress := -1;  // a new Qt progress bar holds its reset value
      progressMax := 100;  // and Qt's default range 0..100
      progressTrail := [];
      progressFormat := Percent;
      backEnabled := true;
    }

    /** `load_chats`: on success the list is replaced by one unchecked row
      per unread dialog and the status says how many there are, or that
      there are none; on failure the list is left alone. */
    method LoadChats(reply: DialogsReply) returns (error: Option<string>)
      modifies this
      ensures reply.ListRaised? ==> error == Some(reply.message) && items == old(items) && status == "Load error"
      ensures reply.Listed? ==> error == None && items == Seqs.Map(Telegram.UnreadDialogs(reply.dialogs), NewItem)
      ensures reply.Listed? ==> status == ChatCount(|Telegram.UnreadDialogs(reply.dialogs)|)
      ensures reply.Listed? ==> Selected(items) == []
      ensures page == old(page) && blocks == old(blocks) && progress == old(progress)
      ensures progressMax == old(progressMax) && progressTrail == old(progressTrail)
      ensures progressFormat == old(progressFormat) && backEnabled == old(backEnabled)
    {
      status := "Updating dialogs...";
      match reply {
        case ListRaised(m) =>
          status := "Load error";
          return Some(m);
        case Listed(fetched) =>
          var dialogs := Telegram.UnreadDialogs(fetched);
          items := [];
          if dialogs == [] {
            status := "No unread messages.";
            return None;
          }
          items := ListItems(dialogs);
          status := "Active chats: " + Decimal(|dialogs|);
          error := None;
      }
    }

    /** The user ticks or unticks row `i`. */
    method SetChecked(i: nat, checked: bool)
      requires i < |items|
      modifies this
      ensures items == old(items)[i := old(items)[i].(checked := checked)]
      ensures page == old(page) && status == old(status) && blocks == old(blocks) && progress == old(progress)
      ensures progressMax == old(progressMax) && progressTrail == old(progressTrail)
      ensures progressFormat == old(progressFormat) && backEnabled == old(backEnabled)
    {
      items := items[i := items[i].(checked := checked)];
    }

    /** The selection loop at the top of `start_processing`. */
    method SelectedDialogs() returns (chats: seq<Telegram.Dialog>)
      ensures chats == Selected(items)
    {
      chats := [];
      var i := 0;
      while i < |items|
        invariant 0 <= i <= |items|
        invariant chats == Selected(items[..i])
      {
        SelectedAppend(items[..i], [items[i]]);
        assert items[..i + 1] == items[..i] + [items[i]];
        if items[i].checked {
          chats := chats + [items[i].dialog];
        }
        i := i + 1;
      }
      assert items[..i] == items;
    }

    /** The body of the loop in `start_processing` for one chat: fetch the
      history, format both parts, ask for the summary and render it; any
      exception gives an error block instead. */
    method ProcessChat(d: Telegram.Dialog, key: Option<string>, e: ChatEffects) returns (block: Block)
      ensures block == ChatBlock(d, key, e)
    {
      match e.history {
        case FetchRaised(m) =>
          return ErrorBlock(d.name, FetchFailed(m));
        case Fetched(messages) =>
          if e.senders.Raised? {
            return ErrorBlock(d.name, SenderFailed(e.senders.message));
          }
          var parts := Telegram.SplitHistory(messages, d.unread);
          var context := FormatMessages(parts.1);
          var newer := FormatMessages(parts.0);
          var summary := Gemini.Classify(key, e.service(PromptText(d.name, context, newer)));
          if summary.Generated? && !summary.value.JStr? {
            return ErrorBlock(d.name, SummaryNotText(summary.value));
          }
          block := SummaryBlock(d.name, d.unread, summary, if e.markdownOk then AsMarkdown else AsEscapedText);
      }
    }

    /** `start_processing`: with nothing selected it only warns; otherwise
      it shows the results page and, chat by chat in list order, appends
      exactly one block and advances the progress bar by one. `config` is
      the stored configuration the summary call reads its key from. */
    method StartProcessing(config: map<string, string>, effects: seq<ChatEffects>) returns (rejected: bool)
      requires |effects| == |Selected(items)|
      modifies this
      ensures rejected <==> Selected(old(items)) == []
      ensures items == old(items) && status == old(status)
      ensures rejected ==>
        && page == old(page) && blocks == old(blocks) && progress == old(progress)
        && progressMax == old(progressMax) && progressTrail == old(progressTrail)
        && progressFormat == old(progressFormat) && backEnabled == old(backEnabled)
      ensures !rejected ==>
        && page == ResultsPage && backEnabled && progressFormat == Done
        && blocks == Blocks(Selected(items), Config.Get(config, Config.GeminiKeyName), effects)
        && progressMax == |effects| && progress == |effects| && progressTrail == ProgressValues(|effects|)
    {
      var chats := SelectedDialogs();
      if chats == [] {
        return true;
      }
      rejected := false;
      page := ResultsPage;
      backEnabled := false;
      var key := Config.Get(config, Config.GeminiKeyName);
      SummarizeAll(chats, key, effects);
      progressFormat := Done;
      backEnabled := true;
    }

    /** The loop of `start_processing` over the selected chats: the bar is
      set to run from 0 to the number of chats, and each chat in turn
      appends its block and moves the bar one step. */
    method SummarizeAll(chats: seq<Telegram.Dialog>, key: Option<string>, effects: seq<ChatEffects>)
      requires |effects| == |chats|
      modifies this
      ensures blocks == Blocks(chats, key, effects)
      ensures progressMax == |chats| && progress == |chats| && progressTrail == ProgressValues(|chats|)
      ensures progressFormat == if chats == [] then old(progressFormat) else Analysing(chats[|chats| - 1].name)
      ensures page == old(page) && items == old(items) && status == old(status) && backEnabled == old(backEnabled)
    {
      ghost var before := progressFormat;
      blocks := [];
      progressMax := |chats|;
      progress := 0;
      progressTrail := [0];
      var idx := 0;
      while idx < |chats|
        invariant 0 <= idx <= |chats|
        invariant blocks == Blocks(chats[..idx], key, effects[..idx])
        invariant progress == idx && progressTrail == ProgressValues(idx)
        invariant progressMax == |chats|
        invariant progressFormat == BarAfter(before, chats[..idx])
        invariant page == old(page) && items == old(items) && status == old(status) && backEnabled == old(backEnabled)
      {
        SummarizeNext(chats, key, effects, idx, before);
        idx := idx + 1;
      }
      assert chats[..idx] == chats;
      assert effects[..idx] == effects;
    }

    /** The loop body of `SummarizeAll`: after the chats before `idx`, the
      chat at `idx` is summarized and the state is that after `idx + 1` chats. */
    method SummarizeNext(chats: seq<Telegram.Dialog>, key: Option<string>, effects: seq<ChatEffects>, idx: nat, ghost before: BarText)
      requires |effects| == |chats| && idx < |chats|
      requires blocks == Blocks(chats[..idx], key, effects[..idx])
      requires progress == idx && progressTrail == ProgressValues(idx)
      modifies this
      ensures blocks == Blocks(chats[..idx + 1], key, effects[..idx + 1])
      ensures progress == idx + 1 && progressTrail == ProgressValues(idx + 1)
      ensures progressFormat == BarAfter(before, chats[..idx + 1])
      ensures page == old(page) && items == old(items) && status == old(status)
      ensures progressMax == old(progressMax) && backEnabled == old(backEnabled)
    {
      BlocksStep(chats, key, effects, idx);
      SummarizeOne(chats[idx], key, effects[idx]);
      assert chats[..idx + 1][idx] == chats[idx];
    }

    /** One turn of that loop: the bar names the chat, the chat's block is
      appended, and the bar moves one step. */
    method SummarizeOne(d: Telegram.Dialog, key: Option<string>, e: ChatEffects)
      modifies this
      ensures blocks == old(blocks) + [ChatBlock(d, key, e)]
      ensures progress == old(progress) + 1 && progressTrail == old(progressTrail) + [old(progress) + 1]
      ensures progressFormat == Analysing(d.name)
      ensures page == old(page) && items == old(items) && status == old(status)
      ensures progressMax == old(progressMax) && backEnabled == old(backEnabled)
    {
      progressFormat := Analysing(d.name);
      var block := ProcessChat(d, key, e);
      blocks := blocks + [block];
      progress := progress + 1;
      progressTrail := progressTrail + [progress];
    }

    /** `go_back_to_list`: back to the chat list with the bar reset and
      its text cleared. */
    method GoBackToList()
      modifies this
      ensures page == SelectionPage && progress == 0 && progressFormat == Blank
      ensures items == old(items) && status == old(status) && blocks == old(blocks)
      ensures progressMax == old(progressMax) && progressTrail == old(progressTrail) && backEnabled == old(backEnabled)
    {
      page := SelectionPage;
      progress := 0;
      progressFormat := Blank;
    }

    /** `go_to_app`, the sign-in widget's completion callback: shows the
      chat list and loads it. */
    method GoToApp(reply: DialogsReply) returns (error: Option<string>)
      modifies this
      ensures page == SelectionPage
      ensures reply.ListRaised? ==> error == Some(reply.message) && items == old(items) && status == "Load error"
      ensures reply.Listed? ==> error == None && items == Seqs.Map(Telegram.UnreadDialogs(reply.dialogs), NewItem)
      ensures reply.Listed? ==> status == ChatCount(|Telegram.UnreadDialogs(reply.dialogs)|)
      ensures Selected(items) == [] || items == old(items)
      ensures blocks == old(blocks) && progress == old(progress) && progressMax == old(progressMax)
      ensures progressTrail == old(progressTrail) && progressFormat == old(progressFormat) && backEnabled == old(backEnabled)
    {
      page := SelectionPage;
      error := LoadChats(reply);
    }
  }
}
