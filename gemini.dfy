/** The summary call (`get_gemini_summary`): the request itself is outside
    the model; what it returned is an input, and the priority-ordered chain
    that turns it into the one value the function returns is modelled with
    Python's own lookup semantics over the parsed JSON. */
module Gemini {
  import opened Wrappers
  import opened Text

  /** A parsed JSON value (numbers are integers here). */
  datatype Json =
    | JNull
    | JBool(b: bool)
    | JNum(n: int)
    | JStr(s: string)
    | JArr(items: seq<Json>)
    | JObj(fields: map<string, Json>)

  /** The exceptions a lookup into a JSON value can raise in Python. */
  datatype PyError = TypeError | AttributeError | KeyError | IndexError

  /** A Python expression's value, or the exception it raised. */
  datatype Py<T> = Value(v: T) | Raise(error: PyError)

  /** What the HTTP exchange produced: an exception from the transport, or
      a status code and a body that `response.json()` parsed or refused. */
  datatype Body = Parsed(json: Json) | Unparsed(raw: string)
  datatype Reply = TransportFailed(detail: string) | Answered(status: nat, body: Body)

  /** The values `get_gemini_summary` can return, one per branch. */
  datatype Outcome =
    | KeyNotFound                                 // no API key stored
    | ConnectionError(detail: string)             // the transport raised
    | UnexpectedShape(error: PyError)             // the body's shape made a lookup raise
    | NetworkError(status: nat, raw: string)      // the body is not JSON
    | HardBlock(reason: Json)                     // promptFeedback.blockReason set
    | ApiError(status: nat, body: Json)           // status other than 200
    | Generated(value: Json)                      // candidates[0].content.parts[0].text
    | SafetyHidden                                // no text, finishReason SAFETY
    | NoText                                      // no text otherwise

  const BlockUnspecified := "BLOCK_REASON_UNSPECIFIED"
  const SafetyReason := "SAFETY"

  /** Python truthiness of a JSON value. */
  predicate Truthy(j: Json)
  {
    match j
    case JNull => false
    case JBool(b) => b
    case JNum(n) => n != 0
    case JStr(s) => s != ""
    case JArr(items) => items != []
    case JObj(fields) => fields != map[]
  }

  /** `key in j`. */
  function Contains(j: Json, key: string): Py<bool>
  {
    match j
    case JObj(fields) => Value(key in fields)
    case JArr(items) => Value(JStr(key) in items)
    case JStr(s) => Value(IsSubstring(key, s))
    case _ => Raise(TypeError)
  }

  /** `j[key]`. */
  function Item(j: Json, key: string): (r: Py<Json>)
    ensures !j.JObj? ==> r == Raise(TypeError)
  {
    match j
    case JObj(fields) => if key in fields then Value(fields[key]) else Raise(KeyError)
    case _ => Raise(TypeError)
  }

  /** `j[0]`; on an object this looks up the integer key 0, which JSON
      objects never have. */
  function First(j: Json): Py<Json>
  {
    match j
    case JArr(items) => if items == [] then Raise(IndexError) else Value(items[0])
    case JStr(s) => if s == "" then Raise(IndexError) else Value(JStr([s[0]]))
    case JObj(_) => Raise(KeyError)
    case _ => Raise(TypeError)
  }

  /** `j.get(key)`, `None` when missing; only objects have `get`. */
  function GetField(j: Json, key: string): Py<Json>
  {
    match j
    case JObj(fields) => Value(if key in fields then fields[key] else JNull)
    case _ => Raise(AttributeError)
  }

  /** Continue a chain of lookups with the next one. */
  function Then(p: Py<Json>, f: Json -> Py<Json>): Py<Json>
  {
    match p
    case Value(v) => f(v)
    case Raise(e) => Raise(e)
  }

  /** `result['candidates'][0]['content']['parts'][0]['text']`. */
  function TextPath(result: Json): Py<Json>
  {
    Then(Then(Then(Then(Then(Item(result, "candidates"), First),
      c => Item(c, "content")), c => Item(c, "parts")), First), p => Item(p, "text"))
  }

  /** `result['candidates'][0].get('finishReason')`. */
  function FinishReason(candidates: Json): Py<Json>
  {
    Then(First(candidates), c => GetField(c, "finishReason"))
  }

  /** The fallback once the text path raised `KeyError` or `IndexError`:
      the safety notice when the first candidate finished for safety. */
  function NoTextReason(result: Json): (o: Outcome)
    ensures o == SafetyHidden || o == NoText || o.UnexpectedShape?
    ensures !result.JObj? ==> o == UnexpectedShape(AttributeError)
    ensures o == SafetyHidden <==>
      result.JObj? && "candidates" in result.fields && FinishReason(result.fields["candidates"]) == Value(JStr(SafetyReason))
    ensures result.JObj? && ("candidates" !in result.fields || !Truthy(result.fields["candidates"])) ==> o == NoText
    ensures result.JObj? && "candidates" in result.fields && FinishReason(result.fields["candidates"]).Value? ==>
      o == (if FinishReason(result.fields["candidates"]).v == JStr(SafetyReason) then SafetyHidden else NoText)
    ensures var raised := result.JObj? && "candidates" in result.fields && Truthy(result.fields["candidates"])
        && FinishReason(result.fields["candidates"]).Raise?;
      raised ==> o == UnexpectedShape(FinishReason(result.fields["candidates"]).error)
  {
    match GetField(result, "candidates")
    case Raise(e) => UnexpectedShape(e)
    case Value(candidates) =>
      if !Truthy(candidates) then NoText
      else match FinishReason(candidates)
        case Raise(e) => UnexpectedShape(e)
        case Value(reason) => if reason == JStr(SafetyReason) then SafetyHidden else NoText
  }

  /** The chain after the block check: the status, then the text path. */
  function AfterBlockCheck(status: nat, result: Json): (o: Outcome)
    ensures status != 200 ==> o == ApiError(status, result)
    ensures status == 200 && TextPath(result).Value? ==> o == Generated(TextPath(result).v)
    ensures status == 200 && TextPath(result) in {Raise(KeyError), Raise(IndexError)} ==> o == NoTextReason(result)
    ensures status == 200 && TextPath(result) in {Raise(TypeError), Raise(AttributeError)} ==> o == UnexpectedShape(TextPath(result).error)
  {
    if status != 200 then ApiError(status, result)
    else match TextPath(result)
      case Value(t) => Generated(t)
      case Raise(e) =>
        if e == KeyError || e == IndexError then NoTextReason(result) else UnexpectedShape(e)
  }

  /** The block reason in `result['promptFeedback']`, looked up as the
      source does: `None` when there is none, and the exception when the
      body's shape makes the lookup raise. */
  function BlockReason(result: Json): Py<Json>
  {
    match Contains(result, "promptFeedback")
    case Raise(e) => Raise(e)
    case Value(present) =>
      if present then Then(Item(result, "promptFeedback"), pf => GetField(pf, "blockReason"))
      else Value(JNull)
  }

  predicate Blocks(reason: Json)
  {
    Truthy(reason) && reason != JStr(BlockUnspecified)
  }

  /** The whole decision chain of `get_gemini_summary`, from the stored key
      (as `ConfigManager.get` returns it) and what the exchange produced. */
  function Classify(key: Option<string>, reply: Reply): (o: Outcome)
    ensures o.KeyNotFound? <==> key.None? || key.value == ""
    ensures o.ConnectionError? <==> !o.KeyNotFound? && reply.TransportFailed?
    ensures o.NetworkError? <==> !o.KeyNotFound? && reply.Answered? && reply.body.Unparsed?
    ensures o.Generated? ==>
      reply.Answered? && reply.status == 200 && reply.body.Parsed? && TextPath(reply.body.json) == Value(o.value)
    ensures o.ApiError? ==> reply.Answered? && reply.status != 200
    ensures o.HardBlock? ==> Blocks(o.reason)
  {
    if key.None? || key.value == "" then KeyNotFound
    else match reply
      case TransportFailed(detail) => ConnectionError(detail)
      case Answered(status, Unparsed(raw)) => NetworkError(status, raw)
      case Answered(status, Parsed(result)) =>
        match BlockReason(result)
        case Raise(e) => UnexpectedShape(e)
        case Value(reason) =>
          if Blocks(reason) then HardBlock(reason) else AfterBlockCheck(status, result)
  }

  const NoKeyNotice := "Error: Gemini API Key not found in settings."
  const NoTextNotice := "AI returned no text."
  const ConnectionPrefix := "Connection error: "
  const NetworkPrefix := "Network error: "
  const ApiPrefix := "API Error ("
  const WarningSign := "\U{26A0}\U{FE0F} "
  const BlockPrefix := WarningSign + "Content blocked by Google (Hard Block): "
  const SafetyNotice := WarningSign + "Google hid the response " + "due to safety settings (Safety Filter)."

  /** The text the user sees for an outcome, as `get_gemini_summary` builds
      it. `show` stands for Python's `str()` of a JSON value and `explain`
      for `str()` of an exception, neither of which is modelled. The
      generated value is returned as it is, so only a string has a text. */
  function Message(o: Outcome, show: Json -> string, explain: PyError -> string): (r: Option<string>)
    requires forall t :: show(JStr(t)) == t
    ensures r.None? <==> o.Generated? && !o.value.JStr?
    ensures o.Generated? && o.value.JStr? ==> r == Some(o.value.s)
    ensures o.KeyNotFound? ==> r == Some(NoKeyNotice)
    ensures o.NoText? ==> r == Some(NoTextNotice)
    ensures o.SafetyHidden? ==> r == Some(SafetyNotice)
    ensures o.ConnectionError? ==> r == Some(ConnectionPrefix + o.detail)
    ensures o.UnexpectedShape? ==> r == Some(ConnectionPrefix + explain(o.error))
    ensures o.NetworkError? ==> r == Some(NetworkPrefix + Decimal(o.status) + " - " + o.raw)
    ensures o.HardBlock? ==> r == Some(BlockPrefix + show(o.reason))
    ensures o.HardBlock? && o.reason.JStr? ==> r == Some(BlockPrefix + o.reason.s)
    ensures o.ApiError? ==> r == Some(ApiPrefix + Decimal(o.status) + "): " + show(o.body))
  {
    match o
    case KeyNotFound => Some(NoKeyNotice)
    case ConnectionError(detail) => Some(ConnectionPrefix + detail)
    case UnexpectedShape(e) => Some(ConnectionPrefix + explain(e))
    case NetworkError(status, raw) => Some(NetworkPrefix + Decimal(status) + " - " + raw)
    case HardBlock(reason) => Some(BlockPrefix + show(reason))
    case ApiError(status, body) => Some(ApiPrefix + Decimal(status) + "): " + show(body))
    case Generated(value) => if value.JStr? then Some(value.s) else None
    case SafetyHidden => Some(SafetyNotice)
    case NoText => Some(NoTextNotice)
  }

  /** The network and API error notices carry the HTTP status in decimal
      right after their fixed prefix, and it reads back as the status. */
  lemma NoticeCarriesStatus(o: Outcome, show: Json -> string, explain: PyError -> string)
    requires forall t :: show(JStr(t)) == t
    requires o.NetworkError? || o.ApiError?
    ensures var text := Message(o, show, explain).value;
      var start := if o.NetworkError? then |NetworkPrefix| else |ApiPrefix|;
      var digits := Decimal(o.status);
      && start + |digits| <= |text|
      && text[start..start + |digits|] == digits
      && ParseDecimal(text[start..start + |digits|]) == o.status
  {
    ParseDecimalOfDecimal(o.status);
    var digits := Decimal(o.status);
    if o.NetworkError? {
      DigitsAfterPrefix(NetworkPrefix, digits, " - " + o.raw);
    } else {
      DigitsAfterPrefix(ApiPrefix, digits, "): " + show(o.body));
    }
  }

  lemma DigitsAfterPrefix(prefix: string, digits: string, rest: string)
    ensures var text := prefix + digits + rest;
      |prefix| + |digits| <= |text| && text[|prefix|..|prefix| + |digits|] == digits
  {
    assert prefix + digits + rest == prefix + (digits + rest);
  }

  /** The block check comes first among the body's checks: a block reason
      that is set and not `BLOCK_REASON_UNSPECIFIED` wins whatever the
      status, even 200, and whatever else the body carries. */
  lemma BlockBeforeStatus(key: string, status: nat, result: Json, reason: Json)
    requires key != ""
    requires BlockReason(result) == Value(reason) && Blocks(reason)
    ensures Classify(Some(key), Answered(status, Parsed(result))) == HardBlock(reason)
  {
  }

  /** A body whose shape makes the block lookup raise ends in the
      "Connection error" branch, whatever the status. */
  lemma ShapeErrorBeforeStatus(key: string, status: nat, result: Json, e: PyError)
    requires key != ""
    requires BlockReason(result) == Raise(e)
    ensures Classify(Some(key), Answered(status, Parsed(result))) == UnexpectedShape(e)
  {
  }

  /** A block reason that is unset, empty or `BLOCK_REASON_UNSPECIFIED`
      does not block: the chain goes on to the status, and any status
      other than 200 is an API error carrying the body. */
  lemma UnspecifiedDoesNotBlock(key: string, status: nat, result: Json, reason: Json)
    requires key != ""
    requires BlockReason(result) == Value(reason) && !Blocks(reason)
    ensures Classify(Some(key), Answered(status, Parsed(result))) == AfterBlockCheck(status, result)
    ensures status != 200 ==> Classify(Some(key), Answered(status, Parsed(result))) == ApiError(status, result)
  {
  }

  /** An unblocked 200 response whose first candidate carries text returns
      that text verbatim, whatever else the body carries. */
  lemma TextReturnedVerbatim(key: string, result: Json, reason: Json, text: Json)
    requires key != ""
    requires BlockReason(result) == Value(reason) && !Blocks(reason)
    requires TextPath(result) == Value(text)
    ensures Classify(Some(key), Answered(200, Parsed(result))) == Generated(text)
  {
  }

  /** An unblocked 200 response without the text path gives the safety
      notice exactly when the first candidate's `finishReason` is
      `"SAFETY"`, and otherwise the no-text notice or a shape error. */
  lemma MissingTextReasons(key: string, result: Json, reason: Json)
    requires key != ""
    requires BlockReason(result) == Value(reason) && !Blocks(reason)
    requires TextPath(result) == Raise(KeyError) || TextPath(result) == Raise(IndexError)
    ensures var o := Classify(Some(key), Answered(200, Parsed(result)));
      && o == NoTextReason(result)
      && result.JObj?
      && (o == SafetyHidden <==>
            "candidates" in result.fields && FinishReason(result.fields["candidates"]) == Value(JStr(SafetyReason)))
      && ("candidates" !in result.fields ==> o == NoText)
  {
  }
}
