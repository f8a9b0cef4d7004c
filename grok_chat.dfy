/**
 * The chat client's bookkeeping: the conversation history it keeps, the
 * message list it sends with each prompt, the model list it falls back to
 * and the choice of the default model.
 *
 * Environment variables and the replies of the HTTP endpoints are inputs;
 * the HTTP exchange itself is not modelled.
 */
module GrokChat {
  import opened Wrappers
  import opened PyNum
  import opened Sequences

  datatype Role = System | User | Assistant

  datatype Message = Message(role: Role, content: string)

  const SystemMessage: Message :=
    Message(System, "You are an expert Financial Advisor to help me maximize my shares using covered calls strategy")

  /** The model used when nothing else is known. */
  const FallbackModel: string := "grok-4-0709"

  /** The models assumed without an API key, in order of preference. */
  const DefaultModels: seq<string> := ["grok-4-0709", "grok-3", "grok-2-latest", "grok-2"]

  /** The order in which `console_chat` looks for a default model. */
  const PreferredModels: seq<string> := ["grok-4-0709", "grok-3", "grok-2-latest", "grok-2"]

  /** The list returned when the model endpoint lists no model ids. */
  const EmptyListingModels: seq<string> := ["grok-3", "grok-2-latest", "grok-2"]

  /** How many history entries go out with a prompt. */
  const ContextSize: nat := 9

  /** `s[-n:]`: the last `n` elements, or all of them when there are fewer. */
  function Suffix<T>(s: seq<T>, n: nat): (r: seq<T>)
    ensures |r| == if |s| <= n then |s| else n
    ensures r == s[|s| - |r|..]
  {
    if |s| <= n then s else s[|s| - n..]
  }

  /** The message list of `_call_xai_api` as written: system message, the last history entries, the input. */
  function MessagesAsWritten(history: seq<Message>, userInput: string): (messages: seq<Message>)
    ensures |messages| == |Suffix(history, ContextSize)| + 2 <= ContextSize + 2
    ensures messages[0] == SystemMessage && messages[|messages| - 1] == Message(User, userInput)
    ensures messages[1..|messages| - 1] == Suffix(history, ContextSize)
  {
    [SystemMessage] + Suffix(history, ContextSize) + [Message(User, userInput)]
  }

  /**
   * `prompt` has already put the input into the history when the list is
   * built, so the input is sent twice in a row, and a long conversation
   * sends eleven messages, not the ten of system message plus nine.
   */
  lemma InputSentTwice(history: seq<Message>, userInput: string)
    ensures var messages := MessagesAsWritten(history + [Message(User, userInput)], userInput);
      && messages[|messages| - 2] == messages[|messages| - 1] == Message(User, userInput)
      && (|history| + 1 >= ContextSize ==> |messages| == ContextSize + 2)
  {
  }

  /** The message list as intended: the system message, then the last history entries, which end with the input. */
  function Messages(history: seq<Message>): (messages: seq<Message>)
    ensures |messages| == |Suffix(history, ContextSize)| + 1 <= ContextSize + 1
    ensures messages[0] == SystemMessage && messages[1..] == Suffix(history, ContextSize)
  {
    [SystemMessage] + Suffix(history, ContextSize)
  }

  /** With the input last in the history, the intended list ends with it once and otherwise carries the context before it. */
  lemma MessagesEndWithInput(history: seq<Message>, userInput: string)
    ensures var messages := Messages(history + [Message(User, userInput)]);
      && messages[|messages| - 1] == Message(User, userInput)
      && messages[1..|messages| - 1] == Suffix(history, ContextSize - 1)
  {
    var h := history + [Message(User, userInput)];
    if |history| > ContextSize - 1 {
      assert h[|h| - ContextSize..|h| - 1] == history[|history| - (ContextSize - 1)..];
    } else {
      assert h[..|h| - 1] == history;
    }
  }

  /** What the chat completion endpoint answers, or how the call fails. */
  datatype ApiReply =
    | Completed(content: string)        // status 200 with at least one choice
    | NoChoices                         // status 200 without choices
    | HttpError(status: int, text: string)
    | NetworkError(reason: string)      // the request raised a network error
    | Raised(reason: string)            // anything else raised while calling

  /** The response text `prompt` returns for a reply of the endpoint. */
  function ReplyText(reply: ApiReply): (text: string)
    ensures reply.Completed? ==> text == reply.content
    ensures reply.NoChoices? ==> text == "No response from Grok API"
    ensures reply.HttpError? ==> "API Error " <= text && |reply.text| <= |text| && text[|text| - |reply.text|..] == reply.text
    ensures reply.NetworkError? ==> text == "Network error: " + reply.reason
    ensures reply.Raised? ==> text == "Error calling xAI API: " + reply.reason
  {
    match reply
    case Completed(content) => content
    case NoChoices => "No response from Grok API"
    case HttpError(status, body) => "API Error " + IntToString(status) + ": " + body
    case NetworkError(reason) => "Network error: " + reason
    case Raised(reason) => "Error calling xAI API: " + reason
  }

  /** The canned response without an API key; it quotes the input. */
  function MockReply(userInput: string): (text: string)
    ensures "Grok (Mock)" <= text
    ensures var start := |"Grok (Mock): I understand you said '"|;
      start + |userInput| <= |text| && text[start..start + |userInput|] == userInput
  {
    var prefix := "Grok (Mock): I understand you said '";
    var text := prefix + userInput + "'. Please set your XAI_API_KEY to get real responses.";
    assert text[|prefix|..|prefix| + |userInput|] == userInput;
    text
  }

  /** A request sent to the chat completion endpoint. */
  datatype Request = Request(model: string, messages: seq<Message>)

  /** What the model listing endpoint answers. */
  datatype ModelsReply =
    | Listing(data: Option<seq<Option<string>>>)   // status 200; the `data` entries and their ids
    | ListingError(status: int)
    | ListingRaised

  /** The ids present in the listing, in order, each as often as it is listed. */
  function Ids(entries: seq<Option<string>>): (ids: seq<string>)
    ensures forall m :: m in ids <==> Some(m) in entries
    ensures forall m :: multiset(ids)[m] == multiset(entries)[Some(m)]
    ensures |ids| <= |entries|
  {
    if entries == [] then []
    else
      var rest := Ids(entries[1..]);
      assert entries == [entries[0]] + entries[1..];
      assert forall x :: x in entries <==> x == entries[0] || x in entries[1..];
      if entries[0].Some? then [entries[0].value] + rest else rest
  }

  /** The ids of a listing are the ids of its parts, in the same order. */
  lemma {:induction false} IdsConcat(a: seq<Option<string>>, b: seq<Option<string>>)
    ensures Ids(a + b) == Ids(a) + Ids(b)
  {
    if a == [] {
      assert a + b == b;
    } else {
      assert (a + b)[1..] == a[1..] + b;
      IdsConcat(a[1..], b);
    }
  }

  /** A listed id contributes itself, an entry without an id nothing. */
  lemma IdsOfOne(e: Option<string>)
    ensures Ids([e]) == if e.Some? then [e.value] else []
  {
    assert [e][1..] == [];
  }

  class Chat {
    var apiKey: Option<string>
    var defaultModel: string
    var history: seq<Message>

    /** An empty key counts as no key. */
    predicate HasKey()
      reads this
    {
      Truthy(apiKey)
    }

    /**
     * `GrokChat(api_key, default_model)`. `envApiKey` and `envModel` are the
     * values of `XAI_API_KEY` and `XAI_MODEL`; the key given wins when it is
     * non-empty, the environment's model always wins.
     */
    constructor(apiKey: Option<string>, envApiKey: Option<string>, envModel: Option<string>,
                defaultModel: string := FallbackModel)
      ensures this.apiKey == if Truthy(apiKey) then apiKey else envApiKey
      ensures this.defaultModel == envModel.GetOr(defaultModel)
      ensures history == []
    {
      this.apiKey := if Truthy(apiKey) then apiKey else envApiKey;
      this.defaultModel := envModel.GetOr(defaultModel);
      history := [];
    }

    /**
     * `prompt`. `reply` is what the endpoint would answer; it is used only
     * when a key is set, and then `sent` is the request made. Failures become
     * the response text, and the exchange is always recorded.
     */
    method Prompt(userInput: string, model: Option<string>, reply: ApiReply)
      returns (response: string, sent: Option<Request>)
      modifies this
      ensures history == old(history) + [Message(User, userInput), Message(Assistant, response)]
      ensures apiKey == old(apiKey) && defaultModel == old(defaultModel)
      ensures sent.Some? <==> HasKey()
      ensures !HasKey() ==> response == MockReply(userInput)
      ensures HasKey() ==> response == ReplyText(reply)
      ensures sent.Some? ==>
                && sent.value.model == (if Truthy(model) then model.value else defaultModel)
                && sent.value.messages == Messages(old(history) + [Message(User, userInput)])
                && sent.value.messages + [Message(User, userInput)]
                     == MessagesAsWritten(old(history) + [Message(User, userInput)], userInput)
    {
      history := history + [Message(User, userInput)];
      if HasKey() {
        var chosen := if Truthy(model) then model.value else defaultModel;
        sent := Some(Request(chosen, Messages(history)));
        response := ReplyText(reply);
      } else {
        sent := None;
        response := MockReply(userInput);
      }
      history := history + [Message(Assistant, response)];
    }

    /** `get_history`: the exchanges in the order they happened. */
    function GetHistory(): (h: seq<Message>)
      reads this
      ensures h == history
    {
      history
    }

    /** `clear_history`. */
    method ClearHistory()
      modifies this
      ensures history == []
      ensures apiKey == old(apiKey) && defaultModel == old(defaultModel)
    {
      history := [];
    }

    /** `get_available_models`; `reply` is the listing endpoint's answer, consulted only with a key. */
    function GetAvailableModels(reply: ModelsReply): (models: seq<string>)
      reads this
      ensures |models| > 0
      ensures !HasKey() ==> models == DefaultModels
      ensures HasKey() && reply.Listing? && reply.data.Some? ==>
                models == if Ids(reply.data.value) == [] then EmptyListingModels else Ids(reply.data.value)
      ensures HasKey() && !(reply.Listing? && reply.data.Some?) ==> models == DefaultModels
    {
      if !HasKey() then DefaultModels
      else match reply
        case Listing(Some(entries)) =>
          var ids := Ids(entries);
          if ids == [] then EmptyListingModels else ids
        case _ => DefaultModels
    }
  }

  /** Two prompts add four entries: each input followed by its response. */
  lemma TwoPromptsRecorded(h0: seq<Message>, input1: string, response1: string, input2: string, response2: string)
    ensures var h1 := h0 + [Message(User, input1), Message(Assistant, response1)];
      var h2 := h1 + [Message(User, input2), Message(Assistant, response2)];
      && |h2| == |h0| + 4
      && h2[|h2| - 1].role == Assistant && h2[|h2| - 2] == Message(User, input2)
      && Messages(h1 + [Message(User, input2)])[|Messages(h1 + [Message(User, input2)])| - 2] ==
         Message(Assistant, response1)
  {
  }

  /**
   * The default-model choice of `console_chat`: the requested model when it
   * is available, otherwise the first available model of `PreferredModels`,
   * otherwise the first available model, otherwise `FallbackModel`.
   */
  method ChooseDefaultModel(envModel: Option<string>, available: seq<string>) returns (model: string)
    ensures var requested := envModel.GetOr(FallbackModel);
      requested in available ==> model == requested
    ensures var requested := envModel.GetOr(FallbackModel);
      requested !in available && (exists i :: 0 <= i < |PreferredModels| && PreferredModels[i] in available) ==>
        exists i :: 0 <= i < |PreferredModels| && PreferredModels[i] in available && model == PreferredModels[i]
                    && forall j :: 0 <= j < i ==> PreferredModels[j] !in available
    ensures var requested := envModel.GetOr(FallbackModel);
      requested !in available && (forall i :: 0 <= i < |PreferredModels| ==> PreferredModels[i] !in available) ==>
        model == if available != [] then available[0] else FallbackModel
    ensures available != [] ==> model in available
  {
    model := envModel.GetOr(FallbackModel);
    if model !in available {
      var preferences := PreferredModels;
      var found := false;
      var i := 0;
      while i < |preferences|
        invariant 0 <= i <= |preferences|
        invariant forall j :: 0 <= j < i ==> preferences[j] !in available
        invariant !found
      {
        if preferences[i] in available {
          model := preferences[i];
          found := true;
          break;
        }
        i := i + 1;
      }
      if !found {
        model := if available != [] then available[0] else FallbackModel;
      }
    }
  }
}
