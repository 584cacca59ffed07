/**
 * The model-client adapter of controller/models/apis.py: cleaning the raw
 * reply of the vision model, the conversation history it is sent, and the
 * append / strip / retry protocol of one model call.
 *
 * The remote chat call and `json.loads` are oracles: the call is a script of
 * attempt outcomes, one consumed per attempt, and the parser a fixed function
 * from cleaned text to an optional list of items.
 */
module Apis {
  import opened Wrappers
  import opened Text

  // ---------------------------------------------------------------- messages

  datatype Role = System | User | Assistant

  /** One chat message; `images` is the list of attached image paths, or `None`. */
  datatype Message = Message(role: Role, content: string, images: Option<seq<string>>)

  /** Where the screenshot attached to every user message is saved. */
  const ScreenshotPath: string := "screenshots/screenshot.png"

  /** The two user prompts of the prompt module (not part of this model). */
  datatype Prompts = Prompts(first: string, followUp: string)

  /** The prompt of a new user message: the first-message prompt exactly when only the system message is there. */
  function UserPrompt(history: seq<Message>, prompts: Prompts): string {
    if |history| == 1 then prompts.first else prompts.followUp
  }

  /**
   * `get_last_assistant_message`: the assistant message with the highest index,
   * scanning from the end; `None` if there is none or the one found is at index 0.
   */
  method GetLastAssistantMessage(messages: seq<Message>) returns (r: Option<Message>)
    ensures r.Some? ==>
      exists i :: 0 < i < |messages| && messages[i] == r.value && messages[i].role == Assistant &&
        forall j :: i < j < |messages| ==> messages[j].role != Assistant
    ensures r.None? ==> forall j :: 0 < j < |messages| ==> messages[j].role != Assistant
  {
    var index := |messages|;
    while index > 0
      invariant 0 <= index <= |messages|
      invariant forall j :: index <= j < |messages| ==> messages[j].role != Assistant
    {
      index := index - 1;
      if messages[index].role == Assistant {
        if index == 0 {
          return None;
        } else {
          return Some(messages[index]);
        }
      }
    }
    return None;
  }

  /** The conversation history that the agent loop owns and the adapter appends to in place. */
  class History {
    var messages: seq<Message>

    constructor (initial: seq<Message>)
      ensures messages == initial
    {
      messages := initial;
    }

    /**
     * `confirm_system_prompt`: replaces element 0 by a fresh system message.
     * On an empty history Python's `messages[0] = …` raises `IndexError`;
     * here `ok` is false and nothing changes.
     */
    method ConfirmSystemPrompt(systemPrompt: string) returns (ok: bool)
      modifies this
      ensures ok == (|old(messages)| > 0)
      ensures ok ==> messages == old(messages)[0 := Message(System, systemPrompt, None)]
      ensures !ok ==> messages == old(messages)
    {
      ok := |messages| > 0;
      if ok {
        messages := messages[0 := Message(System, systemPrompt, None)];
      }
    }
  }

  // -------------------------------------------------------------- clean_json

  const JsonFence: string := "```json"
  const Fence: string := "```"

  /**
   * The fence removal of `clean_json`: a leading "```json", or failing that a
   * leading "```", then a trailing "```", stripping whitespace after each removal.
   */
  function StripFences(s: string): string {
    var unfenced :=
      if StartsWith(s, JsonFence) then Strip(s[|JsonFence|..])
      else if StartsWith(s, Fence) then Strip(s[|Fence|..])
      else s;
    if EndsWith(unfenced, Fence) then Strip(unfenced[..|unfenced| - |Fence|]) else unfenced
  }

  /** Each line stripped of the whitespace at both ends, in order. */
  function StripEach(lines: seq<string>): (r: seq<string>)
    ensures |r| == |lines|
  {
    if lines == [] then [] else [Strip(lines[0])] + StripEach(lines[1..])
  }

  /** The line normalization of `clean_json`: every line of `SplitLines(s)`, stripped, joined by `'\n'`. */
  function NormalizeLines(s: string): string {
    JoinLines(StripEach(SplitLines(s)))
  }

  /** `clean_json`. */
  function CleanJson(s: string): string {
    NormalizeLines(StripFences(s))
  }

  /**
   * The shape `clean_json` leaves: line boundaries are only `'\n'`, and every
   * `'\n'`-separated line is free of whitespace at both ends.
   */
  predicate Normalized(s: string) {
    (forall i :: 0 <= i < |s| && IsLineBreak(s[i]) ==> s[i] == '\n') &&
    (forall l :: l in SplitNewlines(s) ==> Trimmed(l))
  }

  // ------------------------------------------------------ call_ollama_llava

  /** An operation object as `json.loads` hands it over, with `.get` defaults applied. */
  datatype OpRecord = OpRecord(
    operation: string, thought: string, summary: string,
    keys: seq<string>, content: string, x: Option<int>, y: Option<int>)

  /**
   * One element of the parsed reply. `NotRecord` is an element on which
   * `.get("operation", "").lower()` raises (not an object, or a tag that is no string).
   */
  datatype Item = Record(op: OpRecord) | NotRecord

  /** What one attempt of the remote exchange does. */
  datatype Attempt =
    | SetupFails            // an exception before the user message is appended (client, screenshot)
    | ResponseError         // `ollama.ResponseError` raised by the chat call
    | ChatFails             // any other exception raised by the chat call
    | Replied(raw: string)  // the chat call returned; `raw` is the reply's content

  /** The result of the adapter: the parsed operations, Python's `None`, or an exhausted attempt script. */
  datatype Reply = Operations(items: seq<Item>) | NoReply | OutOfAttempts

  /** The history after the call, the reply, and the attempts not consumed. */
  datatype Exchange = Exchange(history: seq<Message>, reply: Reply, rest: seq<Attempt>)

  /** The user message of an attempt, carrying the screenshot. */
  function VisionMessage(history: seq<Message>, prompts: Prompts): Message {
    Message(User, UserPrompt(history, prompts), Some([ScreenshotPath]))
  }

  /** The cleaned content of a raw reply: stripped, then `clean_json`. */
  function ReplyContent(raw: string): string {
    CleanJson(Strip(raw))
  }

  /**
   * What an attempt needs besides the history: the two user prompts, the
   * cleaning applied to the raw reply, and the parser (`json.loads`).
   */
  datatype Adapter = Adapter(prompts: Prompts, clean: string -> string, parse: string -> Option<seq<Item>>)

  /**
   * `call_ollama_llava` on values: the history and reply it ends with, each
   * retry consuming the next attempt of the script.
   */
  function AskModel(history: seq<Message>, attempts: seq<Attempt>, ad: Adapter): Exchange
    decreases |attempts|
  {
    if attempts == [] then Exchange(history, OutOfAttempts, [])
    else
      var vision := VisionMessage(history, ad.prompts);
      match attempts[0]
      case SetupFails => AskModel(history, attempts[1..], ad)
      case ResponseError => Exchange(history + [vision], NoReply, attempts[1..])
      case ChatFails => AskModel(history + [vision], attempts[1..], ad)
      case Replied(raw) =>
        var stripped := history + [vision.(images := None)];
        var content := ad.clean(raw);
        match ad.parse(content)
        case None => AskModel(stripped, attempts[1..], ad)
        case Some(items) =>
          Exchange(stripped + [Message(Assistant, content, None)], Operations(items), attempts[1..])
  }

  /**
   * `call_ollama_llava`: appends the user message with the screenshot, calls the
   * model, removes the image from that message, cleans and parses the reply and
   * appends the assistant message; `ResponseError` gives `NoReply`, any other
   * exception retries by recursion.
   */
  method CallOllama(h: History, attempts: seq<Attempt>, prompts: Prompts,
                    parse: string -> Option<seq<Item>>) returns (reply: Reply, rest: seq<Attempt>)
    modifies h
    decreases |attempts|
    ensures Exchange(h.messages, reply, rest) == AskModel(old(h.messages), attempts, Adapter(prompts, ReplyContent, parse))
  {
    if attempts == [] {
      return OutOfAttempts, [];
    }
    ghost var before := h.messages;
    ghost var vision := VisionMessage(before, prompts);
    var attempt := attempts[0];
    if attempt.SetupFails? {
      reply, rest := CallOllama(h, attempts[1..], prompts, parse);
      return;
    }
    var userPrompt := UserPrompt(h.messages, prompts);
    h.messages := h.messages + [Message(User, userPrompt, Some([ScreenshotPath]))];
    assert h.messages == before + [vision];
    match attempt {
      case ResponseError =>
        return NoReply, attempts[1..];
      case ChatFails =>
        reply, rest := CallOllama(h, attempts[1..], prompts, parse);
      case Replied(raw) =>
        var last := |h.messages| - 1;
        h.messages := h.messages[last := h.messages[last].(images := None)];
        assert h.messages == before + [vision.(images := None)];
        var content := CleanJson(Strip(raw));
        assert content == ReplyContent(raw);
        var assistant := Message(Assistant, content, None);
        match parse(content) {
          case None =>
            reply, rest := CallOllama(h, attempts[1..], prompts, parse);
          case Some(items) =>
            h.messages := h.messages + [assistant];
            return Operations(items), attempts[1..];
        }
    }
  }
}
