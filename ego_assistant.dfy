/**
 * The turn controller of the main assistant page: the send guard, the weekly
 * usage counter, the user message, the optional thinking phase and the
 * assistant reply, the voice-input append and the limit screen.
 *
 * `handleSend` is one asynchronous function whose delays split it into three
 * steps: `BeginSend` (guard, counter, user message, thinking flag on),
 * `FinishThinking` (thinking flag off, only when thinking mode was on) and
 * `CompleteSend` (reply and idle again). The values the function's closure
 * captured when it was called travel from the first step to the last in a
 * `Turn`.
 */
module EgoAssistant {
  import opened Wrappers
  import opened Text
  import opened EgoTypes
  import opened EgoStore
  import opened Quota

  const MaxWeeklyQuota: int := 7

  /** Days from `weekday` (0 is Sunday, as `Date.getDay`) to the reset: `7 - getDay()`. */
  function ResetOffset(weekday: int): (days: int)
    requires 0 <= weekday < 7
    ensures 1 <= days <= 7
    ensures (weekday + days) % 7 == 0
    ensures weekday == 0 ==> days == 7
  {
    7 - weekday
  }

  /**
   * The reset instant: `setDate(getDate() + offset)` moves the date and keeps
   * the time of day.
   */
  function ResetTime(nowMs: int, weekday: int): int
    requires 0 <= weekday < 7
  {
    nowMs + ResetOffset(weekday) * MillisPerDay
  }

  /** Rendered at the instant the reset date was computed, the quota card counts exactly the offset in days. */
  lemma DaysUntilResetIsOffset(nowMs: int, weekday: int)
    requires 0 <= weekday < 7
    ensures DaysUntilReset(ResetTime(nowMs, weekday), nowMs) == ResetOffset(weekday)
  {
  }

  function UserMessageId(timestamp: int): string {
    "msg-" + IntToString(timestamp)
  }

  function ResponseId(timestamp: int): string {
    "msg-" + IntToString(timestamp) + "-response"
  }

  /**
   * A user message id never equals a reply id, and each kind of id determines
   * its timestamp, so turns started at different instants get different ids.
   */
  lemma MessageIdsDistinct(a: int, b: int)
    ensures UserMessageId(a) != ResponseId(b)
    ensures UserMessageId(a) == UserMessageId(b) ==> a == b
    ensures ResponseId(a) == ResponseId(b) ==> a == b
  {
    var sa, sb := IntToString(a), IntToString(b);
    var u, r := UserMessageId(a), ResponseId(b);
    assert u[|u| - 1] == sa[|sa| - 1];
    assert r[|r| - 1] == 'e';
    if UserMessageId(a) == UserMessageId(b) {
      assert sa == UserMessageId(a)[4..] == UserMessageId(b)[4..] == sb;
      IntToStringInjective(a, b);
    }
    if ResponseId(a) == ResponseId(b) {
      assert |sa| == |ResponseId(a)| - 13 == |sb|;
      assert sa == ResponseId(a)[4..4 + |sa|] == ResponseId(b)[4..4 + |sb|] == sb;
      IntToStringInjective(a, b);
    }
  }

  /** What `handleSend`'s closure captured: the send time, the input, the settings and the model. */
  datatype Turn = Turn(timestamp: int, input: string, settings: CustomizationSettings, model: Option<AIModel>)

  const WebSearchMarker: string := "[Web search results included]"
  const DeepAnalysisMarker: string := "[Deep analysis performed]"

  /** `selectedModel?.name || 'default model'`: a missing model and an empty name both fall back. */
  function ModelLabel(model: Option<AIModel>): (shown: string)
    ensures shown != ""
    ensures model.Some? && model.value.name != "" ==> shown == model.value.name
    ensures (model.None? || model.value.name == "") ==> shown == "default model"
  {
    if model.Some? && model.value.name != "" then model.value.name else "default model"
  }

  /** The part of the reply before the markers: the model label and the echoed input. */
  function ResponseHead(turn: Turn): string {
    "Response from " + ModelLabel(turn.model) + ": " + turn.input + ". "
  }

  /** The markers after the echoed input: the web-search marker if web search was on, a space, the deep-analysis marker if thinking mode was on. */
  function MarkerTail(settings: CustomizationSettings): string {
    (if settings.webSearch then WebSearchMarker else "") + " " + (if settings.thinkingMode then DeepAnalysisMarker else "")
  }

  /** The simulated reply text. */
  function ResponseText(turn: Turn): string {
    ResponseHead(turn) + MarkerTail(turn.settings)
  }

  /** The marker tail opens with the web-search marker iff web search was on, and ends in a space iff thinking mode was off. */
  lemma MarkerTailShape(settings: CustomizationSettings)
    ensures StartsWith(MarkerTail(settings), WebSearchMarker) <==> settings.webSearch
    ensures |MarkerTail(settings)| >= 1
    ensures MarkerTail(settings)[|MarkerTail(settings)| - 1] == ' ' <==> !settings.thinkingMode
    ensures settings.thinkingMode ==> EndsWith(MarkerTail(settings), DeepAnalysisMarker)
  {
    var tail := MarkerTail(settings);
    var web := if settings.webSearch then WebSearchMarker else "";
    var deep := if settings.thinkingMode then DeepAnalysisMarker else "";
    assert tail == web + " " + deep;
    if settings.webSearch {
      assert tail[..|WebSearchMarker|] == WebSearchMarker;
    } else {
      assert tail[0] == ' ';
    }
    if settings.thinkingMode {
      assert tail[|tail| - |DeepAnalysisMarker|..] == DeepAnalysisMarker;
    } else {
      assert tail[|tail| - 1] == ' ';
    }
  }

  /**
   * After the echoed input the reply carries the web-search marker exactly when
   * web search was on, and it ends with the deep-analysis marker exactly when
   * thinking mode was on.
   */
  lemma ResponseMarkers(turn: Turn)
    ensures StartsWith(ResponseText(turn), ResponseHead(turn))
    ensures StartsWith(ResponseText(turn)[|ResponseHead(turn)|..], WebSearchMarker) <==> turn.settings.webSearch
    ensures EndsWith(ResponseText(turn), DeepAnalysisMarker) <==> turn.settings.thinkingMode
  {
    var head, tail := ResponseHead(turn), MarkerTail(turn.settings);
    MarkerTailShape(turn.settings);
    ConcatParts(head, tail, DeepAnalysisMarker);
    EndsWithLastChar(head + tail, DeepAnalysisMarker);
    assert DeepAnalysisMarker[|DeepAnalysisMarker| - 1] == ']';
  }

  function UserMessage(turn: Turn): Message {
    Message(UserMessageId(turn.timestamp), User, turn.input, None, turn.timestamp)
  }

  /** The assistant reply, stamped with the instant it is appended. */
  function ResponseMessage(turn: Turn, now: int): Message {
    Message(ResponseId(turn.timestamp), Assistant, ResponseText(turn), None, now)
  }

  /** `handleSend`'s guard lets a send through: the input is not blank and the quota is not used up. */
  predicate CanSend(inputText: string, weeklyUsage: int) {
    Trim(inputText) != "" && weeklyUsage < MaxWeeklyQuota
  }

  /** The guard in terms of the characters: blank input or a used-up week blocks the send. */
  lemma CanSendIff(inputText: string, weeklyUsage: int)
    ensures CanSend(inputText, weeklyUsage) <==> !IsBlank(inputText) && weeklyUsage < MaxWeeklyQuota
  {
    TrimEmptyIffBlank(inputText);
  }

  class Assistant {
    const store: Store
    var inputText: string
    var isProcessing: bool
    var responseStartTime: Option<int>
    var weeklyUsage: int

    /** The weekly usage stays within 0..MaxWeeklyQuota. */
    ghost predicate Valid()
      reads this
    {
      0 <= weeklyUsage <= MaxWeeklyQuota
    }

    constructor (store: Store)
      ensures this.store == store && Valid()
      ensures inputText == "" && !isProcessing && responseStartTime == None && weeklyUsage == 0
    {
      this.store := store;
      inputText := "";
      isProcessing := false;
      responseStartTime := None;
      weeklyUsage := 0;
    }

    /** The whole page shows the limit screen instead of the chat. */
    predicate ShowsLimitScreen()
      reads this
    {
      IsLimitReached(weeklyUsage, MaxWeeklyQuota)
    }

    /** The text area's `onTextChange` (`setInputText`). */
    method SetInputText(text: string)
      modifies this
      ensures inputText == text
      ensures isProcessing == old(isProcessing) && responseStartTime == old(responseStartTime)
      ensures weeklyUsage == old(weeklyUsage)
    {
      inputText := text;
    }

    /** Lines 55-77 of `handleSend`, up to the start of the thinking delay. */
    method BeginSend(timestamp: int) returns (turn: Option<Turn>)
      requires Valid()
      modifies this, store
      ensures Valid()
      ensures turn.None? <==> !CanSend(old(inputText), old(weeklyUsage))
      ensures turn.None? ==>
        && inputText == old(inputText) && isProcessing == old(isProcessing)
        && responseStartTime == old(responseStartTime) && weeklyUsage == old(weeklyUsage)
        && store.messages == old(store.messages) && store.isThinking == old(store.isThinking)
      ensures turn.Some? ==>
        && turn.value == Turn(timestamp, old(inputText), old(store.customization), old(store.selectedModel))
        && weeklyUsage == old(weeklyUsage) + 1
        && store.messages == old(store.messages) + [UserMessage(turn.value)]
        && inputText == "" && isProcessing && responseStartTime == Some(timestamp)
        && store.isThinking == (old(store.customization).thinkingMode || old(store.isThinking))
      ensures store.selectedModel == old(store.selectedModel) && store.inputMode == old(store.inputMode)
      ensures store.customization == old(store.customization)
    {
      if Trim(inputText) == "" || weeklyUsage >= MaxWeeklyQuota {
        return None;
      }
      var t := Turn(timestamp, inputText, store.customization, store.selectedModel);
      responseStartTime := Some(timestamp);
      isProcessing := true;
      weeklyUsage := weeklyUsage + 1;
      store.AddMessage(UserMessage(t));
      inputText := "";
      if t.settings.thinkingMode {
        store.SetIsThinking(true);
      }
      turn := Some(t);
    }

    /** Line 79: the thinking delay is over. */
    method FinishThinking()
      modifies store
      ensures !store.isThinking
      ensures store.messages == old(store.messages) && store.selectedModel == old(store.selectedModel)
      ensures store.inputMode == old(store.inputMode) && store.customization == old(store.customization)
    {
      store.SetIsThinking(false);
    }

    /** Lines 83-101: the reply arrives at `now`. */
    method CompleteSend(turn: Turn, now: int)
      modifies this, store
      ensures store.messages == old(store.messages) + [ResponseMessage(turn, now)]
      ensures !isProcessing && responseStartTime == None
      ensures inputText == old(inputText) && weeklyUsage == old(weeklyUsage)
      ensures store.selectedModel == old(store.selectedModel) && store.inputMode == old(store.inputMode)
      ensures store.customization == old(store.customization) && store.isThinking == old(store.isThinking)
    {
      store.AddMessage(ResponseMessage(turn, now));
      isProcessing := false;
      responseStartTime := None;
    }

    /**
     * A whole turn with nothing else happening during its delays: either
     * nothing changes, or the usage grows by one and exactly two messages are
     * appended, the user's and then the reply.
     */
    method HandleSend(sendTime: int, replyTime: int) returns (sent: bool)
      requires Valid()
      modifies this, store
      ensures Valid()
      ensures sent == CanSend(old(inputText), old(weeklyUsage))
      ensures !sent ==>
        && inputText == old(inputText) && isProcessing == old(isProcessing)
        && responseStartTime == old(responseStartTime) && weeklyUsage == old(weeklyUsage)
        && store.messages == old(store.messages) && store.isThinking == old(store.isThinking)
      ensures sent ==>
        var turn := Turn(sendTime, old(inputText), old(store.customization), old(store.selectedModel));
        && weeklyUsage == old(weeklyUsage) + 1
        && store.messages == old(store.messages) + [UserMessage(turn), ResponseMessage(turn, replyTime)]
        && inputText == "" && !isProcessing && responseStartTime == None
        && store.isThinking == (if turn.settings.thinkingMode then false else old(store.isThinking))
      ensures store.selectedModel == old(store.selectedModel) && store.inputMode == old(store.inputMode)
      ensures store.customization == old(store.customization)
    {
      var turn := BeginSend(sendTime);
      if turn.None? {
        return false;
      }
      if turn.value.settings.thinkingMode {
        FinishThinking();
      }
      CompleteSend(turn.value, replyTime);
      sent := true;
    }

    /** A voice transcription is appended to the input after a space. */
    method HandleVoiceInput(text: string)
      modifies this
      ensures inputText == old(inputText) + " " + text
      ensures isProcessing == old(isProcessing) && responseStartTime == old(responseStartTime)
      ensures weeklyUsage == old(weeklyUsage)
    {
      inputText := inputText + " " + text;
    }
  }

  /**
   * With six of seven messages used, "hello" goes through, takes the last
   * message of the week and adds two messages; "world" is then refused.
   */
  method LastMessageOfWeek() returns (first: bool, second: bool, added: int, usage: int, limitScreen: bool)
    ensures first && !second && added == 2 && usage == MaxWeeklyQuota && limitScreen
  {
    var store := new Store();
    var page := new Assistant(store);
    page.weeklyUsage := 6;
    page.SetInputText("hello");
    assert CanSend("hello", 6) by {
      TrimEmptyIffBlank("hello");
      assert !IsWhitespace("hello"[0]);
    }
    first := page.HandleSend(1000, 2000);
    page.SetInputText("world");
    second := page.HandleSend(3000, 4000);
    added := |store.messages|;
    usage := page.weeklyUsage;
    limitScreen := page.ShowsLimitScreen();
  }
}
