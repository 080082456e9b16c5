/**
 * The smart input area: the Enter-key rule, when the send button is
 * disabled, the recording toggle guard, and the conversation-mode buttons
 * that drive the thinking-mode and web-search flags of the store.
 */
module SmartInput {
  import opened Text
  import opened EgoTypes
  import opened EgoStore
  import opened EgoAssistant
  import opened Customization

  /** Enter without Shift sends; Shift+Enter and every other key do not. */
  predicate SendsOnKey(key: string, shiftKey: bool) {
    key == "Enter" && !shiftKey
  }

  /** Only a plain Enter sends: Shift+Enter inserts a line and other keys are ignored. */
  lemma OnlyPlainEnterSends(key: string, shiftKey: bool)
    ensures SendsOnKey("Enter", false) && !SendsOnKey("Enter", true)
    ensures key != "Enter" ==> !SendsOnKey(key, shiftKey)
  {
  }

  /** The send button is disabled while processing or when the input trims to nothing. */
  function SendDisabled(inputText: string, isProcessing: bool): (disabled: bool)
    ensures disabled <==> IsBlank(inputText) || isProcessing
  {
    TrimEmptyIffBlank(inputText);
    Trim(inputText) == "" || isProcessing
  }

  /** An enabled send button means the text part of the send guard passes: only the weekly quota can still refuse. */
  lemma EnabledButtonPassesTextGuard(inputText: string, isProcessing: bool, weeklyUsage: int)
    requires !SendDisabled(inputText, isProcessing)
    ensures CanSend(inputText, weeklyUsage) <==> weeklyUsage < MaxWeeklyQuota
  {
  }

  datatype Mode = Normal | Think | Search

  /**
   * The mode buttons as wired: each toggle callback spreads the settings
   * captured when the area was rendered, so the web-search update, applied
   * second, overwrites the thinking-mode update with the old thinking flag.
   */
  function ModeChangeAsWired(settings: CustomizationSettings, mode: Mode): (result: CustomizationSettings)
    ensures result.thinkingMode == settings.thinkingMode
    ensures result.webSearch <==> mode == Search
    ensures result.tone == settings.tone && result.verbosity == settings.verbosity
    ensures result.temperature == settings.temperature
  {
    // The thinking-mode callback's update, built from the captured settings and then overwritten.
    var afterThinking := UpdateSetting(settings, ThinkingModeSetting(mode == Think));
    var afterSearch := UpdateSetting(settings, WebSearchSetting(mode == Search));
    afterSearch
  }

  /** From the default settings, choosing "think" leaves thinking mode off. */
  lemma ThinkIsLostAsWired()
    ensures !ModeChangeAsWired(DefaultCustomization, Think).thinkingMode
  {
  }

  /** With thinking mode switched on in the panel, choosing "search" leaves both flags on. */
  lemma BothFlagsOnAsWired()
    ensures var settings := DefaultCustomization.(thinkingMode := true);
      ModeChangeAsWired(settings, Search).thinkingMode && ModeChangeAsWired(settings, Search).webSearch
  {
  }

  /**
   * `handleModeChange` as intended: thinking mode on exactly for "think",
   * web search on exactly for "search", every other setting kept.
   */
  function ModeChange(settings: CustomizationSettings, mode: Mode): (result: CustomizationSettings)
    ensures result.thinkingMode <==> mode == Think
    ensures result.webSearch <==> mode == Search
    ensures !(result.thinkingMode && result.webSearch)
    ensures mode == Normal ==> !result.thinkingMode && !result.webSearch
    ensures result.tone == settings.tone && result.verbosity == settings.verbosity
    ensures result.temperature == settings.temperature
  {
    UpdateSetting(UpdateSetting(settings, ThinkingModeSetting(mode == Think)), WebSearchSetting(mode == Search))
  }

  /** The wiring gives the intended settings exactly when the thinking flag already had its new value. */
  lemma AsWiredAgreesOnlyWhenThinkingUnchanged(settings: CustomizationSettings, mode: Mode)
    ensures ModeChangeAsWired(settings, mode) == ModeChange(settings, mode) <==> settings.thinkingMode == (mode == Think)
  {
  }

  class InputArea {
    var activeMode: Mode
    var isRecording: bool
    var hasRecorder: bool

    constructor ()
      ensures activeMode == Normal && !isRecording && !hasRecorder
    {
      activeMode := Normal;
      isRecording := false;
      hasRecorder := false;
    }

    /** The mode change as wired: both updates spread the settings read before either is applied. */
    method HandleModeChangeAsWired(store: Store, mode: Mode)
      modifies this, store
      ensures activeMode == mode
      ensures store.customization == ModeChangeAsWired(old(store.customization), mode)
      ensures isRecording == old(isRecording) && hasRecorder == old(hasRecorder)
      ensures store.messages == old(store.messages) && store.selectedModel == old(store.selectedModel)
      ensures store.inputMode == old(store.inputMode) && store.isThinking == old(store.isThinking)
    {
      var captured := store.customization;
      activeMode := mode;
      store.UpdateCustomization(UpdateSetting(captured, ThinkingModeSetting(mode == Think)));
      store.UpdateCustomization(UpdateSetting(captured, WebSearchSetting(mode == Search)));
    }

    /** The mode change as intended: the second update builds on the first. */
    method HandleModeChange(store: Store, mode: Mode)
      modifies this, store
      ensures activeMode == mode
      ensures store.customization == ModeChange(old(store.customization), mode)
      ensures !(store.customization.thinkingMode && store.customization.webSearch)
      ensures isRecording == old(isRecording) && hasRecorder == old(hasRecorder)
      ensures store.messages == old(store.messages) && store.selectedModel == old(store.selectedModel)
      ensures store.inputMode == old(store.inputMode) && store.isThinking == old(store.isThinking)
    {
      activeMode := mode;
      store.UpdateCustomization(UpdateSetting(store.customization, ThinkingModeSetting(mode == Think)));
      store.UpdateCustomization(UpdateSetting(store.customization, WebSearchSetting(mode == Search)));
    }

    /** `startRecording`: with microphone access a recorder is kept and recording starts; without it nothing changes. */
    method StartRecording(microphoneAvailable: bool)
      modifies this
      ensures microphoneAvailable ==> hasRecorder && isRecording
      ensures !microphoneAvailable ==> hasRecorder == old(hasRecorder) && isRecording == old(isRecording)
      ensures activeMode == old(activeMode)
    {
      if microphoneAvailable {
        hasRecorder := true;
        isRecording := true;
      }
    }

    /** `stopRecording`: only a recorder that is recording is stopped. */
    method StopRecording()
      modifies this
      ensures !(old(hasRecorder) && old(isRecording)) ==> isRecording == old(isRecording)
      ensures !isRecording || !hasRecorder
      ensures hasRecorder == old(hasRecorder) && activeMode == old(activeMode)
    {
      if hasRecorder && isRecording {
        isRecording := false;
      }
    }
  }
}
