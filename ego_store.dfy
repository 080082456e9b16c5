/**
 * The session store (a zustand store in the application): the message list,
 * the selected model, the input mode, the customization settings and the
 * "thinking" flag. Every operation overwrites exactly one field.
 */
module EgoStore {
  import opened Wrappers
  import opened EgoTypes

  /** The settings a new session starts with. */
  const DefaultCustomization: CustomizationSettings :=
    CustomizationSettings(Professional, 50, false, false, 0.7)

  class Store {
    var messages: seq<Message>
    var selectedModel: Option<AIModel>
    var inputMode: InputMode
    var customization: CustomizationSettings
    var isThinking: bool

    /** The initial state: no messages, no model, text input, default settings, not thinking. */
    constructor ()
      ensures messages == [] && selectedModel == None && inputMode == TextInput
      ensures customization == DefaultCustomization && !isThinking
      ensures customization.tone == Professional && customization.verbosity == 50
      ensures !customization.thinkingMode && !customization.webSearch
    {
      messages := [];
      selectedModel := None;
      inputMode := TextInput;
      customization := DefaultCustomization;
      isThinking := false;
    }

    /** Appends `m` (any id, the empty one included); earlier messages keep their places. */
    method AddMessage(m: Message)
      modifies this
      ensures messages == old(messages) + [m]
      ensures |messages| == |old(messages)| + 1 && messages[|messages| - 1] == m
      ensures forall k :: 0 <= k < |old(messages)| ==> messages[k] == old(messages)[k]
      ensures selectedModel == old(selectedModel) && inputMode == old(inputMode)
      ensures customization == old(customization) && isThinking == old(isThinking)
    {
      messages := messages + [m];
    }

    method SetSelectedModel(model: AIModel)
      modifies this
      ensures selectedModel == Some(model)
      ensures messages == old(messages) && inputMode == old(inputMode)
      ensures customization == old(customization) && isThinking == old(isThinking)
    {
      selectedModel := Some(model);
    }

    method SetInputMode(mode: InputMode)
      modifies this
      ensures inputMode == mode
      ensures messages == old(messages) && selectedModel == old(selectedModel)
      ensures customization == old(customization) && isThinking == old(isThinking)
    {
      inputMode := mode;
    }

    /** Replaces the settings wholesale; no range is checked. */
    method UpdateCustomization(settings: CustomizationSettings)
      modifies this
      ensures customization == settings
      ensures messages == old(messages) && selectedModel == old(selectedModel)
      ensures inputMode == old(inputMode) && isThinking == old(isThinking)
    {
      customization := settings;
    }

    method SetIsThinking(thinking: bool)
      modifies this
      ensures isThinking == thinking
      ensures messages == old(messages) && selectedModel == old(selectedModel)
      ensures inputMode == old(inputMode) && customization == old(customization)
    {
      isThinking := thinking;
    }

    /**
     * Empties the message list and nothing else. The result does not depend on
     * the messages before, so a second call changes nothing.
     */
    method ClearHistory()
      modifies this
      ensures messages == []
      ensures selectedModel == old(selectedModel) && inputMode == old(inputMode)
      ensures customization == old(customization) && isThinking == old(isThinking)
    {
      messages := [];
    }
  }

  /** Clearing twice leaves the same store as clearing once, and the next message lands at position 0. */
  method ClearThenAdd(store: Store, m: Message)
    modifies store
    ensures store.messages == [m]
    ensures store.selectedModel == old(store.selectedModel) && store.inputMode == old(store.inputMode)
    ensures store.customization == old(store.customization) && store.isThinking == old(store.isThinking)
  {
    store.ClearHistory();
    store.ClearHistory();
    store.AddMessage(m);
  }
}
