/** The chat panel (app/components/AgentChat.tsx): its own input text and the rules
    for when a message may be sent. The loading flag and the message list are props
    owned by the page. */
module AgentChat {
  import opened Types
  import opened Strings

  /** The `variant` prop; "withTools" is the default. */
  datatype Variant = WithTools | Compact

  /** The fixed texts of the quick-prompt buttons. */
  const QuickPrompts: seq<string> := [
    "Find trending restaurants nearby",
    "Show me bars with live music",
    "What events are happening tonight?",
    "Discover hidden gems"
  ]

  /** The guard of `handleSubmit`: the trimmed input is non-empty and no request is
      loading, that is, nothing is loading and the input has a character that is not
      white space. */
  function Accepts(inputValue: string, isLoading: bool): (b: bool)
    ensures b <==> !isLoading && exists i :: 0 <= i < |inputValue| && !IsWhitespace(inputValue[i])
  {
    Trim(inputValue) != "" && !isLoading
  }

  /** `disabled={!inputValue.trim() || isLoading}` on the submit button: disabled exactly
      when `handleSubmit` would refuse, which without a pending request means the input
      is blank (all white space). */
  function SubmitDisabled(inputValue: string, isLoading: bool): (r: bool)
    ensures r <==> !Accepts(inputValue, isLoading)
    ensures !isLoading ==> (r <==> forall i :: 0 <= i < |inputValue| ==> IsWhitespace(inputValue[i]))
  {
    Trim(inputValue) == "" || isLoading
  }

  /** The quick prompts are rendered only in the empty-chat placeholder of the full
      variant: never once a message exists, never in the compact variant. */
  function QuickPromptsShown(messages: seq<ChatMessage>, variant: Variant): (b: bool)
    ensures b <==> messages == [] && variant == WithTools
  {
    |messages| == 0 && variant != Compact
  }

  /** The component's local state: the text in the input box. */
  class ChatInput {
    var inputValue: string

    constructor()
      ensures inputValue == ""
    {
      inputValue := "";
    }

    /** The input's `onChange`. */
    method Change(value: string)
      modifies this
      ensures inputValue == value
    {
      inputValue := value;
    }

    /** `handleSubmit`. `sent` is the argument given to `onSendMessage`, `None` when the
        callback is not called. An accepted submit sends the trimmed text (never blank,
        never padded) and clears the input; a refused one sends nothing and keeps it. */
    method HandleSubmit(isLoading: bool) returns (sent: Option<string>)
      modifies this
      ensures sent.Some? <==> Accepts(old(inputValue), isLoading)
      ensures sent.Some? ==> sent.value == Trim(old(inputValue)) && inputValue == ""
      ensures sent.Some? ==> sent.value != "" && !IsWhitespace(sent.value[0])
                             && !IsWhitespace(sent.value[|sent.value| - 1])
      ensures sent.None? ==> inputValue == old(inputValue)
    {
      if Trim(inputValue) != "" && !isLoading {
        sent := Some(Trim(inputValue));
        inputValue := "";
      } else {
        sent := None;
      }
    }

    /** A quick-prompt click: sends the button's fixed text as it is, whatever the
        loading flag says (the click handler does not consult it), and leaves the input
        text alone. Every prompt would also pass the submit guard when nothing loads. */
    method ClickQuickPrompt(index: nat, isLoading: bool) returns (sent: string)
      requires index < |QuickPrompts|
      ensures sent == QuickPrompts[index]
      ensures Accepts(sent, false)
    {
      sent := QuickPrompts[index];
      assert !IsWhitespace(sent[0]);
    }
  }
}
