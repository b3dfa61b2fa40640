/** The message input box: the text typed so far, and the guard that decides
    whether a submission is sent. A call of `onSendMessage` is modelled by
    the returned `Option`: `Some(text)` is exactly one call with `text`,
    `None` is no call. */
module MessageInputBox {
  import opened Wrappers
  import opened JsString

  /** What a submission sends: the trimmed text, when it is not empty and no
      reply is awaited. What is sent is never empty, has no whitespace at
      either end, and is a slice of the typed text with only whitespace
      around it. */
  function Submission(inputValue: string, isLoading: bool): (r: Option<string>)
    ensures r.Some? <==> !isLoading && !IsBlank(inputValue)
    ensures r.Some? ==> r.value != [] && !IsWhitespace(r.value[0]) && !IsWhitespace(r.value[|r.value| - 1])
    ensures r.Some? ==> exists i, j :: 0 <= i <= j <= |inputValue| && r.value == inputValue[i..j]
                                      && IsBlank(inputValue[..i]) && IsBlank(inputValue[j..])
  {
    var trimmed := Trim(inputValue);
    if trimmed != "" && !isLoading then TrimIsPaddedSlice(inputValue); Some(trimmed) else None
  }

  /** Enter submits; Shift+Enter (a new line) and every other key do not. */
  predicate SubmitsOnKey(key: string, shiftKey: bool) {
    key == "Enter" && !shiftKey
  }

  class MessageInput {
    var inputValue: string

    constructor ()
      ensures inputValue == ""
    {
      inputValue := "";
    }

    /** `handleInputChange`: the box takes the new text wholesale. */
    method HandleInputChange(value: string)
      modifies this
      ensures inputValue == value
    {
      inputValue := value;
    }

    /** `handleSubmit`: sends the trimmed text when the guard allows it and
        then empties the box; otherwise sends nothing and keeps the text. */
    method HandleSubmit(isLoading: bool) returns (sent: Option<string>)
      modifies this
      ensures sent == Submission(old(inputValue), isLoading)
      ensures inputValue == if sent.Some? then "" else old(inputValue)
    {
      sent := Submission(inputValue, isLoading);
      if sent.Some? {
        inputValue := "";
      }
    }

    /** `handleKeyDown`: Enter without Shift submits, any other key leaves
        the box as it is. */
    method HandleKeyDown(key: string, shiftKey: bool, isLoading: bool) returns (sent: Option<string>)
      modifies this
      ensures SubmitsOnKey(key, shiftKey) ==> sent == Submission(old(inputValue), isLoading)
      ensures !SubmitsOnKey(key, shiftKey) ==> sent == None
      ensures inputValue == if sent.Some? then "" else old(inputValue)
    {
      if SubmitsOnKey(key, shiftKey) {
        sent := HandleSubmit(isLoading);
      } else {
        sent := None;
      }
    }
  }
}
