/** The AI plan page: the request text, the suggestion or error shown for it, and the
    loading and input-error cells. */
module AiPlanPage {
  import opened Wrappers
  import opened Text
  import opened Records
  import opened Api
  import opened Moderation

  const AskSomething := "何かご要望を入力してください"
  const CommunicationError := "サーバーとの通信でエラーが発生しました"

  /** The JSON the page reads from a reply, whatever its status: a suggestion, the
      `{detail}` body of an HTTP error, or a body carrying an `error` key. */
  datatype AiData = SuggestionData(suggestion: Suggestion) | DetailData(detail: string) | ErrorData(error: string)

  /** `data.error` is truthy. */
  predicate HasError(data: AiData) {
    data.ErrorData? && data.error != ""
  }

  /** The body of a server reply as the page parses it. */
  function DataOf(reply: Reply<Suggestion>): (data: AiData)
    ensures !HasError(data)
    ensures reply.Ok? <==> data.SuggestionData?
  {
    match reply
    case Ok(s) => SuggestionData(s)
    case HttpError(_, detail) => DetailData(detail)
  }

  class Page {
    var userInput: string
    var suggestion: Option<AiData>
    var isLoading: bool
    var error: string
    var inputError: bool

    constructor ()
      ensures userInput == "" && suggestion == None && !isLoading && error == "" && !inputError
    {
      userInput := "";
      suggestion := None;
      isLoading := false;
      error := "";
      inputError := false;
    }

    /** Editing the request text clears the input error. */
    method HandleChange(value: string)
      modifies this`userInput, this`inputError
      ensures userInput == value && !inputError
    {
      userInput := value;
      inputError := false;
    }

    /** The submit button is disabled while loading or while the text is blank. */
    predicate SubmitDisabled()
      reads this
    {
      isLoading || IsBlank(JavaScript, userInput)
    }

    /** `handleSubmit` up to its request: blank text sets the prompt and the input
        error and sends nothing; otherwise loading starts, the error and the previous
        suggestion are cleared and the text is sent as typed. */
    method BeginSubmit() returns (request: Option<AiPlanRequest>)
      modifies this`error, this`inputError, this`isLoading, this`suggestion
      ensures if IsBlank(JavaScript, userInput) then
                request == None && error == AskSomething && inputError &&
                isLoading == old(isLoading) && suggestion == old(suggestion)
              else
                request == Some(AiPlanRequest(userInput)) && isLoading && error == "" &&
                suggestion == None && inputError == old(inputError)
    {
      if IsBlank(JavaScript, userInput) {
        error := AskSomething;
        inputError := true;
        return None;
      }
      isLoading := true;
      error := "";
      suggestion := None;
      request := Some(AiPlanRequest(userInput));
    }

    /** `handleSubmit` after its request (`None` when the request or the JSON parse
        threw): a body with an error shows it; any other body becomes the suggestion,
        without looking at the status; a thrown error shows the communication message.
        Loading ends on every path. */
    method CompleteSubmit(data: Option<AiData>)
      modifies this`suggestion, this`error, this`isLoading
      ensures !isLoading
      ensures data.Some? && HasError(data.value) ==> error == data.value.error && suggestion == old(suggestion)
      ensures data.Some? && !HasError(data.value) ==> suggestion == data && error == old(error)
      ensures data.None? ==> error == CommunicationError && suggestion == old(suggestion)
    {
      if data.None? {
        error := CommunicationError;
      } else if data.value.ErrorData? && data.value.error != "" {
        error := data.value.error;
      } else {
        suggestion := data;
      }
      isLoading := false;
    }

    /** `handleClear`: the text, the suggestion, the error and the input error return
        to their initial values. */
    method HandleClear()
      modifies this`userInput, this`suggestion, this`error, this`inputError
      ensures userInput == "" && suggestion == None && error == "" && !inputError
    {
      userInput := "";
      suggestion := None;
      error := "";
      inputError := false;
    }
  }

  /** A request answered by the server. Because the page ignores the status, a request
      the server refuses for an NG word leaves no error and shows the refusal's body
      in place of a suggestion. */
  method SubmitToServer(page: Page, ngWords: set<string>, suggest: string -> Option<Suggestion>)
    requires !page.SubmitDisabled()
    modifies page`error, page`inputError, page`isLoading, page`suggestion
    ensures !page.isLoading
    ensures HasNgWord(ngWords, Strip(Python, page.userInput)) ==>
              page.suggestion == Some(DetailData(NgWordDetail)) && page.error == ""
    ensures !HasNgWord(ngWords, Strip(Python, page.userInput)) && suggest(page.userInput).Some? ==>
              page.suggestion == Some(SuggestionData(suggest(page.userInput).value)) && page.error == ""
  {
    var request := page.BeginSubmit();
    var reply := GenerateAiDatePlan(ngWords, request.value, suggest);
    page.CompleteSubmit(Some(DataOf(reply)));
  }
}
