/** The URL form (frontend/src/components/UrlInput.tsx): its `handleSubmit`
    gate and the disabling of the input and the submit button while the
    page is loading. Whether `new URL(url)` accepts a string is not modelled;
    it is the parameter `parses`, about which nothing is assumed. */
module UrlInput {
  import opened Wrappers

  const EmptyMessage: string := "Please enter a URL"
  const InvalidMessage: string := "Please enter a valid URL (e.g., https://example.com)"

  /** The three ways `handleSubmit` can end. */
  datatype Outcome = EmptyInput | InvalidUrl | Accepted(url: string)

  /** Which branch `handleSubmit` takes on the current input. */
  function Gate(url: string, parses: string -> bool): (o: Outcome)
    ensures o.EmptyInput? <==> url == ""
    ensures o.InvalidUrl? <==> url != "" && !parses(url)
    ensures o.Accepted? <==> url != "" && parses(url)
    ensures o.Accepted? ==> o.url == url
  {
    if url == "" then EmptyInput
    else if parses(url) then Accepted(url)
    else InvalidUrl
  }

  /** The error text the form shows after a branch. */
  function ErrorText(o: Outcome): (text: string)
    ensures text == "" <==> o.Accepted?
  {
    match o
    case EmptyInput => EmptyMessage
    case InvalidUrl => InvalidMessage
    case Accepted(_) => ""
  }

  /** Where the browser's check of a `type="url"` input rejects everything
      `new URL` rejects, a submission that reaches `handleSubmit` never takes
      the invalid-URL branch. */
  lemma BrowserCheckPreemptsInvalidBranch(url: string, browserAccepts: string -> bool, parses: string -> bool)
    requires forall u :: browserAccepts(u) ==> parses(u)
    requires url == "" || browserAccepts(url)
    ensures Gate(url, parses) != InvalidUrl
    ensures ErrorText(Gate(url, parses)) != InvalidMessage
  {
  }

  class UrlForm {
    /** The `url` state cell: the text in the input. */
    var url: string
    /** The `error` state cell: the message under the input, "" for none. */
    var error: string

    constructor ()
      ensures url == "" && error == ""
    {
      url, error := "", "";
    }

    /** The input's `onChange`. The input is disabled while `isLoading`,
        so it cannot be edited then. */
    method Change(text: string, isLoading: bool)
      modifies this`url
      ensures url == if isLoading then old(url) else text
    {
      if !isLoading {
        url := text;
      }
    }

    /** `handleSubmit`. Returns the argument `onSubmit` was called with, or
        None when it was not called. */
    method HandleSubmit(parses: string -> bool) returns (call: Option<string>)
      modifies this`error
      ensures url == "" ==> error == EmptyMessage && call == None
      ensures url != "" && !parses(url) ==> error == InvalidMessage && call == None
      ensures url != "" && parses(url) ==> error == "" && call == Some(url)
      ensures call.Some? <==> url != "" && parses(url)
    {
      var o := Gate(url, parses);
      error := ErrorText(o);
      call := if o.Accepted? then Some(o.url) else None;
    }

    /** Submitting the form. With the input and the submit button disabled
        (`isLoading`), no submission reaches `handleSubmit`. The input has
        `type="url"` and the form does not set `noValidate`, so the browser's
        own check, `browserAccepts`, also stops a non-empty value it rejects
        before `handleSubmit` runs; the error shown stays as it was. An empty
        value passes that check, since the input is not `required`. */
    method Submit(isLoading: bool, browserAccepts: string -> bool, parses: string -> bool)
      returns (call: Option<string>)
      modifies this`error
      ensures isLoading || (url != "" && !browserAccepts(url)) ==> call == None && error == old(error)
      ensures !isLoading && (url == "" || browserAccepts(url)) ==> error == ErrorText(Gate(url, parses))
      ensures call.Some? <==> !isLoading && url != "" && browserAccepts(url) && parses(url)
      ensures call.Some? ==> call.value == url
    {
      if isLoading || (url != "" && !browserAccepts(url)) {
        call := None;
      } else {
        call := HandleSubmit(parses);
      }
    }
  }
}
