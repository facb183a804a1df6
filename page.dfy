/** How the page wires the form to the session handler (frontend/src/App.tsx,
    line 226): the form's `onSubmit` is `handleAnalyze` and its `isLoading`
    is the session's `loading`. */
module Page {
  import opened Wrappers
  import UrlInput
  import Session

  /** One submission of the form on the page. While an audit is loading,
      or when the browser's own check rejects the input, nothing happens;
      otherwise the form runs `handleSubmit`, and an accepted url starts a
      new session through `handleAnalyze`. */
  method SubmitForm(form: UrlInput.UrlForm, session: Session.AuditSession,
                    browserAccepts: string -> bool, parses: string -> bool, constructorThrows: bool)
      returns (started: Option<string>)
    requires session.Valid()
    modifies form`error, session
    ensures session.Valid()
    ensures form.error ==
      if old(session.loading) || (form.url != "" && !browserAccepts(form.url)) then old(form.error)
      else UrlInput.ErrorText(UrlInput.Gate(form.url, parses))
    ensures started.Some? <==>
      !old(session.loading) && form.url != "" && browserAccepts(form.url) && parses(form.url)
    ensures started.Some? ==>
      started.value == form.url && session.report == None && session.nextConn >= old(session.nextConn)
    ensures started.Some? && !constructorThrows ==>
      session.loading && session.error == None && session.current.Some? &&
      session.current.value !in old(session.urlOf) &&
      session.urlOf == old(session.urlOf)[session.current.value := form.url] &&
      session.effects == old(session.effects)
        + (if old(session.current).Some? then [Session.Closed(old(session.current).value)] else [])
        + [Session.Created(session.current.value, Session.Endpoint)]
    ensures started.Some? && constructorThrows ==>
      !session.loading && session.error == Some(Session.InitiateFailureMessage) &&
      session.current == old(session.current) && session.urlOf == old(session.urlOf) &&
      session.effects == old(session.effects)
        + (if old(session.current).Some? then [Session.Closed(old(session.current).value)] else [])
    ensures started == None ==>
      session.loading == old(session.loading) && session.report == old(session.report) &&
      session.error == old(session.error) && session.current == old(session.current) &&
      session.urlOf == old(session.urlOf) && session.effects == old(session.effects)
  {
    started := form.Submit(session.loading, browserAccepts, parses);
    if started.Some? {
      var _ := session.Analyze(started.value, constructorThrows);
    }
  }
}
