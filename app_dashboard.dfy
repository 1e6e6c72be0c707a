/**
 * The single-page dashboard (src/Dashboard.jsx): the form, `loading`,
 * `error`, the newest generated message and the history list, with
 * `handleGenerate` split at its `await` into `BeginGenerate` and
 * `FinishGenerate`.
 */
module AppDashboard {
  import opened Wrappers
  import opened GenerateForm
  import Routes

  class Dashboard {
    var form: Form
    var loading: bool
    var error: string
    var generated: Option<Routes.HistoryItem>
    var history: seq<Routes.HistoryItem>

    /** Lines 8-23 */
    constructor()
      ensures form == Blank && !loading && error == "" && generated.None? && history == []
    {
      form := Blank;
      loading := false;
      error := "";
      generated := None;
      history := [];
    }

    /** Lines 26-33, after the request: a response replaces the list, a failure leaves it. */
    method LoadHistoryResolved(response: Option<seq<Routes.HistoryItem>>)
      modifies this
      ensures response.Some? ==> history == response.value
      ensures response.None? ==> history == old(history)
      ensures form == old(form) && loading == old(loading) && error == old(error) && generated == old(generated)
    {
      if response.Some? {
        history := response.value;
      }
    }

    /** Lines 41-43: only the named field changes. */
    method HandleChange(k: Field, v: string)
      modifies this
      ensures form == With(old(form), k, v)
      ensures loading == old(loading) && error == old(error) && generated == old(generated) && history == old(history)
    {
      form := With(form, k, v);
    }

    /**
     * Lines 46-53 up to the request: the error is cleared and loading
     * starts; the form is sent as it stands. The browser's `required`
     * check runs before the handler and is not part of this method.
     */
    method BeginGenerate() returns (body: Form)
      modifies this
      ensures body == old(form) && form == old(form)
      ensures error == "" && loading
      ensures generated == old(generated) && history == old(history)
    {
      error := "";
      loading := true;
      body := form;
    }

    /**
     * Lines 53-61: a response becomes the generated message and the top of
     * the history; a failure sets the error and leaves both. Loading ends
     * either way and the form is never touched.
     */
    method FinishGenerate(response: Option<Routes.HistoryItem>)
      modifies this
      ensures !loading && form == old(form)
      ensures response.Some? ==>
        generated == response && history == [response.value] + old(history) && error == old(error)
      ensures response.None? ==>
        error == CouldNotGenerate && generated == old(generated) && history == old(history)
    {
      if response.Some? {
        generated := response;
        history := [response.value] + history;
      } else {
        error := CouldNotGenerate;
      }
      loading := false;
    }

    /** Lines 64-67: the text written to the clipboard, and nothing before a message exists. */
    method CopyMessage() returns (copied: Option<string>)
      ensures generated.None? ==> copied.None?
      ensures generated.Some? ==> copied == Some(generated.value.generatedMessage)
    {
      if generated.None? {
        return None;
      }
      copied := Some(generated.value.generatedMessage);
    }
  }
}
