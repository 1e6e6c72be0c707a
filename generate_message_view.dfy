/**
 * The cold-message form component (components/GenerateMessage.jsx): its
 * `form`, `loading` and `error` state, the field update, and `handleSubmit`
 * split at its `await` into `Submit` (the checks and the request it sends)
 * and `Resolve` (what happens once the request settles).
 */
module GenerateMessageView {
  import opened Wrappers
  import opened GenerateForm
  import opened Js
  import Routes
  import Items

  class GenerateMessage {
    var form: Form
    var loading: bool
    var error: string

    /** Lines 5-17: a blank form, not loading, no error. */
    constructor()
      ensures form == Blank && !loading && error == ""
    {
      form := Blank;
      loading := false;
      error := "";
    }

    /** Lines 19-21: only the named field changes. */
    method HandleChange(k: Field, v: string)
      modifies this
      ensures form == With(old(form), k, v)
      ensures loading == old(loading) && error == old(error)
    {
      form := With(form, k, v);
    }

    /**
     * Lines 23-40 up to the request: a form failing `Validate` shows that
     * error and sends nothing; a valid one clears the error, starts loading
     * and is sent as the `/generate` body. The form itself is kept.
     */
    method Submit() returns (request: Option<Form>)
      modifies this
      ensures form == old(form)
      ensures Validate(old(form)).Some? ==>
        request.None? && error == Validate(old(form)).value && loading == old(loading)
      ensures Validate(old(form)).None? ==>
        request == Some(old(form)) && error == "" && loading
    {
      var problem := Validate(form);
      if problem.Some? {
        error := problem.value;
        return None;
      }
      error := "";
      loading := true;
      request := Some(form);
    }

    /**
     * Lines 41-59: a response is handed to `onMessageGenerated` and the form
     * is reset; a failed request sets the error and keeps the form. Loading
     * ends either way.
     */
    method Resolve(response: Option<Routes.HistoryItem>) returns (delivered: Callback<Items.Item>)
      modifies this
      ensures !loading
      ensures response.Some? ==>
        delivered == Called(Items.FromResponse(response.value)) && form == Blank && error == old(error)
      ensures response.None? ==>
        delivered == NotCalled && form == old(form) && error == CouldNotGenerate
    {
      if response.Some? {
        delivered := Called(Items.FromResponse(response.value));
        form := Blank;
      } else {
        delivered := NotCalled;
        error := CouldNotGenerate;
      }
      loading := false;
    }
  }
}
