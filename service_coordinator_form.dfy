/**
 * The form that adds a service together with its coordinator: all three
 * fields must hold some non-whitespace text, and they are posted as typed.
 */
module ServiceCoordinatorForm {
  import opened Common

  /** The three inputs, and the body of the POST request. */
  datatype Entry = Entry(serviceName: string, coordinatorName: string, coordinatorNumber: string)

  /** The guard `serviceName.trim() && coordinatorName.trim() && coordinatorNumber.trim()`. */
  function Complete(e: Entry): (ok: bool)
    ensures ok <==> !AllWhitespace(e.serviceName) && !AllWhitespace(e.coordinatorName)
                    && !AllWhitespace(e.coordinatorNumber)
  {
    BlankIffAllWhitespace(e.serviceName);
    BlankIffAllWhitespace(e.coordinatorName);
    BlankIffAllWhitespace(e.coordinatorNumber);
    !IsBlank(e.serviceName) && !IsBlank(e.coordinatorName) && !IsBlank(e.coordinatorNumber)
  }

  /** The form's state. */
  class CoordinatorForm {
    var serviceName: string
    var coordinatorName: string
    var coordinatorNumber: string
    var loading: bool

    constructor ()
      ensures serviceName == "" && coordinatorName == "" && coordinatorNumber == "" && !loading
    {
      serviceName, coordinatorName, coordinatorNumber, loading := "", "", "", false;
    }

    function Current(): Entry
      reads this
    {
      Entry(serviceName, coordinatorName, coordinatorNumber)
    }

    /**
     * `handleSubmit` up to its `await`: an incomplete form posts nothing and
     * changes nothing; otherwise `loading` is set and `sent` is the body
     * posted, the three fields exactly as typed.
     */
    method BeginSubmit() returns (sent: Option<Entry>)
      modifies this`loading
      ensures !Complete(Current()) ==> sent == None && loading == old(loading)
      ensures Complete(Current()) ==> sent == Some(Current()) && loading
    {
      if !Complete(Current()) {
        return None;
      }
      loading := true;
      sent := Some(Current());
    }

    /** `handleSubmit` after its `await`: `posted` says whether the POST succeeded. */
    method FinishSubmit(posted: bool)
      modifies this
      ensures !loading
      ensures Current() == if posted then Entry("", "", "") else old(Current())
    {
      if posted {
        serviceName, coordinatorName, coordinatorNumber := "", "", "";
      }
      loading := false;
    }

    /**
     * The whole handler: the fields are posted untrimmed, cleared only on
     * success, and `loading` ends false; an incomplete form changes nothing.
     */
    method Submit(posted: bool) returns (sent: Option<Entry>)
      modifies this
      ensures !Complete(old(Current())) ==> sent == None && unchanged(this)
      ensures Complete(old(Current())) ==> sent == Some(old(Current())) && !loading
      ensures Complete(old(Current())) && posted ==> Current() == Entry("", "", "")
      ensures Complete(old(Current())) && !posted ==> Current() == old(Current())
    {
      sent := BeginSubmit();
      if sent.Some? {
        FinishSubmit(posted);
      }
    }
  }

  /** After a successful submission the cleared form refuses to post again. */
  method ResubmitAfterSuccessIsRefused(form: CoordinatorForm, posted: bool) returns (first: Option<Entry>, second: Option<Entry>)
    requires Complete(form.Current())
    modifies form
    ensures first == Some(old(form.Current()))
    ensures second == None
  {
    first := form.Submit(true);
    assert !Complete(form.Current());
    second := form.Submit(posted);
  }
}
