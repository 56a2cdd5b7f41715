/** The page's state cells and their updates: the input text, the last
    response, the loading flag and the error message. The network call is
    not modelled; its outcome is a parameter. */
module Submission {
  import opened ReportData
  import opened Layout
  import opened Pdf

  const ERROR_MESSAGE: string := "There was an error processing your request. Please try again later."

  /** How the request settled: the response body, or any failure. */
  datatype Outcome = Succeeded(data: ProjectResult) | Failed

  class Dashboard {
    var projectDetails: string
    var response: Option<ProjectResult>
    var loading: bool
    var error: Option<string>

    /** The initial state: empty input, no response, not loading, no error. */
    constructor ()
      ensures projectDetails == "" && response == None && !loading && error == None
    {
      projectDetails := "";
      response := None;
      loading := false;
      error := None;
    }

    /** Typing into the input replaces the project details and nothing else. */
    method HandleChange(value: string)
      modifies this
      ensures projectDetails == value
      ensures response == old(response) && loading == old(loading) && error == old(error)
    {
      projectDetails := value;
    }

    /** First half of a submit: loading on, error cleared, the earlier
        response kept. Returns the request body's `project_details`. */
    method BeginSubmit() returns (body: string)
      modifies this
      ensures loading && error == None
      ensures response == old(response) && projectDetails == old(projectDetails)
      ensures body == projectDetails
    {
      loading := true;
      error := None;
      body := projectDetails;
    }

    /** Second half: a success replaces the response; a failure sets the
        fixed message and keeps the earlier response. Loading ends either way. */
    method Settle(outcome: Outcome)
      modifies this
      ensures !loading
      ensures projectDetails == old(projectDetails)
      ensures outcome.Succeeded? ==> response == Some(outcome.data) && error == old(error)
      ensures outcome.Failed? ==> response == old(response) && error == Some(ERROR_MESSAGE)
    {
      match outcome {
        case Succeeded(data) =>
          response := Some(data);
        case Failed =>
          error := Some(ERROR_MESSAGE);
      }
      loading := false;
    }

    /** A whole submit, one at a time. */
    method HandleSubmit(outcome: Outcome) returns (body: string)
      modifies this
      ensures body == old(projectDetails) && projectDetails == old(projectDetails)
      ensures !loading
      ensures outcome.Succeeded? ==> response == Some(outcome.data) && error == None
      ensures outcome.Failed? ==> response == old(response) && error == Some(ERROR_MESSAGE)
    {
      body := BeginSubmit();
      Settle(outcome);
    }

    /** The download control is shown only while there is a response. */
    predicate CanDownload()
      reads this
    {
      response.Some?
    }

    /** The download control: renders the current response. */
    method DownloadReport(wrap: string -> seq<string>) returns (doc: Doc)
      requires CanDownload()
      ensures doc.placed == Render(response.value, wrap).placed
      ensures doc.pageCount == Render(response.value, wrap).pages
    {
      doc := GeneratePdf(response.value, wrap);
    }
  }

  /** A failed resubmit after a success keeps the earlier report available
      and shows the fixed message. */
  method FailedResubmitKeepsReport(details: string, first: ProjectResult) returns (d: Dashboard)
    ensures d.response == Some(first) && d.CanDownload()
    ensures d.error == Some(ERROR_MESSAGE) && !d.loading
  {
    d := new Dashboard();
    d.HandleChange(details);
    var _ := d.HandleSubmit(Succeeded(first));
    var _ := d.HandleSubmit(Failed);
  }
}
