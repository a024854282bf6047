/** The verifier's dashboard: one comment box per pending application, and a
    Verify or Reject decision that sends the comment typed for that application. */
module VerifyApplications {
  import opened Js

  /** What the dashboard reads of an application. */
  datatype Reviewable = Reviewable(id: string, verificationStatus: Option<string>)

  datatype Decision = Verify | Reject

  /** The status sent for a decision. */
  function StatusFor(d: Decision): (s: string)
    ensures s == "verified" <==> d == Verify
    ensures s == "rejected" <==> d == Reject
  {
    match d
    case Verify => "verified"
    case Reject => "rejected"
  }

  /** The comment box and both buttons are shown only for pending applications. */
  predicate ShowsControls(app: Reviewable)
  {
    app.verificationStatus == Some("pending")
  }

  /** `comments[id] || ""`: the typed comment, "" when none was typed. */
  function CommentFor(comments: map<string, string>, id: string): (c: string)
    ensures id in comments ==> c == comments[id]
    ensures id !in comments ==> c == ""
  {
    if id in comments then comments[id] else ""
  }

  /** Resetting one application's comment leaves what every other box shows unchanged. */
  lemma ResetIsLocal(comments: map<string, string>, id: string, other: string)
    ensures CommentFor(comments[id := ""], id) == ""
    ensures other != id ==> CommentFor(comments[id := ""], other) == CommentFor(comments, other)
  {
  }

  /** The comment box of a card: absent unless the application is pending, and
      otherwise showing the comment typed for it. */
  function CommentBox(comments: map<string, string>, app: Reviewable): (box: Option<string>)
    ensures box.Some? <==> ShowsControls(app)
    ensures box.Some? ==> box.value == CommentFor(comments, app.id)
  {
    if ShowsControls(app) then Some(CommentFor(comments, app.id)) else None
  }

  /** Typing into one card's box changes what that card shows and no other card. */
  lemma EditShowsOnlyThere(comments: map<string, string>, id: string, text: string, app: Reviewable)
    ensures app.id == id && ShowsControls(app) ==> CommentBox(comments[id := text], app) == Some(text)
    ensures app.id != id ==> CommentBox(comments[id := text], app) == CommentBox(comments, app)
    ensures !ShowsControls(app) ==> CommentBox(comments[id := text], app).None?
  {
  }

  /** The body of one review request. */
  datatype Review = Review(id: string, status: string, comments: string)

  class VerifierPage {
    var applications: seq<Reviewable>
    var loading: bool
    var error: string
    var comments: map<string, string>

    constructor ()
      ensures applications == [] && loading && error == "" && comments == map[]
    {
      applications := [];
      loading := true;
      error := "";
      comments := map[];
    }

    /** `fetchApplications`: loading ends either way; a failure sets the error text. */
    method FetchApplications(response: Outcome<seq<Reviewable>>)
      modifies this
      ensures !loading && comments == old(comments)
      ensures response.Ok? ==> applications == response.data && error == old(error)
      ensures response.Err? ==> applications == old(applications) && error == "Failed to fetch applications"
    {
      if response.Ok? {
        applications := response.data;
        loading := false;
      } else {
        error := "Failed to fetch applications";
        loading := false;
      }
    }

    /** Typing in one application's comment box edits only that entry. */
    method EditComment(id: string, text: string)
      modifies this
      ensures comments == old(comments)[id := text]
      ensures applications == old(applications) && loading == old(loading) && error == old(error)
    {
      comments := comments[id := text];
    }

    /** `handleVerify`: sends the decision with the comment typed for `id`; on
        success only that comment is cleared (the list is then fetched again by a
        separate `FetchApplications`), on failure nothing changes. Returns the
        request body and the alert text. */
    method HandleVerify(id: string, decision: Decision, response: Outcome<Record>)
      returns (sent: Review, alert: string)
      modifies this
      ensures sent == Review(id, StatusFor(decision), CommentFor(old(comments), id))
      ensures comments == if response.Ok? then old(comments)[id := ""] else old(comments)
      ensures alert == if response.Ok? then "Application " + StatusFor(decision) else "Operation failed"
      ensures applications == old(applications) && loading == old(loading) && error == old(error)
    {
      var comment := if id in comments && comments[id] != "" then comments[id] else "";
      sent := Review(id, StatusFor(decision), comment);
      if response.Ok? {
        alert := "Application " + StatusFor(decision);
        comments := comments[id := ""];
      } else {
        alert := "Operation failed";
      }
    }
  }
}
