/** The student's "My Applications" page: a badge per application, and for a
    signed application an on-demand integrity check whose verdicts are kept per
    application id. The page only relays the server's verdict; it computes no
    signature itself. */
module ApplicationStatus {
  import opened Js
  import AdminDashboard

  /** What the page reads of one of the student's applications. */
  datatype StudentApplication = StudentApplication(id: string, status: Option<string>)

  /** A verdict as received from the signature endpoint, or built from an error. */
  datatype Verdict = Verdict(
    status: Option<string>, message: Option<string>, signatureId: Option<string>, signedAt: Option<string>)

  const FailurePrefix: string := "Verification failed: "

  /** The verdict `verifyIntegrity` records for one settled request: the response
      itself, or an "error" verdict that embeds why the request failed. */
  function VerdictOf(response: Outcome<Verdict>): (v: Verdict)
    ensures response.Ok? ==> v == response.data
    ensures response.Err? ==> v.status == Some("error") && v.signatureId.None? && v.signedAt.None?
    ensures response.Err? ==> v.message.Some? && |FailurePrefix| <= |v.message.value|
                              && v.message.value[..|FailurePrefix|] == FailurePrefix
    ensures response.Err? && Truthy(ServerMessage(response.failure)) ==>
              v.message == Some(FailurePrefix + ServerMessage(response.failure).value)
    ensures response.Err? && !Truthy(ServerMessage(response.failure)) ==>
              v.message == Some(FailurePrefix + response.failure.errMessage)
  {
    match response
    case Ok(data) => data
    case Err(f) => Verdict(Some("error"), Some(FailurePrefix + OrElse(ServerMessage(f), f.errMessage)), None, None)
  }

  /** A card's verdict box: the "Integrity Status" label, the verdict's message
      paragraph (nothing when the verdict has none) and, for a valid verdict, the
      signature id and signing time. */
  datatype IntegrityBoxView = IntegrityBoxView(
    integrity: string, message: Option<string>, details: Option<(Option<string>, Option<string>)>)

  /** The box a recorded verdict renders. */
  function BoxFor(v: Verdict): IntegrityBoxView
  {
    IntegrityBoxView(IntegrityLabel(v), v.message, SignatureDetails(v))
  }

  /** The "Integrity Status" text. */
  function IntegrityLabel(v: Verdict): string
  {
    if v.status == Some("valid") then "Verified" else "Tampered"
  }

  /** The label reads "Verified" exactly for a "valid" verdict and "Tampered" for
      anything else, so a failed request is displayed as "Tampered". */
  lemma IntegrityLabelRule(v: Verdict, f: Failure)
    ensures IntegrityLabel(v) == "Verified" <==> v.status == Some("valid")
    ensures IntegrityLabel(v) == "Tampered" <==> v.status != Some("valid")
    ensures IntegrityLabel(VerdictOf(Err(f))) == "Tampered"
  {
  }

  /** Signature id and signing time, shown only under a "valid" verdict. */
  function SignatureDetails(v: Verdict): (d: Option<(Option<string>, Option<string>)>)
    ensures d.Some? <==> v.status == Some("valid")
    ensures d.Some? ==> d.value == (v.signatureId, v.signedAt)
  {
    if v.status == Some("valid") then Some((v.signatureId, v.signedAt)) else None
  }
  /** A check whose request failed shows "Tampered", no signature details, and
      the failure text as the box's message paragraph. */
  lemma FailedCheckBox(f: Failure)
    ensures BoxFor(VerdictOf(Err(f))).integrity == "Tampered"
    ensures BoxFor(VerdictOf(Err(f))).details.None?
    ensures BoxFor(VerdictOf(Err(f))).message == Some(FailurePrefix + OrElse(ServerMessage(f), f.errMessage))
  {
  }


  /** The badge text: the status upper-cased, or "SUBMITTED" when there is none. */
  function BadgeText(status: Option<string>): string
  {
    if Truthy(status) then ToUpper(status.value) else "SUBMITTED"
  }

  lemma BadgeTextRule(status: Option<string>)
    ensures !Truthy(status) ==> BadgeText(status) == "SUBMITTED"
    ensures Truthy(status) ==> (|BadgeText(status)| == |status.value|
                                && BadgeText(status) == ToUpper(status.value))
    ensures ToUpper(BadgeText(status)) == BadgeText(status)
  {
    if Truthy(status) {
      ToUpperIdempotent(status.value);
    } else {
      ToUpperKeepsUpper("SUBMITTED");
    }
  }

  /** The badge colours: the same table as the administrator's cards, with a
      missing status taking the default pair. */
  function BadgeColours(status: Option<string>): AdminDashboard.Badge
  {
    if status == Some("Approved") then AdminDashboard.Badge("#d4edda", "#155724")
    else if status == Some("Rejected") then AdminDashboard.Badge("#f8d7da", "#721c24")
    else if status == Some("Verified") then AdminDashboard.Badge("#cce5ff", "#004085")
    else AdminDashboard.Badge("#f8f9fa", "#333")
  }

  lemma BadgeColoursAgreeWithDashboard(status: Option<string>)
    ensures status.Some? ==> BadgeColours(status) == AdminDashboard.BadgeFor(status.value)
    ensures status.None? ==> BadgeColours(status) == AdminDashboard.DefaultBadge
  {
  }

  /** The signed-record section as written: it tests the lower-case "approved". */
  predicate IntegritySectionAsWritten(app: StudentApplication)
  {
    app.status == Some("approved")
  }

  /** As written, an application whose badge shows it approved (status "Approved",
      the value the administrator's dashboard tests as well) never gets the
      integrity section, so the check cannot be started for it. */
  lemma IntegritySectionAsWrittenMissesApproved(id: string)
    ensures var app := StudentApplication(id, Some("Approved"));
      && BadgeColours(app.status) == AdminDashboard.BadgeFor(AdminDashboard.Approved)
      && BadgeText(app.status) == "APPROVED"
      && !IntegritySectionAsWritten(app)
  {
    assert ToUpper("Approved") == "APPROVED";
  }

  /** The signed-record section as evidently intended: for approved applications. */
  predicate IntegritySection(app: StudentApplication)
  {
    app.status == Some(AdminDashboard.Approved)
  }

  /** The section is offered exactly for the applications whose badge shows the approved colours. */
  lemma IntegritySectionMatchesApprovedBadge(app: StudentApplication)
    ensures IntegritySection(app) <==> BadgeColours(app.status) == AdminDashboard.BadgeFor(AdminDashboard.Approved)
  {
  }

  /** The page state. */
  class StatusPage {
    var applications: seq<StudentApplication>
    var loading: bool
    var error: string
    var results: map<string, Verdict>

    constructor ()
      ensures applications == [] && loading && error == "" && results == map[]
    {
      applications := [];
      loading := true;
      error := "";
      results := map[];
    }

    /** The mount effect: loading ends whatever happens. */
    method FetchApplications(response: Outcome<seq<StudentApplication>>)
      modifies this
      ensures !loading && results == old(results)
      ensures response.Ok? ==> applications == response.data && error == old(error)
      ensures response.Err? ==> applications == old(applications) && error == "Failed to fetch applications"
    {
      if response.Ok? {
        applications := response.data;
      } else {
        error := "Failed to fetch applications";
      }
      loading := false;
    }

    /** `verifyIntegrity(appId)`: every call asks again and overwrites the verdict
        for `appId`; the verdicts of all other applications stay as they were. */
    method VerifyIntegrity(appId: string, response: Outcome<Verdict>)
      modifies this
      ensures results == old(results)[appId := VerdictOf(response)]
      ensures forall id :: id != appId ==>
                (id in results <==> id in old(results)) && (id in results ==> results[id] == old(results)[id])
      ensures applications == old(applications) && loading == old(loading) && error == old(error)
    {
      results := results[appId := VerdictOf(response)];
    }

    /** The integrity box of a card as the page renders it: inside the signed-record
        section, which tests the lower-case "approved", and only once a check was
        made for that id. */
    function IntegrityBox(app: StudentApplication): (box: Option<IntegrityBoxView>)
      reads this
      ensures box.Some? <==> IntegritySectionAsWritten(app) && app.id in results
      ensures box.Some? ==> box.value.integrity == IntegrityLabel(results[app.id])
      ensures box.Some? ==> box.value.message == results[app.id].message
      ensures box.Some? ==> box.value.details == SignatureDetails(results[app.id])
    {
      if IntegritySectionAsWritten(app) && app.id in results
      then Some(BoxFor(results[app.id]))
      else None
    }

    /** The same box inside the section as evidently intended, for "Approved". */
    function CorrectedIntegrityBox(app: StudentApplication): (box: Option<IntegrityBoxView>)
      reads this
      ensures box.Some? <==> IntegritySection(app) && app.id in results
      ensures box.Some? ==> box.value.integrity == IntegrityLabel(results[app.id])
      ensures box.Some? ==> box.value.message == results[app.id].message
      ensures box.Some? ==> box.value.details == SignatureDetails(results[app.id])
    {
      if IntegritySection(app) && app.id in results
      then Some(BoxFor(results[app.id]))
      else None
    }
  }
}
