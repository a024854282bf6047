/** The administrator's dashboard: fetched applications split into "Ready for
    Review" and "History", a card per application with its badge, warning and
    action buttons, and the rejection dialog. */
module AdminDashboard {
  import opened Js

  const Approved: string := "Approved"
  const Rejected: string := "Rejected"
  const Verified: string := "Verified"
  const PendingAccount: string := "pending_verification"

  /** What the dashboard reads of an application: its id, its status and its
      student's `accountStatus` (None when there is no student or no such field). */
  datatype Application = Application(id: string, status: string, accountStatus: Option<string>)

  /** The filter of the "Ready for Review" section. */
  predicate IsReady(app: Application)
  {
    app.status != Approved && app.status != Rejected && app.accountStatus != Some(PendingAccount)
  }

  /** The filter of the "History" section, written separately in the dashboard. */
  predicate InHistory(app: Application)
  {
    app.status == Approved || app.status == Rejected || app.accountStatus == Some(PendingAccount)
  }

  /** The history filter is exactly the negation of the ready filter. */
  lemma HistoryIsComplement(app: Application)
    ensures InHistory(app) <==> !IsReady(app)
  {
  }

  /** `applications.filter(ready)`, in list order. */
  function ReadySection(apps: seq<Application>): (r: seq<Application>)
    ensures forall a :: a in r <==> a in apps && IsReady(a)
    ensures |r| <= |apps|
  {
    if apps == [] then []
    else (if IsReady(apps[0]) then [apps[0]] else []) + ReadySection(apps[1..])
  }

  /** `applications.filter(history)`, in list order. */
  function HistorySection(apps: seq<Application>): (r: seq<Application>)
    ensures forall a :: a in r <==> a in apps && InHistory(a)
    ensures |r| <= |apps|
  {
    if apps == [] then []
    else (if InHistory(apps[0]) then [apps[0]] else []) + HistorySection(apps[1..])
  }

  /** Every fetched application appears in exactly one section, as often as it was fetched. */
  lemma {:induction false} SectionsPartition(apps: seq<Application>)
    ensures multiset(ReadySection(apps)) + multiset(HistorySection(apps)) == multiset(apps)
    ensures |ReadySection(apps)| + |HistorySection(apps)| == |apps|
  {
    if apps != [] {
      SectionsPartition(apps[1..]);
      HistoryIsComplement(apps[0]);
      assert apps == [apps[0]] + apps[1..];
    }
  }

  /** The ready section shows its "nothing waiting" text exactly when no application is ready. */
  predicate ReadyPlaceholderShown(apps: seq<Application>)
  {
    |ReadySection(apps)| == 0
  }

  /** The history section tests the whole list, not its own filtered list. */
  predicate HistoryPlaceholderShown(apps: seq<Application>)
  {
    |apps| == 0
  }

  lemma ReadyPlaceholderMeaning(apps: seq<Application>)
    ensures ReadyPlaceholderShown(apps) <==> forall a :: a in apps ==> !IsReady(a)
  {
    if !ReadyPlaceholderShown(apps) {
      var a := ReadySection(apps)[0];
      assert a in ReadySection(apps);
    }
  }

  /** When every application is ready, the history section shows neither cards nor
      its placeholder: it is blank. */
  lemma HistoryBlankWhenAllReady(apps: seq<Application>)
    requires apps != []
    requires forall a :: a in apps ==> IsReady(a)
    ensures !HistoryPlaceholderShown(apps) && HistorySection(apps) == []
  {
    if HistorySection(apps) != [] {
      var a := HistorySection(apps)[0];
      assert a in HistorySection(apps);
      HistoryIsComplement(a);
    }
  }

  /** Background and text colour of a status badge. */
  datatype Badge = Badge(background: string, text: string)

  const DefaultBadge: Badge := Badge("#f8f9fa", "#333")

  /** The status colour table of a card. */
  function BadgeFor(status: string): Badge
  {
    if status == Approved then Badge("#d4edda", "#155724")
    else if status == Rejected then Badge("#f8d7da", "#721c24")
    else if status == Verified then Badge("#cce5ff", "#004085")
    else DefaultBadge
  }

  /** Approved, Rejected and Verified each have their own pair; every other status gets the default. */
  lemma BadgeTable(status: string)
    ensures BadgeFor(status) == DefaultBadge <==> status != Approved && status != Rejected && status != Verified
    ensures BadgeFor(Approved) != BadgeFor(Rejected) && BadgeFor(Rejected) != BadgeFor(Verified)
            && BadgeFor(Approved) != BadgeFor(Verified)
  {
  }

  /** What a card shows besides the plain fields. */
  datatype Card = Card(
    badge: Badge, caption: string, opacity: real, border: string,
    showWarning: bool, showApprove: bool, showReject: bool)

  /** `ApplicationCard`: each flag is the card's own condition. */
  function CardFor(app: Application): Card
  {
    Card(
      badge := BadgeFor(app.status),
      caption := ToUpper(app.status),
      opacity := if app.status == Approved || app.status == Rejected then 0.7 else 1.0,
      border := if app.status == Verified then "5px solid #646cff"
                else if app.status == Rejected then "5px solid red"
                else "1px solid #ccc",
      showWarning := app.accountStatus == Some(PendingAccount) && app.status != Approved && app.status != Rejected,
      showApprove := app.status == Verified,
      showReject := app.status != Approved && app.status != Rejected && app.accountStatus != Some(PendingAccount))
  }

  /** The buttons and the warning of a card, against the section filters. */
  lemma CardRules(app: Application)
    ensures CardFor(app).showApprove <==> app.status == Verified
    ensures CardFor(app).showReject <==> IsReady(app)
    ensures CardFor(app).showWarning <==> InHistory(app) && app.status != Approved && app.status != Rejected
    ensures !(CardFor(app).showWarning && CardFor(app).showReject)
    ensures CardFor(app).opacity == 0.7 <==> app.status == Approved || app.status == Rejected
  {
  }

  /** The Approve button does not depend on the section: a verified application
      of a student whose account is unverified sits in History and still offers it. */
  lemma ApproveOfferedInHistory(app: Application)
    requires app.status == Verified && app.accountStatus == Some(PendingAccount)
    ensures InHistory(app) && !IsReady(app) && CardFor(app).showApprove && !CardFor(app).showReject
    ensures CardFor(app).showWarning
  {
  }

  /** The rejection dialog. */
  datatype Modal = Modal(isOpen: bool, appId: Option<string>, reason: string)

  const ClosedModal: Modal := Modal(false, None, "")

  /** The dialog is open exactly when it names an application. */
  predicate ModalWellFormed(m: Modal)
  {
    m.isOpen <==> m.appId.Some?
  }

  datatype ModalEvent = RejectClicked(id: string) | ReasonTyped(text: string) | Cancelled
                      | SubmitSucceeded | SubmitFailed

  /** The dialog's transitions. */
  function ModalAfter(m: Modal, e: ModalEvent): Modal
  {
    match e
    case RejectClicked(id) => Modal(true, Some(id), "")
    case ReasonTyped(text) => m.(reason := text)
    case Cancelled => ClosedModal
    case SubmitSucceeded => ClosedModal
    case SubmitFailed => m
  }

  /** Every transition keeps the dialog well formed; opening resets the reason,
      closing forgets the application, a failed submit changes nothing. */
  lemma ModalTransitions(m: Modal, e: ModalEvent)
    requires ModalWellFormed(m)
    ensures ModalWellFormed(ModalAfter(m, e))
    ensures e.RejectClicked? ==> ModalAfter(m, e) == Modal(true, Some(e.id), "")
    ensures e.Cancelled? || e.SubmitSucceeded? ==> ModalAfter(m, e) == ClosedModal
    ensures e.SubmitFailed? ==> ModalAfter(m, e) == m
    ensures e.ReasonTyped? ==> ModalAfter(m, e).isOpen == m.isOpen && ModalAfter(m, e).appId == m.appId
  {
  }

  /** The dashboard's state for the approvals tab. */
  class AdminPage {
    var applications: seq<Application>
    var loading: bool
    var error: string
    var approvalData: Option<Record>
    var modal: Modal

    ghost predicate Valid()
      reads this
    {
      ModalWellFormed(modal)
    }

    constructor ()
      ensures Valid()
      ensures applications == [] && loading && error == "" && approvalData.None? && modal == ClosedModal
    {
      applications := [];
      loading := true;
      error := "";
      approvalData := None;
      modal := ClosedModal;
    }

    /** `fetchApplications`: loading ends either way; a failure keeps the old list. */
    method FetchApplications(response: Outcome<seq<Application>>)
      requires Valid()
      modifies this
      ensures Valid() && !loading && modal == old(modal) && approvalData == old(approvalData)
      ensures response.Ok? ==> applications == response.data && error == old(error)
      ensures response.Err? ==> applications == old(applications) && error == "Failed to fetch applications"
    {
      if response.Ok? {
        applications := response.data;
        loading := false;
      } else {
        error := "Failed to fetch applications";
        loading := false;
      }
    }

    /** `handleApprove`: on success the approval data are shown (the list is then
        fetched again by a separate `FetchApplications`); on failure an alert
        gives the server's message or "Approval failed". */
    method Approve(id: string, response: Outcome<Record>) returns (alert: Option<string>)
      requires Valid()
      modifies this
      ensures Valid() && applications == old(applications) && modal == old(modal)
      ensures approvalData == if response.Ok? then Some(response.data) else old(approvalData)
      ensures alert == if response.Ok? then None else Some(OrElse(ServerMessage(response.failure), "Approval failed"))
      ensures loading == old(loading) && error == old(error)
    {
      if response.Ok? {
        approvalData := Some(response.data);
        alert := None;
      } else {
        alert := Some(OrElse(ServerMessage(response.failure), "Approval failed"));
      }
    }

    /** The Close button of the approval panel. */
    method CloseApproval()
      requires Valid()
      modifies this
      ensures Valid() && approvalData.None? && modal == old(modal) && applications == old(applications)
      ensures loading == old(loading) && error == old(error)
    {
      approvalData := None;
    }

    /** A card's Reject button. */
    method RejectClick(id: string)
      requires Valid()
      modifies this
      ensures Valid() && modal == ModalAfter(old(modal), RejectClicked(id))
      ensures applications == old(applications) && approvalData == old(approvalData)
      ensures loading == old(loading) && error == old(error)
    {
      modal := Modal(true, Some(id), "");
    }

    /** Typing in the dialog's reason box. */
    method TypeReason(text: string)
      requires Valid()
      modifies this
      ensures Valid() && modal == ModalAfter(old(modal), ReasonTyped(text))
      ensures applications == old(applications) && approvalData == old(approvalData)
      ensures loading == old(loading) && error == old(error)
    {
      modal := modal.(reason := text);
    }

    /** The dialog's Cancel button. */
    method Cancel()
      requires Valid()
      modifies this
      ensures Valid() && modal == ModalAfter(old(modal), Cancelled)
      ensures applications == old(applications) && approvalData == old(approvalData)
      ensures loading == old(loading) && error == old(error)
    {
      modal := ClosedModal;
    }

    /** `handleRejectSubmit`: posts the dialog's application id and reason; closes
        the dialog on success and leaves it as it was on failure. Its Confirm
        button is rendered only while the dialog is open. */
    method RejectSubmit(response: Outcome<Record>) returns (sentId: Option<string>, sentReason: string, alert: string)
      requires Valid()
      requires modal.isOpen
      modifies this
      ensures sentId == old(modal).appId && sentId.Some? && sentReason == old(modal).reason
      ensures Valid() && modal == ModalAfter(old(modal), if response.Ok? then SubmitSucceeded else SubmitFailed)
      ensures alert == if response.Ok? then "Application Rejected"
                       else OrElse(ServerMessage(response.failure), "Rejection failed")
      ensures applications == old(applications) && approvalData == old(approvalData)
      ensures loading == old(loading) && error == old(error)
    {
      sentId, sentReason := modal.appId, modal.reason;
      if response.Ok? {
        modal := ClosedModal;
        alert := "Application Rejected";
      } else {
        alert := OrElse(ServerMessage(response.failure), "Rejection failed");
      }
    }
  }
}
