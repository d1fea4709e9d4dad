/** The "Launch New Campaign" dialog of the campaign history page: its three
    form fields, the checks `handleCreateCampaign` makes before it sends a
    launch request, and the state the form is left in afterwards. */
module CampaignHistory {
  import opened Types
  import JsText

  const NameMissingMessage: string := "Please enter a campaign name"
  const SegmentMissingMessage: string := "Please select a segment"
  const LaunchedMessage: string := "Campaign created and launched successfully!"
  const LaunchFailedMessage: string := "Failed to create campaign"

  datatype Toast = ErrorToast(message: string) | SuccessToast(message: string)

  /** The body of the launch request. */
  datatype CreateCampaignPayload = CreateCampaignPayload(segmentId: string, name: string)

  /** What the two guards decide: the name is refused, the segment is
      refused, or the request may go out with this payload. */
  datatype Validation = NameRefused | SegmentRefused | Accepted(payload: CreateCampaignPayload)
  {
    /** The error toast a refusal shows. */
    function Message(): string
      requires !Accepted?
    {
      if NameRefused? then NameMissingMessage else SegmentMissingMessage
    }
  }

  /** The two guards of `handleCreateCampaign`, in their order: a blank name
      first, then a missing segment; otherwise the payload to send. */
  function Validate(name: string, segmentId: string): (v: Validation)
    ensures v.NameRefused? <==> JsText.Trim(name) == ""
    ensures v.SegmentRefused? <==> JsText.Trim(name) != "" && segmentId == ""
    ensures v.Accepted? <==> JsText.Trim(name) != "" && segmentId != ""
    ensures v.Accepted? ==> v.payload == CreateCampaignPayload(segmentId, JsText.Trim(name))
  {
    if JsText.Trim(name) == "" then NameRefused
    else if segmentId == "" then SegmentRefused
    else Accepted(CreateCampaignPayload(segmentId, JsText.Trim(name)))
  }

  /** A name of nothing but white space is refused with the name message,
      whether or not a segment is selected. */
  lemma BlankNameRejected(name: string, segmentId: string)
    requires JsText.AllTrimmable(name)
    ensures Validate(name, segmentId) == NameRefused
    ensures Validate(name, segmentId).Message() == "Please enter a campaign name"
  {
    JsText.TrimEmptyIff(name);
  }

  /** A name with any visible character passes the name check, so a missing
      segment is then the reported problem. */
  lemma MissingSegmentReportedAfterName(name: string, k: nat)
    requires k < |name| && !JsText.IsTrimmable(name[k])
    ensures Validate(name, "") == SegmentRefused
    ensures Validate(name, "").Message() == "Please select a segment"
  {
    JsText.TrimEmptyIff(name);
  }

  /** The name sent has no white space at either end, is non-empty, and is
      what trimming the typed name yields. */
  lemma PayloadNameIsTrimmed(name: string, segmentId: string)
    requires Validate(name, segmentId).Accepted?
    ensures var p := Validate(name, segmentId).payload;
            p.segmentId == segmentId && p.segmentId != ""
            && p.name != "" && !JsText.IsTrimmable(p.name[0])
            && !JsText.IsTrimmable(p.name[|p.name| - 1])
            && JsText.Trim(p.name) == p.name
  {
    JsText.TrimEnds(name);
  }

  /** The "Launch Campaign" button's enable condition. */
  predicate LaunchEnabled(name: string, segmentId: string, pending: bool) {
    !(JsText.Trim(name) == "" || segmentId == "" || pending)
  }

  /** The button is enabled exactly when no request is pending and the
      handler's guards would both pass. */
  lemma LaunchEnabledMatchesGuards(name: string, segmentId: string, pending: bool)
    ensures LaunchEnabled(name, segmentId, pending) <==> !pending && Validate(name, segmentId).Accepted?
  {
  }

  datatype LaunchOutcome = NameMissing | SegmentMissing | Launched | LaunchFailed

  /** How a submission ends, given the guards' decision and the server's answer. */
  function OutcomeOf(v: Validation, serverAccepts: bool): LaunchOutcome {
    match v
    case NameRefused => NameMissing
    case SegmentRefused => SegmentMissing
    case Accepted(_) => if serverAccepts then Launched else LaunchFailed
  }

  /** The one toast a submission shows. */
  function ToastOf(v: Validation, serverAccepts: bool): Toast {
    match v
    case NameRefused => ErrorToast(NameMissingMessage)
    case SegmentRefused => ErrorToast(SegmentMissingMessage)
    case Accepted(_) => if serverAccepts then SuccessToast(LaunchedMessage) else ErrorToast(LaunchFailedMessage)
  }

  /** The dialog's state: whether it is open, the two inputs, and the toasts
      shown and launch requests sent so far. */
  class LaunchCampaignForm {
    var showCreateCampaign: bool
    var campaignName: string
    var selectedSegmentId: string
    var toasts: seq<Toast>
    var requests: seq<CreateCampaignPayload>

    constructor ()
      ensures !showCreateCampaign && campaignName == "" && selectedSegmentId == ""
      ensures toasts == [] && requests == []
    {
      showCreateCampaign := false;
      campaignName := "";
      selectedSegmentId := "";
      toasts := [];
      requests := [];
    }

    /** The "Launch Campaign" buttons on the page, and the dialog's own
        open/close notification. */
    method SetOpen(open: bool)
      modifies this
      ensures showCreateCampaign == open
      ensures campaignName == old(campaignName) && selectedSegmentId == old(selectedSegmentId)
      ensures toasts == old(toasts) && requests == old(requests)
    {
      showCreateCampaign := open;
    }

    /** The "Cancel" button, which does nothing while a request is pending. */
    method Cancel(pending: bool)
      modifies this
      ensures showCreateCampaign == (old(showCreateCampaign) && pending)
      ensures campaignName == old(campaignName) && selectedSegmentId == old(selectedSegmentId)
      ensures toasts == old(toasts) && requests == old(requests)
    {
      if !pending {
        showCreateCampaign := false;
      }
    }

    method TypeName(text: string)
      modifies this
      ensures campaignName == text
      ensures showCreateCampaign == old(showCreateCampaign) && selectedSegmentId == old(selectedSegmentId)
      ensures toasts == old(toasts) && requests == old(requests)
    {
      campaignName := text;
    }

    method SelectSegment(segmentId: string)
      modifies this
      ensures selectedSegmentId == segmentId
      ensures showCreateCampaign == old(showCreateCampaign) && campaignName == old(campaignName)
      ensures toasts == old(toasts) && requests == old(requests)
    {
      selectedSegmentId := segmentId;
    }

    /** `handleCreateCampaign`; `serverAccepts` is how the launch request ends.
        Exactly one toast is shown; a request goes out only past both guards;
        the form is reset only on success. */
    method HandleCreateCampaign(serverAccepts: bool) returns (outcome: LaunchOutcome)
      modifies this
      ensures var v := Validate(old(campaignName), old(selectedSegmentId));
              outcome == OutcomeOf(v, serverAccepts)
              && toasts == old(toasts) + [ToastOf(v, serverAccepts)]
              && requests == old(requests) + (if v.Accepted? then [v.payload] else [])
      ensures outcome == Launched ==>
                !showCreateCampaign && campaignName == "" && selectedSegmentId == ""
      ensures outcome != Launched ==>
                showCreateCampaign == old(showCreateCampaign) && campaignName == old(campaignName)
                && selectedSegmentId == old(selectedSegmentId)
    {
      ghost var v := Validate(campaignName, selectedSegmentId);
      var trimmed := JsText.Trim(campaignName);
      if trimmed == "" {
        toasts := toasts + [ErrorToast(NameMissingMessage)];
        return NameMissing;
      }
      if selectedSegmentId == "" {
        toasts := toasts + [ErrorToast(SegmentMissingMessage)];
        return SegmentMissing;
      }
      requests := requests + [CreateCampaignPayload(selectedSegmentId, trimmed)];
      outcome := Submitted(serverAccepts);
    }

    /** The part of the handler after the launch request has been answered. */
    method Submitted(serverAccepts: bool) returns (outcome: LaunchOutcome)
      modifies this
      ensures outcome == (if serverAccepts then Launched else LaunchFailed)
      ensures toasts == old(toasts) + [if serverAccepts then SuccessToast(LaunchedMessage)
                                       else ErrorToast(LaunchFailedMessage)]
      ensures requests == old(requests)
      ensures serverAccepts ==> !showCreateCampaign && campaignName == "" && selectedSegmentId == ""
      ensures !serverAccepts ==>
                showCreateCampaign == old(showCreateCampaign) && campaignName == old(campaignName)
                && selectedSegmentId == old(selectedSegmentId)
    {
      if serverAccepts {
        toasts := toasts + [SuccessToast(LaunchedMessage)];
        showCreateCampaign := false;
        campaignName := "";
        selectedSegmentId := "";
        outcome := Launched;
      } else {
        toasts := toasts + [ErrorToast(LaunchFailedMessage)];
        outcome := LaunchFailed;
      }
    }
  }
}
