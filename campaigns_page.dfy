// The WhatsApp campaigns list: the row actions each status offers, the save
// guards of the edit dialog, the progress bar and the summary counters.
module CampaignsPage {
  import opened Common

  datatype Campaign = Campaign(id: string, name: string, status: string, messagesSent: nat, totalRecipients: nat)

  /** The row buttons, in the order they are rendered. */
  datatype Action = ViewStats | Start | Pause | Resume | CancelCampaign | Edit | Delete

  /** The buttons of a row with this status. */
  function Actions(status: string): seq<Action>
  {
    [ViewStats]
    + (if status == "draft" then [Start] else [])
    + (if status == "running" then [Pause] else [])
    + (if status == "paused" then [Resume, CancelCampaign] else [])
    + (if status == "draft" then [Edit] else [])
    + (if status == "draft" || status == "cancelled" then [Delete] else [])
  }

  /** Statistics are always offered first; every other button belongs to the statuses listed for it. */
  lemma ActionsOffered(status: string)
    ensures |Actions(status)| >= 1 && Actions(status)[0] == ViewStats
    ensures Start in Actions(status) <==> status == "draft"
    ensures Edit in Actions(status) <==> status == "draft"
    ensures Pause in Actions(status) <==> status == "running"
    ensures Resume in Actions(status) <==> status == "paused"
    ensures CancelCampaign in Actions(status) <==> status == "paused"
    ensures Delete in Actions(status) <==> status == "draft" || status == "cancelled"
  {
  }

  /** Scheduled, completed and unknown campaigns only offer their statistics. */
  lemma OnlyStatistics(status: string)
    requires status !in {"draft", "running", "paused", "cancelled"}
    ensures Actions(status) == [ViewStats]
  {
  }

  /** The full button sets of the four statuses that have more than statistics. */
  lemma ActionTable()
    ensures Actions("draft") == [ViewStats, Start, Edit, Delete]
    ensures Actions("running") == [ViewStats, Pause]
    ensures Actions("paused") == [ViewStats, Resume, CancelCampaign]
    ensures Actions("cancelled") == [ViewStats, Delete]
  {
  }

  /** No button appears twice in a row. */
  lemma ActionsDistinct(status: string)
    ensures forall i, j :: 0 <= i < j < |Actions(status)| ==> Actions(status)[i] != Actions(status)[j]
  {
  }

  datatype Form = Form(name: string, description: string, campaignType: string)

  datatype SaveOutcome = NameRequired | CreationRefused | Update(id: string, form: Form)

  /**
   * `handleSave`: a blank name is refused first; a new campaign is refused
   * (it needs an account); an existing one is updated with trimmed name and
   * description.
   */
  function Save(form: Form, editing: Option<string>): (r: SaveOutcome)
    ensures r == NameRequired <==> IsBlank(form.name)
    ensures r == CreationRefused <==> !IsBlank(form.name) && editing.None?
    ensures r.Update? <==> !IsBlank(form.name) && editing.Some?
    ensures r.Update? ==> r.id == editing.value && r.form.campaignType == form.campaignType
    ensures r.Update? ==> r.form.name == Trim(form.name) && r.form.name != "" && r.form.description == Trim(form.description)
  {
    if Trim(form.name) == "" then NameRequired
    else if editing.None? then CreationRefused
    else Update(editing.value, Form(Trim(form.name), Trim(form.description), form.campaignType))
  }

  /** Width of the progress bar in percent. */
  function Progress(sent: nat, total: nat): (r: real)
    ensures total == 0 ==> r == 0.0
    ensures total > 0 ==> r * total as real == 100.0 * sent as real
  {
    if total > 0 then (sent as real / total as real) * 100.0 else 0.0
  }

  /** The bar stays within 0–100% while no more messages were sent than there are recipients, and is full when all were sent. */
  lemma ProgressBounds(sent: nat, total: nat)
    requires sent <= total
    ensures 0.0 <= Progress(sent, total) <= 100.0
    ensures total > 0 && sent == total ==> Progress(sent, total) == 100.0
  {
    if total > 0 {
      var s, t := sent as real, total as real;
      var q := s / t;
      assert q * t == s;
      assert (1.0 - q) * t == t - s;
      assert 0.0 <= q <= 1.0;
    }
  }

  function HasStatus(s: string): Campaign -> bool
  {
    (c: Campaign) => c.status == s
  }

  /** The three summary cards: campaigns running, scheduled and completed. */
  function Summary(campaigns: seq<Campaign>): (r: (nat, nat, nat))
  {
    (Count(campaigns, HasStatus("running")), Count(campaigns, HasStatus("scheduled")), Count(campaigns, HasStatus("completed")))
  }

  /** The three cards never add up to more than the total card. */
  lemma {:induction false} SummaryWithinTotal(campaigns: seq<Campaign>)
    ensures Summary(campaigns).0 + Summary(campaigns).1 + Summary(campaigns).2 <= |campaigns|
  {
    if campaigns != [] {
      SummaryWithinTotal(campaigns[1..]);
    }
  }

  /** `STATUS_LABELS[status] || status`. */
  function StatusLabel(status: string): (r: string)
    ensures status !in {"draft", "scheduled", "running", "paused", "completed", "cancelled"} ==> r == status
    ensures r != ""  || status == ""
  {
    match status
    case "draft" => "Rascunho"
    case "scheduled" => "Agendada"
    case "running" => "Em execução"
    case "paused" => "Pausada"
    case "completed" => "Concluída"
    case "cancelled" => "Cancelada"
    case _ => status
  }
}
