// The four-step wizard that creates an email campaign: the recipient list,
// the template variables and the HTML preview, and the step navigation with
// its guards.
module NewCampaignPage {
  import opened Common

  datatype Recipient = Recipient(email: string, name: string)

  // ---------------------------------------------------------------------
  // Recipients
  // ---------------------------------------------------------------------

  /**
   * `^[^\s@]+@[^\s@]+\.[^\s@]+$`: a non-empty local part, one '@', then a
   * domain that holds a '.' with something on both sides, and no blank or
   * second '@' anywhere.
   */
  predicate ValidEmail(s: string)
  {
    && (forall k :: 0 <= k < |s| ==> !IsSpace(s[k]))
    && exists i, j :: 0 < i && i + 1 < j < |s| - 1 && s[i] == '@' && s[j] == '.' &&
         forall k :: 0 <= k < |s| && s[k] == '@' ==> k == i
  }

  lemma ValidEmailExamples()
    ensures ValidEmail("ana@loja.com")
    ensures !ValidEmail("ana@loja")
    ensures !ValidEmail("@loja.com")
    ensures !ValidEmail("ana@.com")
  {
    var s := "ana@loja.com";
    assert 0 < 3 && 3 + 1 < 8 < |s| - 1 && s[3] == '@' && s[8] == '.';
  }

  predicate DistinctEmails(rs: seq<Recipient>)
  {
    forall i, j :: 0 <= i < j < |rs| ==> rs[i].email != rs[j].email
  }

  predicate Listed(rs: seq<Recipient>, email: string)
  {
    exists r :: r in rs && r.email == email
  }

  /** The message `handleAddRecipient` shows instead of adding, checked in this order. */
  function AddError(rs: seq<Recipient>, input: Recipient): (r: Option<string>)
    ensures r.None? <==> input.email != "" && ValidEmail(input.email) && !Listed(rs, input.email)
    ensures input.email == "" ==> r == Some("Email é obrigatório")
  {
    if input.email == "" then Some("Email é obrigatório")
    else if !ValidEmail(input.email) then Some("Email inválido")
    else if Listed(rs, input.email) then Some("Email já adicionado")
    else None
  }

  /** An accepted recipient keeps the emails pairwise distinct. */
  lemma AddKeepsDistinct(rs: seq<Recipient>, input: Recipient)
    requires DistinctEmails(rs) && AddError(rs, input).None?
    ensures DistinctEmails(rs + [input])
  {
    var s := rs + [input];
    forall i, j | 0 <= i < j < |s| ensures s[i].email != s[j].email {
      if j == |rs| {
        assert s[i] in rs;
      }
    }
  }

  function WithoutEmail(email: string): Recipient -> bool
  {
    (r: Recipient) => r.email != email
  }

  /** `handleRemoveRecipient`: every entry with that email goes, the rest keep their order. */
  function RemoveRecipient(rs: seq<Recipient>, email: string): (r: seq<Recipient>)
    ensures !Listed(r, email)
    ensures forall x :: x in r <==> x in rs && x.email != email
  {
    var r := Filter(rs, WithoutEmail(email));
    forall x ensures x in r <==> x in rs && x.email != email {
      FilterMembership(rs, WithoutEmail(email), x);
    }
    r
  }

  /** Removing keeps the emails distinct: a filter keeps its survivors in order. */
  lemma RemoveKeepsDistinct(rs: seq<Recipient>, email: string)
    requires DistinctEmails(rs)
    ensures DistinctEmails(RemoveRecipient(rs, email))
  {
    var r := RemoveRecipient(rs, email);
    forall i, j | 0 <= i < j < |r| ensures r[i].email != r[j].email {
      var a, b := FilterPreservesOrder(rs, WithoutEmail(email), i, j);
    }
  }

  // ---------------------------------------------------------------------
  // Template variables, as an insertion-ordered record
  // ---------------------------------------------------------------------

  /**
   * A `Record<string, string>` as its entries in insertion order. This is
   * the order `Object.entries` gives when no variable name looks like an
   * array index; such names would be listed first, in ascending order.
   */
  type Entries = seq<(string, string)>

  function Lookup(e: Entries, key: string): Option<string>
  {
    if e == [] then None else if e[0].0 == key then Some(e[0].1) else Lookup(e[1..], key)
  }

  /** `{ ...e, [key]: value }`: an existing key keeps its place, a new one goes last. */
  function Assign(e: Entries, key: string, value: string): (r: Entries)
    ensures |r| <= |e| + 1
  {
    if e == [] then [(key, value)]
    else if e[0].0 == key then [(key, value)] + e[1..]
    else [e[0]] + Assign(e[1..], key, value)
  }

  lemma {:induction false} AssignLookup(e: Entries, key: string, value: string, k: string)
    ensures Lookup(Assign(e, key, value), k) == if k == key then Some(value) else Lookup(e, k)
    decreases |e|
  {
    if e != [] && e[0].0 != key {
      AssignLookup(e[1..], key, value, k);
    }
  }

  /** `variables.reduce((acc, v) => ({ ...acc, [v]: '' }), acc)`. */
  function Blanked(acc: Entries, vars: seq<string>): Entries
    decreases |vars|
  {
    if vars == [] then acc else Blanked(Assign(acc, vars[0], ""), vars[1..])
  }

  /** Selecting a template gives each of its variables the empty value and nothing else a value. */
  lemma {:induction false} BlankedLookup(acc: Entries, vars: seq<string>, k: string)
    ensures Lookup(Blanked(acc, vars), k) == if k in vars then Some("") else Lookup(acc, k)
    decreases |vars|
  {
    if vars != [] {
      BlankedLookup(Assign(acc, vars[0], ""), vars[1..], k);
      AssignLookup(acc, vars[0], "", k);
    }
  }

  // ---------------------------------------------------------------------
  // Preview
  // ---------------------------------------------------------------------

  function Placeholder(key: string): (r: string)
    ensures |r| >= 4 && r[..2] == "{{"
  {
    "{{" + key + "}}"
  }

  /** One pass of the preview: `{{key}}` becomes the value, or stays when the value is empty. */
  function Substitute(html: string, entry: (string, string)): string
  {
    ReplaceAll(html, Placeholder(entry.0), if entry.1 == "" then Placeholder(entry.0) else entry.1)
  }

  function SubstituteAll(html: string, e: Entries): string
    decreases |e|
  {
    if e == [] then html else SubstituteAll(Substitute(html, e[0]), e[1..])
  }

  /** A variable left empty leaves its placeholder where it was. */
  lemma EmptyValueKeepsPlaceholder(html: string, key: string)
    ensures Substitute(html, (key, "")) == html
  {
    ReplaceAllSelf(html, Placeholder(key));
  }

  /** While no variable has been filled in, the variables leave the template untouched. */
  lemma {:induction false} UnfilledKeepsTemplate(html: string, e: Entries)
    requires forall i :: 0 <= i < |e| ==> e[i].1 == ""
    ensures SubstituteAll(html, e) == html
    decreases |e|
  {
    if e != [] {
      EmptyValueKeepsPlaceholder(html, e[0].0);
      UnfilledKeepsTemplate(html, e[1..]);
    }
  }

  const STORE_NAME_TAG: string := "{{store_name}}"
  const YEAR_TAG: string := "{{year}}"

  /** The preview: the variables in record order, then the store name (default 'Loja'), then the year. */
  function PreviewOf(content: string, e: Entries, storeName: string, year: string): string
  {
    var withVars := SubstituteAll(content, e);
    ReplaceAll(ReplaceAll(withVars, STORE_NAME_TAG, if storeName == "" then "Loja" else storeName), YEAR_TAG, year)
  }

  /** A template without any placeholder is shown exactly as written. */
  lemma PlainTemplatePreview(content: string, storeName: string, year: string)
    requires !Includes(content, "{{")
    ensures PreviewOf(content, [], storeName, year) == content
  {
    NoBracesNoTag(content, STORE_NAME_TAG);
    NoBracesNoTag(content, YEAR_TAG);
    ReplaceAllAbsent(content, STORE_NAME_TAG, if storeName == "" then "Loja" else storeName);
    ReplaceAllAbsent(content, YEAR_TAG, year);
  }

  lemma {:induction false} NoBracesNoTag(s: string, tag: string)
    requires |tag| >= 2 && tag[..2] == "{{" && !Includes(s, "{{")
    ensures !Includes(s, tag)
    decreases |s|
  {
    if s != [] {
      NoBracesNoTag(s[1..], tag);
      assert |s| < 2 || s[..2] != "{{";
      assert |s| < |tag| || s[..|tag|][..2] != tag[..2];
    }
  }

  /** `getPreviewHtml`, which rewrites `html` once per variable. */
  method PreviewHtml(content: string, e: Entries, storeName: string, year: string) returns (html: string)
    ensures html == PreviewOf(content, e, storeName, year)
  {
    html := content;
    var i := 0;
    while i < |e|
      invariant 0 <= i <= |e|
      invariant SubstituteAll(html, e[i..]) == SubstituteAll(content, e)
    {
      var key := e[i].0;
      var value := e[i].1;
      assert e[i..][1..] == e[i + 1..];
      html := ReplaceAll(html, Placeholder(key), if value == "" then Placeholder(key) else value);
      i := i + 1;
    }
    assert e[i..] == [];
    html := ReplaceAll(html, STORE_NAME_TAG, if storeName == "" then "Loja" else storeName);
    html := ReplaceAll(html, YEAR_TAG, year);
  }

  // ---------------------------------------------------------------------
  // Steps and guards
  // ---------------------------------------------------------------------

  /** Indices into `STEPS`. */
  const TEMPLATE_STEP: nat := 0
  const CONTENT_STEP: nat := 1
  const AUDIENCE_STEP: nat := 2
  const REVIEW_STEP: nat := 3

  function NextStep(step: nat): (r: nat)
    requires step <= REVIEW_STEP
    ensures r <= REVIEW_STEP
    ensures step < REVIEW_STEP ==> r == step + 1
  {
    if step < REVIEW_STEP then step + 1 else step
  }

  function PrevStep(step: nat): (r: nat)
    ensures r <= step
    ensures step > 0 ==> r + 1 == step
  {
    if step > 0 then step - 1 else step
  }

  /** Going forward and back returns to the same step, except at the last one. */
  lemma NextThenPrev(step: nat)
    requires step < REVIEW_STEP
    ensures PrevStep(NextStep(step)) == step
  {
  }

  datatype Template = Template(id: string, name: string, subject: string, htmlContent: string, variables: seq<string>)

  datatype CampaignData = CampaignData(
    name: string, subject: string, htmlContent: string,
    recipients: seq<Recipient>, variables: Entries)

  /** `canProceed` for each step. */
  predicate CanProceed(step: nat, selected: Option<Template>, data: CampaignData)
  {
    match step
    case 0 => selected.Some?
    case 1 => data.subject != "" && data.name != ""
    case 2 => |data.recipients| > 0
    case 3 => true
    case _ => false
  }

  /** Reaching the review step with every guard passed means sending has what it needs. */
  lemma GuardsBeforeReview(selected: Option<Template>, data: CampaignData)
    requires CanProceed(CONTENT_STEP, selected, data) && CanProceed(AUDIENCE_STEP, selected, data)
    ensures SendError(Some("store"), data).None?
  {
  }

  /** The message `handleSendCampaign` shows instead of sending, checked in this order. */
  function SendError(storeId: Option<string>, data: CampaignData): (r: Option<string>)
    ensures r.None? <==> storeId.Some? && storeId.value != "" && |data.recipients| > 0 && data.subject != ""
  {
    if storeId.None? || storeId.value == "" then Some("Selecione uma loja")
    else if |data.recipients| == 0 then Some("Adicione pelo menos um destinatário")
    else if data.subject == "" then Some("Assunto é obrigatório")
    else None
  }

  /** The wizard's state. */
  class Wizard {
    var step: nat
    var selected: Option<Template>
    var data: CampaignData
    var input: Recipient

    predicate Valid()
      reads this
    {
      step <= REVIEW_STEP && DistinctEmails(data.recipients)
    }

    constructor ()
      ensures Valid() && step == TEMPLATE_STEP && selected.None? && data.recipients == []
    {
      step := TEMPLATE_STEP;
      selected := None;
      data := CampaignData("", "", "", [], []);
      input := Recipient("", "");
    }

    /** `handleAddRecipient`: append the typed recipient and clear the input, unless it is refused. */
    method AddRecipient() returns (error: Option<string>)
      requires Valid()
      modifies this
      ensures Valid()
      ensures error == AddError(old(data.recipients), old(input))
      ensures error.None? ==> data == old(data).(recipients := old(data.recipients) + [old(input)]) && input == Recipient("", "")
      ensures error.Some? ==> data == old(data) && input == old(input)
      ensures step == old(step) && selected == old(selected)
    {
      error := AddError(data.recipients, input);
      if error.None? {
        AddKeepsDistinct(data.recipients, input);
        data := data.(recipients := data.recipients + [input]);
        input := Recipient("", "");
      }
    }

    method RemoveRecipientWith(email: string)
      requires Valid()
      modifies this
      ensures Valid()
      ensures data == old(data).(recipients := RemoveRecipient(old(data.recipients), email))
      ensures step == old(step) && selected == old(selected) && input == old(input)
    {
      RemoveKeepsDistinct(data.recipients, email);
      data := data.(recipients := RemoveRecipient(data.recipients, email));
    }

    /** `handleSelectTemplate`: copy the template in, blank its variables and move to the content step. */
    method SelectTemplate(t: Template)
      requires Valid()
      modifies this
      ensures Valid()
      ensures selected == Some(t) && step == CONTENT_STEP
      ensures data == old(data).(name := "Campanha - " + t.name, subject := t.subject,
                                  htmlContent := t.htmlContent, variables := Blanked([], t.variables))
      ensures input == old(input)
    {
      selected := Some(t);
      data := data.(name := "Campanha - " + t.name, subject := t.subject,
                    htmlContent := t.htmlContent, variables := Blanked([], t.variables));
      step := CONTENT_STEP;
    }

    method ChangeVariable(key: string, value: string)
      requires Valid()
      modifies this
      ensures Valid()
      ensures data == old(data).(variables := Assign(old(data.variables), key, value))
      ensures step == old(step) && selected == old(selected) && input == old(input)
    {
      data := data.(variables := Assign(data.variables, key, value));
    }

    method GoToNextStep()
      requires Valid()
      modifies this
      ensures Valid() && step == NextStep(old(step))
      ensures data == old(data) && selected == old(selected) && input == old(input)
    {
      step := NextStep(step);
    }

    method GoToPrevStep()
      requires Valid()
      modifies this
      ensures Valid() && step == PrevStep(old(step))
      ensures data == old(data) && selected == old(selected) && input == old(input)
    {
      step := PrevStep(step);
    }
  }
}
