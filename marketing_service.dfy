// The marketing service: slugs for email templates, the preset templates and
// the fallback to them, the clean-up of a campaign before it is posted, and
// the mapping of the statistics endpoint.
module MarketingService {
  import opened Common

  // ---------------------------------------------------------------------
  // generateSlug
  // ---------------------------------------------------------------------

  /** Canonical decomposition (NFD) of the Latin-1 small letters: base letter, then the combining mark. */
  function DecomposeLatin1(c: char): seq<char>
  {
    match c
    case '\U{00E0}' => ['a', '\U{0300}'] case '\U{00E1}' => ['a', '\U{0301}']
    case '\U{00E2}' => ['a', '\U{0302}'] case '\U{00E3}' => ['a', '\U{0303}']
    case '\U{00E4}' => ['a', '\U{0308}'] case '\U{00E5}' => ['a', '\U{030A}']
    case '\U{00E7}' => ['c', '\U{0327}']
    case '\U{00E8}' => ['e', '\U{0300}'] case '\U{00E9}' => ['e', '\U{0301}']
    case '\U{00EA}' => ['e', '\U{0302}'] case '\U{00EB}' => ['e', '\U{0308}']
    case '\U{00EC}' => ['i', '\U{0300}'] case '\U{00ED}' => ['i', '\U{0301}']
    case '\U{00EE}' => ['i', '\U{0302}'] case '\U{00EF}' => ['i', '\U{0308}']
    case '\U{00F1}' => ['n', '\U{0303}']
    case '\U{00F2}' => ['o', '\U{0300}'] case '\U{00F3}' => ['o', '\U{0301}']
    case '\U{00F4}' => ['o', '\U{0302}'] case '\U{00F5}' => ['o', '\U{0303}']
    case '\U{00F6}' => ['o', '\U{0308}']
    case '\U{00F9}' => ['u', '\U{0300}'] case '\U{00FA}' => ['u', '\U{0301}']
    case '\U{00FB}' => ['u', '\U{0302}'] case '\U{00FC}' => ['u', '\U{0308}']
    case '\U{00FD}' => ['y', '\U{0301}'] case '\U{00FF}' => ['y', '\U{0308}']
    case _ => [c]
  }

  function Decompose(c: char): seq<char>
  {
    if '\U{00E0}' <= c <= '\U{00FF}' then DecomposeLatin1(c) else [c]
  }

  /** `normalize('NFD')` on the characters above; every other character is left alone. */
  function Nfd(s: string): string
  {
    if s == [] then [] else Decompose(s[0]) + Nfd(s[1..])
  }

  /** `[̀-ͯ]`: a combining diacritical mark. */
  predicate IsMark(c: char)
  {
    '\U{0300}' <= c <= '\U{036F}'
  }

  function StripMarks(s: string): string
  {
    if s == [] then [] else (if IsMark(s[0]) then [] else [s[0]]) + StripMarks(s[1..])
  }

  /** `[a-z0-9]`. */
  predicate IsSlugChar(c: char)
  {
    'a' <= c <= 'z' || '0' <= c <= '9'
  }

  /** Drops the run of characters outside `[a-z0-9]` at the front. */
  function DropRun(s: string): (r: string)
    ensures |r| <= |s|
    ensures r != [] ==> IsSlugChar(r[0])
    ensures s != [] && !IsSlugChar(s[0]) ==> |r| < |s|
  {
    if s == [] || IsSlugChar(s[0]) then s else DropRun(s[1..])
  }

  /** `replace(/[^a-z0-9]+/g, '-')`: each maximal run outside `[a-z0-9]` becomes one '-'. */
  function Dashify(s: string): (r: string)
    ensures r != [] && s != [] && IsSlugChar(s[0]) ==> r[0] == s[0]
    decreases |s|
  {
    if s == [] then []
    else if IsSlugChar(s[0]) then [s[0]] + Dashify(s[1..])
    else "-" + Dashify(DropRun(s))
  }

  /** `replace(/^-+/, '')`. */
  function TrimLeadingDashes(s: string): (r: string)
    ensures |r| <= |s| && r == s[|s| - |r|..]
    ensures r != [] ==> r[0] != '-'
  {
    if s != [] && s[0] == '-' then TrimLeadingDashes(s[1..]) else s
  }

  /** `replace(/-+$/, '')`. */
  function TrimTrailingDashes(s: string): (r: string)
    ensures |r| <= |s| && r == s[..|r|]
    ensures r != [] ==> r[|r| - 1] != '-'
  {
    if s != [] && s[|s| - 1] == '-' then TrimTrailingDashes(s[..|s| - 1]) else s
  }

  predicate SlugChars(s: string)
  {
    forall i :: 0 <= i < |s| ==> IsSlugChar(s[i]) || s[i] == '-'
  }

  predicate NoDoubleDash(s: string)
  {
    forall i :: 0 <= i < |s| - 1 ==> s[i] != '-' || s[i + 1] != '-'
  }

  /** What `generateSlug` promises: `[a-z0-9-]` only, no '--', no '-' at either end. */
  predicate WellFormedSlug(s: string)
  {
    SlugChars(s) && NoDoubleDash(s) && (s != [] ==> s[0] != '-' && s[|s| - 1] != '-')
  }

  function GenerateSlug(name: string): (r: string)
    ensures WellFormedSlug(r)
  {
    var dashed := Dashify(StripMarks(Nfd(Lower(name))));
    DashifyShape(StripMarks(Nfd(Lower(name))));
    TrimDashesShape(dashed);
    TrimTrailingDashes(TrimLeadingDashes(dashed))
  }

  lemma {:induction false} DashifyShape(s: string)
    ensures SlugChars(Dashify(s)) && NoDoubleDash(Dashify(s))
    decreases |s|
  {
    if s != [] {
      if IsSlugChar(s[0]) {
        DashifyShape(s[1..]);
      } else {
        DashifyShape(DropRun(s));
        var rest := Dashify(DropRun(s));
        assert rest != [] ==> IsSlugChar(rest[0]);
        assert Dashify(s) == "-" + rest;
      }
    }
  }

  /** A piece of a string keeps its characters and its lack of '--'. */
  lemma SliceShape(s: string, i: nat, j: nat)
    requires i <= j <= |s| && SlugChars(s) && NoDoubleDash(s)
    ensures SlugChars(s[i..j]) && NoDoubleDash(s[i..j])
  {
    var t := s[i..j];
    assert forall k :: 0 <= k < |t| ==> t[k] == s[i + k];
  }

  lemma TrimDashesShape(s: string)
    requires SlugChars(s) && NoDoubleDash(s)
    ensures WellFormedSlug(TrimTrailingDashes(TrimLeadingDashes(s)))
  {
    var a := TrimLeadingDashes(s);
    SliceShape(s, |s| - |a|, |s|);
    var b := TrimTrailingDashes(a);
    SliceShape(a, 0, |b|);
    assert b != [] ==> b[0] == a[0];
  }

  lemma {:induction false} LowerKeepsSlug(s: string)
    requires SlugChars(s)
    ensures Lower(s) == s
    decreases |s|
  {
    if s != [] { LowerKeepsSlug(s[1..]); }
  }

  lemma {:induction false} NfdKeeps(s: string)
    requires SlugChars(s)
    ensures Nfd(s) == s && StripMarks(s) == s
    decreases |s|
  {
    if s != [] { NfdKeeps(s[1..]); }
  }

  lemma {:induction false} DashifyKeeps(s: string)
    requires SlugChars(s) && NoDoubleDash(s) && (s != [] ==> s[|s| - 1] != '-')
    ensures Dashify(s) == s
    decreases |s|
  {
    if s != [] {
      if IsSlugChar(s[0]) {
        DashifyKeeps(s[1..]);
      } else {
        assert IsSlugChar(s[1]);
        assert DropRun(s) == s[1..];
        DashifyKeeps(s[1..]);
      }
    }
  }

  /** A slug is its own slug. */
  lemma SlugIdempotent(name: string)
    ensures GenerateSlug(GenerateSlug(name)) == GenerateSlug(name)
  {
    var s := GenerateSlug(name);
    LowerKeepsSlug(s);
    NfdKeeps(s);
    DashifyKeeps(s);
  }

  /** One name through every step: lower-cased, decomposed, stripped of its mark, dashed and trimmed. */
  /**
   * One name through every step: lower-cased, decomposed, stripped of its
   * mark, dashed and trimmed. The steps are separate helpers only because
   * the verifier needs them one at a time.
   */
  lemma SlugExample()
    ensures GenerateSlug("Pão!") == "pao"
  {
    SlugStepLower();
    SlugStepNfd();
    SlugStepMarks();
    SlugStepDashes();
    assert Dashify(StripMarks(Nfd(Lower("Pão!")))) == "pao-";
  }

  lemma SlugStepLower()
    ensures Lower("Pão!") == "pão!"
  {
  }

  lemma SlugStepNfd()
    ensures Nfd("pão!") == "pa\U{0303}o!"
  {
    assert Nfd("o!") == "o!";
  }

  lemma SlugStepMarks()
    ensures StripMarks("pa\U{0303}o!") == "pao!"
  {
  }

  lemma SlugStepDashes()
    ensures Dashify("pao!") == "pao-"
  {
    assert DropRun("!") == "";
  }

  // ---------------------------------------------------------------------
  // Email templates
  // ---------------------------------------------------------------------

  datatype EmailTemplate = EmailTemplate(
    id: string, store: string, name: string, slug: string, subject: string, htmlContent: string,
    templateType: string, variables: seq<string>, isActive: bool, createdAt: string)

  /** The payload `emailTemplatesApi.create` posts: the given slug unless it is empty or absent. */
  function TemplateSlug(name: string, slug: Option<string>): (r: string)
    ensures slug.Some? && slug.value != "" ==> r == slug.value
    ensures slug.None? || slug.value == "" ==> r == GenerateSlug(name) && WellFormedSlug(r)
  {
    if slug.Some? && slug.value != "" then slug.value else GenerateSlug(name)
  }

  /** A preset: every field of the template input is optional. */
  datatype Preset = Preset(name: Option<string>, subject: Option<string>, htmlContent: Option<string>,
                           templateType: Option<string>, variables: Option<seq<string>>)

  /** `value || fallback` for an optional string. */
  function OrElse(v: Option<string>, fallback: string): string
  {
    if v.Some? && v.value != "" then v.value else fallback
  }

  function PresetTemplate(key: string, p: Preset, store: string, now: string): EmailTemplate
  {
    EmailTemplate("preset-" + key, store, OrElse(p.name, key), key, OrElse(p.subject, ""),
                  OrElse(p.htmlContent, ""), OrElse(p.templateType, "custom"), GetOr(p.variables, []), true, now)
  }

  /** `getPresetTemplates`: one active template per preset, in the order of the presets. */
  function PresetTemplates(presets: seq<(string, Preset)>, store: string, now: string): (r: seq<EmailTemplate>)
    ensures |r| == |presets|
    ensures forall i :: 0 <= i < |r| ==>
      && r[i].id == "preset-" + presets[i].0 && r[i].slug == presets[i].0
      && r[i].isActive && r[i].store == store
      && r[i].templateType == (if presets[i].1.templateType.Some? && presets[i].1.templateType.value != ""
                               then presets[i].1.templateType.value else "custom")
      && (presets[i].0 != "" ==> r[i].name != "")
  {
    seq(|presets|, i requires 0 <= i < |presets| => PresetTemplate(presets[i].0, presets[i].1, store, now))
  }

  /** Distinct preset keys give distinct template ids. */
  lemma PresetIdsDistinct(presets: seq<(string, Preset)>, store: string, now: string)
    requires forall i, j :: 0 <= i < j < |presets| ==> presets[i].0 != presets[j].0
    ensures var r := PresetTemplates(presets, store, now);
      forall i, j :: 0 <= i < j < |r| ==> r[i].id != r[j].id
  {
    var r := PresetTemplates(presets, store, now);
    forall i, j | 0 <= i < j < |r| ensures r[i].id != r[j].id {
      assert r[i].id[7..] == presets[i].0;
      assert r[j].id[7..] == presets[j].0;
    }
  }

  /** The keys of `EMAIL_TEMPLATE_PRESETS`, in declaration order. */
  const PRESET_KEYS: seq<string> := ["coupon", "welcome", "promotion", "order_confirmation", "abandoned_cart"]

  /** What the templates endpoint answered: a bare list, a page with optional `results`, or a failure. */
  datatype ListResponse = Plain(items: seq<EmailTemplate>) | Paged(results: Option<seq<EmailTemplate>>) | Failed

  /** `emailTemplatesApi.list`: the stored templates, or the presets when there are none or the call fails. */
  function ListTemplates(response: ListResponse, presets: seq<(string, Preset)>, store: string, now: string): (r: seq<EmailTemplate>)
    ensures r == [] ==> presets == []
    ensures response.Plain? && response.items != [] ==> r == response.items
    ensures response.Failed? ==> r == PresetTemplates(presets, store, now)
  {
    var templates := match response
      case Plain(items) => items
      case Paged(results) => GetOr(results, [])
      case Failed => [];
    if |templates| > 0 then templates else PresetTemplates(presets, store, now)
  }

  // ---------------------------------------------------------------------
  // emailCampaignsApi.create
  // ---------------------------------------------------------------------

  /** A JavaScript property value: `None` is `undefined`. */
  type Value = Option<Json>

  /** `=== ''`, `=== undefined` or `=== null`. */
  predicate Empty(v: Value)
  {
    v.None? || v == Some(JNull) || v == Some(JStr(""))
  }

  /** The template is removed when falsy or when it names a preset rather than a stored template. */
  predicate DropTemplate(v: Value)
  {
    !Truthy(v) || (v.Some? && v.value.JStr? && StartsWith(v.value.s, "preset-"))
  }

  /** The payload after the clean-up: no preset or falsy template, and no empty value. */
  function Cleaned(data: map<string, Value>): (r: map<string, Value>)
    ensures forall k :: k in r ==> k in data && r[k] == data[k] && !Empty(r[k])
    ensures "template" in r ==> !DropTemplate(r["template"])
    ensures forall k :: k in data && k != "template" && !Empty(data[k]) ==> k in r
    ensures "template" in data && !DropTemplate(data["template"]) ==> "template" in r && r["template"] == data["template"]
  {
    map k | k in data && !(k == "template" && DropTemplate(data[k])) && !Empty(data[k]) :: data[k]
  }

  /** The clean-up, deleting keys of the copied record one at a time. */
  method CleanCampaignData(data: map<string, Value>) returns (clean: map<string, Value>)
    ensures clean == Cleaned(data)
  {
    clean := data;
    if "template" in clean && DropTemplate(clean["template"]) {
      clean := clean - {"template"};
    }
    var keys := clean.Keys;
    ghost var start := clean;
    while keys != {}
      invariant keys <= start.Keys
      invariant forall k :: k in clean <==> k in start && (k in keys || !Empty(start[k]))
      invariant forall k :: k in clean ==> clean[k] == start[k]
      decreases |keys|
    {
      var k :| k in keys;
      if Empty(clean[k]) {
        clean := clean - {k};
      }
      keys := keys - {k};
    }
  }

  // ---------------------------------------------------------------------
  // marketingStatsApi.get
  // ---------------------------------------------------------------------

  datatype EmailStats = EmailStats(totalCampaigns: real, totalSent: real, totalDelivered: real,
                                   totalOpened: real, totalClicked: real, openRate: real, clickRate: real)
  datatype WhatsAppStats = WhatsAppStats(totalCampaigns: real, totalSent: real, totalDelivered: real,
                                         totalRead: real, totalReplied: real, deliveryRate: real, readRate: real)
  datatype SubscriberStats = SubscriberStats(total: real, active: real, unsubscribed: real, newThisMonth: real)
  datatype MarketingStats = MarketingStats(email: EmailStats, whatsapp: WhatsAppStats, subscribers: SubscriberStats)

  const NO_WHATSAPP: WhatsAppStats := WhatsAppStats(0.0, 0.0, 0.0, 0.0, 0.0, 0.0, 0.0)
  const EMPTY_STATS: MarketingStats :=
    MarketingStats(EmailStats(0.0, 0.0, 0.0, 0.0, 0.0, 0.0, 0.0), NO_WHATSAPP, SubscriberStats(0.0, 0.0, 0.0, 0.0))

  /** `data.group?.field || 0`, for numeric fields. */
  function NumAt(data: Json, group: string, field: string): (r: real)
    ensures r != 0.0 ==> Field(data, group).Some? && Field(Field(data, group).value, field) == Some(JNum(r))
  {
    match Field(data, group)
    case None => 0.0
    case Some(g) =>
      match Field(g, field)
      case Some(JNum(n)) => n
      case _ => 0.0
  }

  /** The mapping of the stats endpoint; `None` is a failed request, and reading from a `null` body fails too. */
  function StatsOf(response: Option<Json>): (r: MarketingStats)
    ensures r.whatsapp == NO_WHATSAPP
    ensures r.subscribers.unsubscribed == r.subscribers.total - r.subscribers.active
    ensures response.None? || response == Some(JNull) ==> r == EMPTY_STATS
    ensures response.Some? && response.value.JObj? ==>
      r.subscribers.total == NumAt(response.value, "subscribers", "total")
      && r.subscribers.newThisMonth == NumAt(response.value, "subscribers", "new_last_30_days")
  {
    if response.None? || response == Some(JNull) then EMPTY_STATS
    else
      var d := response.value;
      var total := NumAt(d, "subscribers", "total");
      var active := NumAt(d, "subscribers", "active");
      MarketingStats(
        EmailStats(NumAt(d, "campaigns", "total"), NumAt(d, "emails", "sent"), NumAt(d, "emails", "delivered"),
                   NumAt(d, "emails", "opened"), NumAt(d, "emails", "clicked"),
                   NumAt(d, "rates", "open_rate"), NumAt(d, "rates", "click_rate")),
        NO_WHATSAPP,
        SubscriberStats(total, active, total - active, NumAt(d, "subscribers", "new_last_30_days")))
  }

  /** A body without the subscribers group reports no subscribers at all. */
  lemma MissingGroupIsZero(d: Json)
    requires d.JObj? && "subscribers" !in d.fields
    ensures StatsOf(Some(d)).subscribers == SubscriberStats(0.0, 0.0, 0.0, 0.0)
  {
  }
}
