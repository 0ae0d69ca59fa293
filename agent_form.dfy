// The agent form: its data is a JavaScript object, kept here as a map from
// property names to JSON values, so that `{...prev, [field]: value}` and
// `delete data.api_key` are map updates and removals.
module AgentForm {
  import opened Common

  type FormData = map<string, Json>
  type Errors = map<string, string>

  datatype Provider = Kimi | OpenAI | Anthropic | Ollama

  datatype ProviderConfig = ProviderConfig(name: string, models: seq<string>, defaultBaseUrl: string)

  /** The provider's key in the form data. */
  function ProviderKey(p: Provider): (r: string)
    ensures r == "ollama" <==> p == Ollama
  {
    match p
    case Kimi => "kimi"
    case OpenAI => "openai"
    case Anthropic => "anthropic"
    case Ollama => "ollama"
  }

  /** `providerConfigs`: every provider offers at least one model. */
  function Config(p: Provider): (c: ProviderConfig)
    ensures |c.models| >= 1
  {
    match p
    case Kimi => ProviderConfig("Kimi (Moonshot)",
      ["kimi-coder", "moonshot-v1-8k", "moonshot-v1-32k", "moonshot-v1-128k"], "https://api.kimi.com/coding/v1")
    case OpenAI => ProviderConfig("OpenAI",
      ["gpt-4-turbo-preview", "gpt-4", "gpt-3.5-turbo", "gpt-3.5-turbo-16k"], "https://api.openai.com/v1")
    case Anthropic => ProviderConfig("Anthropic",
      ["claude-3-opus-20240229", "claude-3-sonnet-20240229", "claude-3-haiku-20240307"], "https://api.anthropic.com/v1")
    case Ollama => ProviderConfig("Ollama (Local)",
      ["llama2", "mistral", "codellama", "mixtral"], "http://localhost:11434/v1")
  }

  const DEFAULT_SYSTEM_PROMPT := "Você é um assistente virtual útil da Pastita, uma loja de massas artesanais. Ajude os clientes com informações sobre produtos, pedidos e dúvidas gerais."

  /** `defaultValues`: a draft Kimi agent with its first model and default address. */
  const DEFAULT_VALUES: FormData := map[
    "name" := JStr(""),
    "description" := JStr(""),
    "provider" := JStr("kimi"),
    "model_name" := JStr("kimi-coder"),
    "api_key" := JStr(""),
    "base_url" := JStr("https://api.kimi.com/coding/v1"),
    "temperature" := JNum(0.7),
    "max_tokens" := JNum(1000.0),
    "timeout" := JNum(30.0),
    "system_prompt" := JStr(DEFAULT_SYSTEM_PROMPT),
    "context_prompt" := JStr(""),
    "status" := JStr("draft"),
    "use_memory" := JBool(true),
    "memory_ttl" := JNum(3600.0),
    "accounts" := JArr([])]

  /** The defaults agree with the Kimi configuration. */
  lemma DefaultsMatchKimi()
    ensures DEFAULT_VALUES["provider"] == JStr(ProviderKey(Kimi))
    ensures DEFAULT_VALUES["model_name"] == JStr(Config(Kimi).models[0])
    ensures DEFAULT_VALUES["base_url"] == JStr(Config(Kimi).defaultBaseUrl)
  {
  }

  /** `data[key]`, `undefined` when absent. */
  function Get(data: FormData, key: string): (r: Option<Json>)
    ensures r.Some? <==> key in data
  {
    if key in data then Some(data[key]) else None
  }

  /** The text of a string property; the form always holds one, anything else reads as empty. */
  function TextOf(data: FormData, key: string): string
  {
    if key in data && data[key].JStr? then data[key].s else ""
  }

  /** The form the effect sets up for an agent: the defaults, overridden by every property the agent has. */
  function EditForm(agent: FormData): (r: FormData)
    ensures r.Keys == DEFAULT_VALUES.Keys + agent.Keys
    ensures forall k :: k in agent ==> r[k] == agent[k]
    ensures forall k :: k in DEFAULT_VALUES && k !in agent ==> r[k] == DEFAULT_VALUES[k]
  {
    DEFAULT_VALUES + agent
  }

  /** `isEditing`: there is an agent and its id is truthy. */
  predicate IsEditing(agent: Option<FormData>)
  {
    agent.Some? && Truthy(Get(agent.value, "id"))
  }

  // ---------------------------------------------------------------------
  // Edits
  // ---------------------------------------------------------------------

  /** `handleProviderChange`: the provider, its first model and its default address; nothing else moves. */
  function ChangeProvider(data: FormData, p: Provider): (r: FormData)
    ensures r.Keys == data.Keys + {"provider", "model_name", "base_url"}
    ensures r["provider"] == JStr(ProviderKey(p))
    ensures r["model_name"] == JStr(Config(p).models[0]) && Config(p).models[0] in Config(p).models
    ensures r["base_url"] == JStr(Config(p).defaultBaseUrl)
    ensures forall k :: k in data && k !in {"provider", "model_name", "base_url"} ==> r[k] == data[k]
  {
    data["provider" := JStr(ProviderKey(p))]
      ["model_name" := JStr(Config(p).models[0])]
      ["base_url" := JStr(Config(p).defaultBaseUrl)]
  }

  /** The form and its error messages. */
  datatype FormState = FormState(data: FormData, errors: Errors)

  /**
   * `handleChange`: the one property takes the new value; an error shown for
   * that property is blanked, and every other error stays.
   */
  function HandleChange(st: FormState, field: string, value: Json): (r: FormState)
    ensures field in r.data && r.data[field] == value
    ensures forall k :: k in st.data && k != field ==> k in r.data && r.data[k] == st.data[k]
    ensures r.data.Keys == st.data.Keys + {field}
    ensures field in st.errors && st.errors[field] != "" ==> r.errors == st.errors[field := ""]
    ensures !(field in st.errors && st.errors[field] != "") ==> r.errors == st.errors
    ensures field in r.errors ==> r.errors[field] == "" || r.errors == st.errors
  {
    var errors := if field in st.errors && st.errors[field] != "" then st.errors[field := ""] else st.errors;
    FormState(st.data[field := value], errors)
  }

  /** After an edit of a property no message is shown for it. */
  lemma HandleChangeClearsError(st: FormState, field: string, value: Json)
    ensures var r := HandleChange(st, field, value);
      field !in r.errors || r.errors[field] == ""
  {
  }

  // ---------------------------------------------------------------------
  // Validation and submission
  // ---------------------------------------------------------------------

  const NAME_REQUIRED := "Nome é obrigatório"
  const PROMPT_REQUIRED := "System prompt é obrigatório"
  const API_KEY_REQUIRED := "API Key é obrigatória"

  /** A new agent of a provider other than Ollama needs an API key. */
  predicate NeedsApiKey(data: FormData, isEditing: bool)
  {
    TextOf(data, "provider") != "ollama" && !Truthy(Get(data, "api_key")) && !isEditing
  }

  /** A text property that is all whitespace, which is what makes `trim()` empty. */
  predicate Blank(data: FormData, key: string)
  {
    IsBlank(TextOf(data, key))
  }

  /** All whitespace is exactly what `trim()` empties. */
  lemma BlankIsTrimEmpty(data: FormData, key: string)
    ensures Blank(data, key) <==> Trim(TextOf(data, key)) == ""
  {
  }

  /** The properties `validate` may flag, and the rule each one breaks. */
  predicate Breaks(data: FormData, isEditing: bool, key: string)
  {
    if key == "api_key" then NeedsApiKey(data, isEditing)
    else (key == "name" || key == "system_prompt") && Blank(data, key)
  }

  function Message(key: string): string
  {
    if key == "name" then NAME_REQUIRED
    else if key == "system_prompt" then PROMPT_REQUIRED
    else API_KEY_REQUIRED
  }

  /** `validate`'s messages: one for each rule the form breaks, under that property's name. */
  function ValidationErrors(data: FormData, isEditing: bool): (e: Errors)
    ensures "name" in e <==> Blank(data, "name")
    ensures "system_prompt" in e <==> Blank(data, "system_prompt")
    ensures "api_key" in e <==> NeedsApiKey(data, isEditing)
    ensures e.Keys <= {"name", "system_prompt", "api_key"}
    ensures "name" in e ==> e["name"] == NAME_REQUIRED
    ensures "system_prompt" in e ==> e["system_prompt"] == PROMPT_REQUIRED
    ensures "api_key" in e ==> e["api_key"] == API_KEY_REQUIRED
  {
    var e := map key | key in {"name", "system_prompt", "api_key"} && Breaks(data, isEditing, key) :: Message(key);
    e
  }

  /** `validate` answers true exactly when the name and the prompt are filled and no key is missing. */
  lemma ValidIffNoRuleBroken(data: FormData, isEditing: bool)
    ensures ValidationErrors(data, isEditing) == map[] <==>
      !Blank(data, "name") && !Blank(data, "system_prompt") && !NeedsApiKey(data, isEditing)
  {
    var e := ValidationErrors(data, isEditing);
    if e != map[] {
      var k :| k in e;
    }
  }

  /** Ollama runs locally and never asks for a key, whatever else the form holds. */
  lemma OllamaNeedsNoKey(data: FormData, isEditing: bool)
    ensures "api_key" !in ValidationErrors(ChangeProvider(data, Ollama), isEditing)
  {
  }

  /** The data sent: the form, without `api_key` when the key is empty. */
  function SubmitData(data: FormData): (r: FormData)
    ensures Truthy(Get(data, "api_key")) ==> r == data
    ensures !Truthy(Get(data, "api_key")) ==> "api_key" !in r && r.Keys == data.Keys - {"api_key"}
    ensures forall k :: k in r ==> k in data && r[k] == data[k]
  {
    if Truthy(Get(data, "api_key")) then data else data - {"api_key"}
  }

  /** `handleSubmit`: the new errors, and what `onSubmit` receives, if it is called at all. */
  function HandleSubmit(data: FormData, isEditing: bool): (r: (Errors, Option<FormData>))
    ensures r.0 == ValidationErrors(data, isEditing)
    ensures r.1.Some? <==> r.0 == map[]
    ensures r.1.Some? ==> r.1.value == SubmitData(data)
  {
    var e := ValidationErrors(data, isEditing);
    (e, if e == map[] then Some(SubmitData(data)) else None)
  }

  /** Whatever is submitted carries either a non-empty key or none at all. */
  lemma SubmittedKeyIsNeverEmpty(data: FormData, isEditing: bool)
    requires HandleSubmit(data, isEditing).1.Some?
    ensures var sent := HandleSubmit(data, isEditing).1.value;
      "api_key" !in sent || Truthy(Some(sent["api_key"]))
  {
  }

  // ---------------------------------------------------------------------
  // Accounts
  // ---------------------------------------------------------------------

  /** `formData.accounts || []`. */
  function AccountItems(data: FormData): seq<Json>
  {
    match Get(data, "accounts")
    case Some(JArr(items)) => items
    case _ => []
  }

  /** The checkbox: checking appends the account id, unchecking removes every copy of it. */
  function ToggledAccounts(data: FormData, id: string, checked: bool): (r: seq<Json>)
    ensures JStr(id) in r <==> checked
    ensures checked ==> r == AccountItems(data) + [JStr(id)]
    ensures forall x :: x != JStr(id) ==> (x in r <==> x in AccountItems(data))
  {
    var items := AccountItems(data);
    if checked then items + [JStr(id)]
    else
      FilterMembership(items, x => x != JStr(id), JStr(id));
      assert forall x :: x != JStr(id) ==> (x in Filter(items, y => y != JStr(id)) <==> x in items) by {
        forall x | x != JStr(id) ensures x in Filter(items, y => y != JStr(id)) <==> x in items {
          FilterMembership(items, y => y != JStr(id), x);
        }
      }
      Filter(items, y => y != JStr(id))
  }

  /** The checkbox's `onChange`, which goes through `handleChange`. */
  function ToggleAccount(st: FormState, id: string, checked: bool): (r: FormState)
    ensures "accounts" in r.data && r.data["accounts"] == JArr(ToggledAccounts(st.data, id, checked))
    ensures forall k :: k in st.data && k != "accounts" ==> k in r.data && r.data[k] == st.data[k]
  {
    HandleChange(st, "accounts", JArr(ToggledAccounts(st.data, id, checked)))
  }

  /** Checking an account that was not linked and unchecking it again restores the list. */
  lemma CheckThenUncheck(st: FormState, id: string)
    requires JStr(id) !in AccountItems(st.data)
    ensures AccountItems(ToggleAccount(ToggleAccount(st, id, true), id, false).data) == AccountItems(st.data)
  {
    var items := AccountItems(st.data);
    var keep := (y: Json) => y != JStr(id);
    var once := ToggleAccount(st, id, true);
    assert AccountItems(once.data) == items + [JStr(id)];
    FilterAppend(items, [JStr(id)], keep);
    FilterKeepsAll(items, keep);
    assert Filter([JStr(id)], keep) == [];
  }
}
