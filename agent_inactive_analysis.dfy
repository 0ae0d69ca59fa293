// The analysis of "the AI agent keeps answering while inactive": the debug
// check of one message, the corrected message task, the corrected webhook,
// the deactivation helper and the signal that gives every new conversation a
// handover record. The naive task the analysis starts from is kept beside the
// corrected one, with the input that shows what it gets wrong.
module AgentInactiveAnalysis {
  import opened Common
  import opened AgentDomain

  // ---------------------------------------------------------------------
  // process_message_debug
  // ---------------------------------------------------------------------

  /** Which check stopped the message, or that all of them passed. */
  datatype Check = NoAgent | AgentInactive | HandoverNotBot(status: string) | AllPassed

  /**
   * The checks of `process_message_debug`, in their order: agent configured,
   * agent active, handover (when present) in bot mode. `None` is the failed
   * lookup of the message, which raises.
   */
  function ProcessMessageDebug(db: Db, message: Id): (r: Option<Check>)
    requires db.Consistent()
    ensures r.None? <==> message !in db.messages
    ensures r.Some? ==>
      var m := db.messages[message];
      var agent := db.accounts[m.account].defaultAgent;
      && (r.value == NoAgent <==> agent.None?)
      && (r.value == AgentInactive <==> agent.Some? && !db.agents[agent.value].isActive)
      && (r.value.HandoverNotBot? <==>
            agent.Some? && db.agents[agent.value].isActive && !BotOwned(db, m.conversation))
      && (r.value == AllPassed <==> MayAnswer(db, m.account, m.conversation))
  {
    if message !in db.messages then None
    else
      var m := db.messages[message];
      var handover := HandoverOf(db, m.conversation);
      match DefaultAgent(db, m.account)
      case None => Some(NoAgent)
      case Some(agent) =>
        if !agent.isActive then Some(AgentInactive)
        else if handover.Some? && handover.value != BOT then Some(HandoverNotBot(handover.value))
        else Some(AllPassed)
  }

  /** The boolean the debug helper returns. */
  predicate DebugPasses(db: Db, message: Id)
    requires db.Consistent()
  {
    ProcessMessageDebug(db, message) == Some(AllPassed)
  }

  // ---------------------------------------------------------------------
  // process_whatsapp_message, naive and corrected
  // ---------------------------------------------------------------------

  /**
   * What a run of the message task does: nothing, or ask `agent` to answer `prompt`
   * and send the reply from `account` to `recipient`.
   */
  datatype TaskOutcome = Skipped | Replied(agent: Id, account: Id, recipient: string, prompt: string)

  /** The reply the message task sends for a message whose account has `agent` as default agent. */
  function ReplyTo(m: Message, agent: Id): TaskOutcome
  {
    Replied(agent, m.account, m.sender, m.content)
  }

  /** The message task as the analysis first finds it: any configured agent answers. */
  function NaiveProcessMessage(db: Db, message: Id): (r: Option<TaskOutcome>)
    requires db.Consistent()
    ensures r.None? <==> message !in db.messages
    ensures r.Some? ==> (r.value.Replied? <==> db.accounts[db.messages[message].account].defaultAgent.Some?)
  {
    if message !in db.messages then None
    else
      var m := db.messages[message];
      match db.accounts[m.account].defaultAgent
      case None => Some(Skipped)
      case Some(agent) => Some(ReplyTo(m, agent))
  }

  /**
   * The corrected task: it returns early without an agent, with an inactive
   * agent, or when the handover status (default 'bot') is not 'bot'.
   */
  function ProcessMessage(db: Db, message: Id): (r: Option<TaskOutcome>)
    requires db.Consistent()
    ensures r.None? <==> message !in db.messages
    ensures r.Some? ==>
      var m := db.messages[message];
      (r.value.Replied? <==> MayAnswer(db, m.account, m.conversation))
    ensures r.Some? && r.value.Replied? ==>
      var m := db.messages[message];
      r.value == ReplyTo(m, db.accounts[m.account].defaultAgent.value)
  {
    if message !in db.messages then None
    else
      var m := db.messages[message];
      match db.accounts[m.account].defaultAgent
      case None => Some(Skipped)
      case Some(agent) =>
        if !db.agents[agent].isActive then Some(Skipped)
        else
          var status := if m.conversation in db.handovers then db.handovers[m.conversation] else BOT;
          if status != BOT then Some(Skipped)
          else Some(ReplyTo(m, agent))
  }

  /** The corrected task replies exactly when the debug helper reports that every check passed. */
  lemma TaskAgreesWithDebug(db: Db, message: Id)
    requires db.Consistent() && message in db.messages
    ensures ProcessMessage(db, message).value.Replied? <==> DebugPasses(db, message)
  {
  }

  /** The corrected task only ever narrows the naive one: it never replies where the naive one stays silent. */
  lemma CorrectedTaskNarrowsNaive(db: Db, message: Id)
    requires db.Consistent() && message in db.messages
    ensures ProcessMessage(db, message).value.Replied? ==> NaiveProcessMessage(db, message).value.Replied?
    ensures ProcessMessage(db, message).value.Replied? ==>
              ProcessMessage(db, message) == NaiveProcessMessage(db, message)
  {
  }

  /** A small database: one inactive agent, the account using it and one inbound message. */
  function InactiveAgentDb(): (db: Db)
    ensures db.Consistent()
  {
    Db(map["agent" := Agent("Atendente", false)],
       map["account" := Account(Some("agent"))],
       map["conversation" := Conversation("account", "active")],
       map[],
       map["message" := Message("account", "conversation", "inbound", "Oi", "5563999990000")])
  }

  /** The symptom the analysis starts from: the naive task answers for an inactive agent. */
  lemma NaiveTaskAnswersForInactiveAgent()
    ensures var db := InactiveAgentDb();
      && !db.agents["agent"].isActive
      && NaiveProcessMessage(db, "message").value.Replied?
      && !ProcessMessage(db, "message").value.Replied?
  {
  }

  // ---------------------------------------------------------------------
  // WhatsAppWebhookView.post (corrected)
  // ---------------------------------------------------------------------

  /** The AI job queued by the webhook: `process_with_ai.delay(message.id, agent.id)`. */
  datatype AiJob = AiJob(message: Id, agent: Id)

  /** HTTP status, the queued job if any, and whether the operators were notified. */
  datatype WebhookResponse = WebhookResponse(status: int, job: Option<AiJob>, notified: bool)

  /**
   * The corrected webhook. `account` is what `get_account` found for the
   * phone number id; `(id, m)` is the message `save_message` stores, with
   * `m` already attached to that account and to an existing conversation.
   * 404 without an account; otherwise the message is stored and 200 is
   * returned, with AI work queued only when the agent is present and active
   * and the conversation is in bot mode.
   */
  method WebhookPost(b: Backend, account: Option<Id>, id: Id, m: Message) returns (r: WebhookResponse)
    requires b.db.Consistent()
    requires account.Some? ==> account.value in b.db.accounts && m.account == account.value
    requires m.conversation in b.db.conversations
    modifies b
    ensures b.cache == old(b.cache)
    ensures account.None? ==> r == WebhookResponse(404, None, false) && b.db == old(b.db)
    ensures account.Some? ==>
      && b.db == old(b.db).(messages := old(b.db.messages)[id := m])
      && r.status == 200
      && (r.job.Some? <==> MayAnswer(old(b.db), m.account, m.conversation))
      && (r.job.Some? ==> r.job.value == AiJob(id, old(b.db).accounts[m.account].defaultAgent.value))
      && (r.notified <==> AgentReady(old(b.db), m.account) && !BotOwned(old(b.db), m.conversation))
    ensures b.db.Consistent()
  {
    if account.None? {
      return WebhookResponse(404, None, false);
    }
    b.db := b.db.(messages := b.db.messages[id := m]);
    var agent := b.db.accounts[m.account].defaultAgent;
    if agent.None? || !b.db.agents[agent.value].isActive {
      return WebhookResponse(200, None, false);
    }
    var handover := HandoverOf(b.db, m.conversation);
    if handover.Some? && handover.value != BOT {
      // notify_new_message_for_human(conversation, message)
      return WebhookResponse(200, None, true);
    }
    r := WebhookResponse(200, Some(AiJob(id, agent.value)), false);
  }

  // ---------------------------------------------------------------------
  // deactivate_agent
  // ---------------------------------------------------------------------

  /**
   * Marks the agent inactive and drops its configuration key and the agent
   * key of every account using it. A missing agent raises before anything
   * changes (`found` is false).
   */
  method DeactivateAgent(b: Backend, agent: Id) returns (found: bool)
    modifies b
    ensures found <==> agent in old(b.db.agents)
    ensures !found ==> b.db == old(b.db) && b.cache == old(b.cache)
    ensures found ==>
      && b.db == old(b.db).(agents := old(b.db.agents)[agent := old(b.db.agents)[agent].(isActive := false)])
      && b.cache == old(b.cache) - DeactivationKeys(old(b.db), agent)
  {
    if agent !in b.db.agents {
      return false;
    }
    var db0 := b.db;
    b.db := b.db.(agents := b.db.agents[agent := b.db.agents[agent].(isActive := false)]);
    assert AccountsUsing(b.db, agent) == AccountsUsing(db0, agent);
    b.cache := b.cache - {"agent_config:" + agent};
    b.DeleteForEach(AccountsUsing(b.db, agent), ["account_agent:"]);
    found := true;
  }

  /** Database after `deactivate_agent` has saved the agent. */
  function Deactivated(db: Db, agent: Id): (r: Db)
    requires agent in db.agents
    ensures db.Consistent() ==> r.Consistent()
    ensures r.agents.Keys == db.agents.Keys && !r.agents[agent].isActive
  {
    db.(agents := db.agents[agent := db.agents[agent].(isActive := false)])
  }

  /**
   * After the deactivation no message of an account using the agent gets an
   * AI reply from the corrected task, whatever its handover status.
   */
  lemma DeactivationSilencesTask(db: Db, agent: Id, message: Id)
    requires db.Consistent() && agent in db.agents && message in db.messages
    requires db.accounts[db.messages[message].account].defaultAgent == Some(agent)
    ensures !ProcessMessage(Deactivated(db, agent), message).value.Replied?
  {
  }

  // ---------------------------------------------------------------------
  // ensure_handover_exists (post_save of Conversation)
  // ---------------------------------------------------------------------

  /** Handover records after the signal ran for `conversation`. */
  function EnsuredHandovers(handovers: map<Id, string>, conversation: Id, created: bool): (r: map<Id, string>)
    ensures created ==> conversation in r
    ensures conversation in handovers ==> r == handovers
    ensures r.Keys <= handovers.Keys + {conversation}
    ensures conversation !in handovers && created ==> r[conversation] == BOT
  {
    if created && conversation !in handovers then handovers[conversation := BOT] else handovers
  }

  /**
   * The signal acts on creation only and goes through get-or-create with
   * status 'bot'; an existing record is never replaced.
   */
  method EnsureHandoverExists(b: Backend, conversation: Id, created: bool)
    requires conversation in b.db.conversations
    modifies b
    ensures b.db == old(b.db).(handovers := EnsuredHandovers(old(b.db.handovers), conversation, created))
    ensures b.cache == old(b.cache)
    ensures old(b.db).Consistent() ==> b.db.Consistent()
  {
    if created {
      if conversation !in b.db.handovers {
        b.db := b.db.(handovers := b.db.handovers[conversation := BOT]);
      }
    }
  }

  /** Running the signal again changes nothing: there is never a second record. */
  lemma EnsureHandoverIdempotent(handovers: map<Id, string>, conversation: Id, created: bool)
    ensures var once := EnsuredHandovers(handovers, conversation, created);
      EnsuredHandovers(once, conversation, created) == once
  {
  }

  /** A freshly created conversation is answered by the AI exactly when its account's agent is active. */
  lemma NewConversationStartsInBotMode(db: Db, conversation: Id)
    requires db.Consistent() && conversation in db.conversations && conversation !in db.handovers
    ensures var db1 := db.(handovers := EnsuredHandovers(db.handovers, conversation, true));
      && db1.Consistent()
      && BotOwned(db1, conversation)
      && (MayAnswer(db1, db.conversations[conversation].account, conversation) <==>
            AgentReady(db, db.conversations[conversation].account))
  {
  }
}
