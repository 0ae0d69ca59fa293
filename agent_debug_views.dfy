// The diagnostic and override endpoints for the AI agent: the
// agent-status report with its "would the agent respond" verdict, the forced
// handover of one conversation, and the forced deactivation of an agent with
// its sweep of the agent's active conversations to human mode.
module AgentDebugViews {
  import opened Common
  import opened AgentDomain

  /** The `checks` dictionary of the report; `None` is a key that was never set. */
  datatype Checks = Checks(agentActive: Option<bool>, agentError: Option<string>, handoverBotMode: Option<bool>)

  datatype DebugReport = DebugReport(checks: Checks, error: Option<string>, agentWouldRespond: bool)

  const NO_CHECKS: Checks := Checks(None, None, None)

  /**
   * `all([checks.get('agent_active', False), checks.get('handover_bot_mode', True)])`:
   * an absent agent check counts as inactive, an absent handover check as bot mode.
   */
  function Verdict(c: Checks): (r: bool)
    ensures r <==> c.agentActive == Some(true) && c.handoverBotMode != Some(false)
  {
    GetOr(c.agentActive, false) && GetOr(c.handoverBotMode, true)
  }

  /** The agent check shared by both paths of the report. */
  function AgentChecks(db: Db, account: Id, withError: bool): (c: Checks)
    requires db.Consistent() && account in db.accounts
    ensures c.agentActive == Some(DefaultAgent(db, account).Some? && DefaultAgent(db, account).value.isActive)
    ensures c.handoverBotMode == None
  {
    match DefaultAgent(db, account)
    case Some(agent) => Checks(Some(agent.isActive), None, None)
    case None => Checks(Some(false), if withError then Some("No default agent") else None, None)
  }

  /** The checks recorded for a conversation that exists. */
  function ConversationChecks(db: Db, conversation: Id): Checks
    requires db.Consistent() && conversation in db.conversations
  {
    var c := AgentChecks(db, db.conversations[conversation].account, true);
    c.(handoverBotMode := Some(conversation !in db.handovers || db.handovers[conversation] == BOT))
  }

  /** `AgentDebugView.get`: conversation path first, account path otherwise. */
  function AgentDebug(db: Db, conversationId: Option<Id>, accountId: Option<Id>): (r: DebugReport)
    requires db.Consistent()
    ensures r.agentWouldRespond == Verdict(r.checks)
  {
    var (checks, error) :=
      if Given(conversationId) then
        if conversationId.value in db.conversations then (ConversationChecks(db, conversationId.value), None)
        else (NO_CHECKS, Some("Conversation matching query does not exist."))
      else if Given(accountId) then
        if accountId.value in db.accounts then (AgentChecks(db, accountId.value, false), None)
        else (NO_CHECKS, Some("WhatsAppAccount matching query does not exist."))
      else (NO_CHECKS, None);
    DebugReport(checks, error, Verdict(checks))
  }

  /** What a GET request yields: the report, or an exception no `try` catches, which the server answers with status 500. */
  datatype DebugOutcome = Reported(report: DebugReport) | Uncaught(exception: string)

  /**
   * `AgentDebugView.get` as written: the report starts with the timestamp
   * `timezone.now()`, but the module never imports `timezone`, so that name
   * lookup fails before any check runs and outside every `try`.
   */
  function AgentDebugAsWritten(db: Db, conversationId: Option<Id>, accountId: Option<Id>): (r: DebugOutcome)
    requires db.Consistent()
    ensures r.Uncaught? && r.exception == "NameError"
  {
    Uncaught("NameError")
  }

  /** As written, no request ever receives the report the checks would make, whatever it asks about. */
  lemma AgentDebugAsWrittenNeverReports(db: Db, conversationId: Option<Id>, accountId: Option<Id>)
    requires db.Consistent()
    ensures AgentDebugAsWritten(db, conversationId, accountId) != Reported(AgentDebug(db, conversationId, accountId))
  {
  }

  /** For an existing conversation the verdict is exactly the eligibility rule. */
  lemma ConversationVerdictIsMayAnswer(db: Db, conversation: Id, accountId: Option<Id>)
    requires db.Consistent() && conversation in db.conversations && conversation != ""
    ensures AgentDebug(db, Some(conversation), accountId).agentWouldRespond
            == MayAnswer(db, db.conversations[conversation].account, conversation)
  {
  }

  /** Without a handover record the conversation is reported in bot mode. */
  lemma NoHandoverIsBotMode(db: Db, conversation: Id)
    requires db.Consistent() && conversation in db.conversations && conversation !in db.handovers
    ensures ConversationChecks(db, conversation).handoverBotMode == Some(true)
  {
  }

  /** With a handover record, bot mode is its status being 'bot'. */
  lemma HandoverBotModeIff(db: Db, conversation: Id)
    requires db.Consistent() && conversation in db.handovers
    ensures ConversationChecks(db, conversation).handoverBotMode == Some(db.handovers[conversation] == BOT)
  {
  }

  /** An account without a default agent is flagged and never answered. */
  lemma NoDefaultAgentNeverResponds(db: Db, conversation: Id)
    requires db.Consistent() && conversation in db.conversations
    requires db.accounts[db.conversations[conversation].account].defaultAgent == None
    ensures ConversationChecks(db, conversation).agentActive == Some(false)
    ensures ConversationChecks(db, conversation).agentError == Some("No default agent")
    ensures !Verdict(ConversationChecks(db, conversation))
  {
  }

  /** The account-only path records no handover check, so the verdict is the agent's own flag. */
  lemma AccountPathVerdict(db: Db, account: Id)
    requires db.Consistent() && account in db.accounts && account != ""
    ensures AgentDebug(db, None, Some(account)).checks.handoverBotMode == None
    ensures AgentDebug(db, None, Some(account)).agentWouldRespond
            == (db.accounts[account].defaultAgent.Some? && db.agents[db.accounts[account].defaultAgent.value].isActive)
  {
  }

  /** A failed lookup records no checks, so the verdict is false. */
  lemma UnknownConversationNeverResponds(db: Db, conversation: Id)
    requires db.Consistent() && conversation != "" && conversation !in db.conversations
    ensures AgentDebug(db, Some(conversation), None).error.Some?
    ensures !AgentDebug(db, Some(conversation), None).agentWouldRespond
  {
  }

  // ---------------------------------------------------------------------
  // ConversationForceHandoverView.post
  // ---------------------------------------------------------------------

  datatype HandoverResponse =
    | BadTarget                 // 400
    | HandoverFailed            // 500: the conversation does not exist
    | Switched(conversationId: Id, newStatus: string, reason: string)

  const DEFAULT_REASON: string := "Manual override"

  predicate ValidTarget(target: Option<string>)
  {
    target == Some(BOT) || target == Some(HUMAN)
  }

  /**
   * Forces a conversation into bot or human mode. The target is validated
   * before anything is read; a missing handover record is created in bot mode
   * and then transferred, so the final status is the target.
   */
  method ForceHandover(b: Backend, conversation: Id, target: Option<string>, reason: Option<string>)
    returns (r: HandoverResponse)
    modifies b
    ensures b.cache == old(b.cache)
    ensures !ValidTarget(target) ==> r == BadTarget && b.db == old(b.db)
    ensures ValidTarget(target) && conversation !in old(b.db.conversations) ==>
              r == HandoverFailed && b.db == old(b.db)
    ensures ValidTarget(target) && conversation in old(b.db.conversations) ==>
              && b.db == old(b.db).(handovers := old(b.db.handovers)[conversation := target.value])
              && r == Switched(conversation, target.value, GetOr(reason, DEFAULT_REASON))
  {
    var why := GetOr(reason, DEFAULT_REASON);
    if !ValidTarget(target) {
      return BadTarget;
    }
    if conversation !in b.db.conversations {
      return HandoverFailed;
    }
    // get_or_create(conversation, defaults={'status': 'bot'})
    if conversation !in b.db.handovers {
      b.db := b.db.(handovers := b.db.handovers[conversation := BOT]);
    }
    // transfer_to_bot / transfer_to_human
    var status := if target.value == BOT then BOT else HUMAN;
    b.db := b.db.(handovers := b.db.handovers[conversation := status]);
    r := Switched(conversation, b.db.handovers[conversation], why);
  }

  // ---------------------------------------------------------------------
  // AgentForceDeactivateView.post
  // ---------------------------------------------------------------------

  datatype DeactivateResponse =
    | Deactivated(agentId: Id, isActive: bool, conversationsTransferred: nat)
    | DeactivateFailed          // 500: the agent does not exist

  /** An active conversation of an account whose default agent is `agent`. */
  predicate InSweep(db: Db, agent: Id, c: Id)
  {
    && c in db.conversations
    && db.conversations[c].status == "active"
    && db.conversations[c].account in db.accounts
    && db.accounts[db.conversations[c].account].defaultAgent == Some(agent)
  }

  /** `Conversation.objects.filter(account__default_agent=agent, status='active')`. */
  function ActiveConversationsOf(db: Db, agent: Id): set<Id>
  {
    set c | c in db.conversations && InSweep(db, agent, c)
  }

  /** A conversation the sweep hands to a human: in the sweep and bot-owned. */
  predicate Transferable(db: Db, agent: Id, c: Id)
  {
    InSweep(db, agent, c) && BotOwned(db, c)
  }

  function ToTransfer(db: Db, agent: Id): set<Id>
  {
    set c | c in db.conversations && Transferable(db, agent, c)
  }

  /** Handover records once the conversations in `done` have been visited. */
  function SweptHandovers(db: Db, agent: Id, done: set<Id>): map<Id, string>
  {
    map c | c in db.handovers.Keys + (set d | d in done && Transferable(db, agent, d)) ::
      if c in done && Transferable(db, agent, c) then HUMAN else db.handovers[c]
  }

  lemma TransferredAreActive(db: Db, agent: Id)
    ensures ToTransfer(db, agent) <= ActiveConversationsOf(db, agent)
  {
  }

  /** Once every active conversation is visited, the count covers all of `ToTransfer`. */
  lemma SweepCountFinished(db: Db, agent: Id, done: set<Id>)
    requires done == ActiveConversationsOf(db, agent)
    ensures |done * ToTransfer(db, agent)| == |ToTransfer(db, agent)|
  {
    TransferredAreActive(db, agent);
    assert done * ToTransfer(db, agent) == ToTransfer(db, agent);
  }

  /** One step of the sweep: conversation `c` is handled and no other record moves. */
  lemma SweepStep(db: Db, agent: Id, done: set<Id>, c: Id)
    requires c in ActiveConversationsOf(db, agent) && c !in done
    ensures c in SweptHandovers(db, agent, done) <==> c in db.handovers
    ensures c in db.handovers ==> SweptHandovers(db, agent, done)[c] == db.handovers[c]
    ensures SweptHandovers(db, agent, done + {c}) ==
      SweptHandovers(db, agent, done)[c := if BotOwned(db, c) then HUMAN else db.handovers[c]]
  {
  }

  /** One step of the count: `c` adds one exactly when it is bot-owned. */
  lemma CountStep(db: Db, agent: Id, done: set<Id>, c: Id)
    requires c in ActiveConversationsOf(db, agent) && c !in done
    ensures |(done + {c}) * ToTransfer(db, agent)| ==
      |done * ToTransfer(db, agent)| + (if BotOwned(db, c) then 1 else 0)
  {
    var t := ToTransfer(db, agent);
    if BotOwned(db, c) {
      assert (done + {c}) * t == done * t + {c};
    } else {
      assert (done + {c}) * t == done * t;
    }
  }

  /** State of the sweep once the conversations in `done` are visited and `remaining` are left. */
  ghost predicate SweepInvariant(db: Db, agent: Id, remaining: set<Id>, done: set<Id>, h: map<Id, string>, count: nat)
  {
    && remaining <= ActiveConversationsOf(db, agent)
    && done == ActiveConversationsOf(db, agent) - remaining
    && h == SweptHandovers(db, agent, done)
    && count == |done * ToTransfer(db, agent)|
  }

  /** Before the sweep nothing is visited and no record has moved. */
  lemma SweepStarts(db: Db, agent: Id)
    ensures SweepInvariant(db, agent, ActiveConversationsOf(db, agent), {}, db.handovers, 0)
  {
    assert SweptHandovers(db, agent, {}) == db.handovers;
  }

  /** The loop invariant of the sweep survives handling one more conversation. */
  lemma SweepInvariantStep(db: Db, agent: Id, remaining: set<Id>, done: set<Id>, h: map<Id, string>, count: nat, c: Id)
    requires SweepInvariant(db, agent, remaining, done, h, count) && c in remaining
    ensures var status := if c in h then h[c] else BOT;
      SweepInvariant(db, agent, remaining - {c}, done + {c},
        h[c := if status == BOT then HUMAN else status], count + if status == BOT then 1 else 0)
  {
    SweepStep(db, agent, done, c);
    CountStep(db, agent, done, c);
  }

  /**
   * The loop of the view: every active conversation of the agent gets a
   * handover record (created in bot mode when missing), and the bot-owned ones
   * are transferred to a human and counted.
   */
  method TransferActiveConversations(db0: Db, agent: Id) returns (h: map<Id, string>, transferred: nat)
    ensures h == SweptHandovers(db0, agent, ActiveConversationsOf(db0, agent))
    ensures transferred == |ToTransfer(db0, agent)|
  {
    var remaining := ActiveConversationsOf(db0, agent);
    h := db0.handovers;
    ghost var done: set<Id> := {};
    transferred := 0;
    SweepStarts(db0, agent);
    while remaining != {}
      invariant SweepInvariant(db0, agent, remaining, done, h, transferred)
      decreases |remaining|
    {
      var c :| c in remaining;
      // get_or_create(conversation, defaults={'status': 'bot'})
      var status := if c in h then h[c] else BOT;
      var next := if status == BOT then HUMAN else status;
      SweepInvariantStep(db0, agent, remaining, done, h, transferred, c);
      if status == BOT {
        transferred := transferred + 1;
      }
      h := h[c := next];
      remaining := remaining - {c};
      done := done + {c};
    }
    SweepCountFinished(db0, agent, done);
  }

  method ForceDeactivate(b: Backend, agent: Id, cacheWorks: bool) returns (r: DeactivateResponse)
    modifies b
    ensures agent !in old(b.db.agents) ==> r == DeactivateFailed && b.db == old(b.db) && b.cache == old(b.cache)
    ensures agent in old(b.db.agents) ==>
      && b.db == old(b.db).(
           agents := old(b.db.agents)[agent := old(b.db.agents)[agent].(isActive := false)],
           handovers := SweptHandovers(old(b.db), agent, ActiveConversationsOf(old(b.db), agent)))
      && b.cache == (if cacheWorks then old(b.cache) - DeactivationKeys(old(b.db), agent) else old(b.cache))
      && r == Deactivated(agent, false, |ToTransfer(old(b.db), agent)|)
  {
    if agent !in b.db.agents {
      return DeactivateFailed;
    }
    var db0 := b.db;
    b.db := b.db.(agents := b.db.agents[agent := b.db.agents[agent].(isActive := false)]);
    assert ActiveConversationsOf(b.db, agent) == ActiveConversationsOf(db0, agent);
    assert ToTransfer(b.db, agent) == ToTransfer(db0, agent);
    assert forall d :: SweptHandovers(b.db, agent, d) == SweptHandovers(db0, agent, d);
    // A failing cache only logs a warning; the sweep goes on.
    if cacheWorks {
      b.cache := b.cache - {"agent_config:" + agent};
      b.DeleteForEach(AccountsUsing(db0, agent), ["account_agent:"]);
    }
    var h, transferred := TransferActiveConversations(b.db, agent);
    b.db := b.db.(handovers := h);
    r := Deactivated(agent, false, transferred);
  }

  /** After the sweep no conversation of the agent is left in bot mode. */
  lemma SweepLeavesNoBotConversation(db: Db, agent: Id)
    ensures forall c :: c in ActiveConversationsOf(db, agent) ==>
      var h := SweptHandovers(db, agent, ActiveConversationsOf(db, agent));
      c in h && h[c] != BOT
  {
  }

  /** The sweep changes only conversations it transfers; every other record keeps its status. */
  lemma SweepTouchesOnlyTransferred(db: Db, agent: Id)
    ensures var h := SweptHandovers(db, agent, ActiveConversationsOf(db, agent));
      && h.Keys == db.handovers.Keys + ToTransfer(db, agent)
      && forall c :: c in db.handovers && c !in ToTransfer(db, agent) ==> h[c] == db.handovers[c]
  {
  }
}
