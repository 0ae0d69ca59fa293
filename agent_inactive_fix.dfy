// The backend patch for "the AI agent keeps answering while inactive": the
// message task with its four guards, the `pre_save` signal that drops cached
// agent data when an agent goes from active to inactive, and the decorator
// that lets a wrapped call through only for an active agent, reading the
// flag through the cache first.
module AgentInactiveFix {
  import opened Common
  import opened AgentDomain
  import opened AgentInactiveAnalysis

  // ---------------------------------------------------------------------
  // process_whatsapp_message (patched)
  // ---------------------------------------------------------------------

  /**
   * The patched task: no agent, an inactive agent, a handover status (default
   * 'bot') other than 'bot', or an outbound message each end the message task before
   * the agent is asked. `None` is the failed lookup, which is re-raised.
   */
  function PatchedProcessMessage(db: Db, message: Id): (r: Option<TaskOutcome>)
    requires db.Consistent()
    ensures r.None? <==> message !in db.messages
    ensures r.Some? ==>
      var m := db.messages[message];
      (r.value.Replied? <==> MayAnswer(db, m.account, m.conversation) && m.direction != "outbound")
    ensures r.Some? && r.value.Replied? ==>
      var m := db.messages[message];
      r.value == ReplyTo(m, db.accounts[m.account].defaultAgent.value)
  {
    if message !in db.messages then None
    else
      var m := db.messages[message];
      match db.accounts[m.account].defaultAgent
      case None => Some(Skipped)
      case Some(agent) =>
        if !db.agents[agent].isActive then Some(Skipped)
        else
          var status := if m.conversation in db.handovers then db.handovers[m.conversation] else BOT;
          if status != BOT then Some(Skipped)
          else if m.direction == "outbound" then Some(Skipped)
          else Some(ReplyTo(m, agent))
  }

  /**
   * The patch adds exactly one guard to the corrected task of the analysis:
   * on inbound messages the two agree, and the bot's own messages are never
   * answered.
   */
  lemma PatchedTaskRefinesCorrected(db: Db, message: Id)
    requires db.Consistent() && message in db.messages
    ensures db.messages[message].direction != "outbound" ==>
              PatchedProcessMessage(db, message) == ProcessMessage(db, message)
    ensures db.messages[message].direction == "outbound" ==>
              PatchedProcessMessage(db, message) == Some(Skipped)
  {
  }

  // ---------------------------------------------------------------------
  // invalidate_agent_cache (pre_save of Agent)
  // ---------------------------------------------------------------------

  /**
   * The signal acts only for an agent that is already stored (`pk` set and
   * found) whose stored flag is true while the instance being saved has it
   * false.
   */
  predicate SignalFires(db: Db, pk: Option<Id>, instance: Agent)
  {
    pk.Some? && pk.value in db.agents && db.agents[pk.value].isActive && !instance.isActive
  }

  /** The keys the signal deletes: two per agent, two per account using it. */
  function InvalidationKeys(db: Db, agent: Id): (r: set<string>)
    ensures "agent_config:" + agent in r && "agent:" + agent in r
    ensures forall a :: a in AccountsUsing(db, agent) ==> "account_agent:" + a in r && "account_config:" + a in r
  {
    {"agent_config:" + agent, "agent:" + agent} + KeysFor(["account_agent:", "account_config:"], AccountsUsing(db, agent))
  }

  /**
   * The signal as written: on the active-to-inactive transition it deletes the
   * agent's keys and, in a loop over the accounts using the agent, their two
   * keys each. It reads the database and changes nothing in it.
   */
  method InvalidateAgentCache(b: Backend, pk: Option<Id>, instance: Agent)
    modifies b
    ensures b.db == old(b.db)
    ensures b.cache == if SignalFires(old(b.db), pk, instance)
                       then old(b.cache) - InvalidationKeys(old(b.db), pk.value)
                       else old(b.cache)
  {
    if pk.None? || pk.value !in b.db.agents {
      // A new agent, or Agent.DoesNotExist: nothing to do.
      return;
    }
    var agent := pk.value;
    var stored := b.db.agents[agent];
    if stored.isActive && !instance.isActive {
      b.cache := b.cache - {"agent_config:" + agent};
      b.cache := b.cache - {"agent:" + agent};
      b.DeleteForEach(AccountsUsing(b.db, agent), ["account_agent:", "account_config:"]);
      assert {"agent_config:" + agent} + {"agent:" + agent} + KeysFor(["account_agent:", "account_config:"], AccountsUsing(b.db, agent))
        == InvalidationKeys(b.db, agent);
    }
  }

  /** The keys the signal drops cover those `deactivate_agent` of the analysis drops. */
  lemma InvalidationCoversDeactivation(db: Db, agent: Id)
    ensures DeactivationKeys(db, agent) <= InvalidationKeys(db, agent)
  {
    forall k | k in DeactivationKeys(db, agent)
      ensures k in InvalidationKeys(db, agent)
    {
      if k != "agent_config:" + agent {
        var a :| a in AccountsUsing(db, agent) && k == "account_agent:" + a;
      }
    }
  }

  // ---------------------------------------------------------------------
  // require_active_agent
  // ---------------------------------------------------------------------

  /** A positional argument of the wrapped call: an account or a message. */
  datatype Arg = AccountArg(account: Id) | MessageArg(message: Id)

  /** `kwargs.get('account') or (args[0] if args else None)`, as written. */
  function WrapperAccount(kwAccount: Option<Id>, args: seq<Arg>): (r: Option<Arg>)
    ensures kwAccount.Some? ==> r == Some(AccountArg(kwAccount.value))
    ensures kwAccount.None? ==> (r.Some? <==> |args| > 0)
    ensures kwAccount.None? && |args| > 0 ==> r == Some(args[0])
  {
    if kwAccount.Some? then Some(AccountArg(kwAccount.value))
    else if |args| > 0 then Some(args[0])
    else None
  }

  /** `getattr(account, 'default_agent', None)`: only an account has an agent. */
  function AgentOf(db: Db, account: Option<Arg>): (r: Option<Id>)
    requires db.Consistent()
    ensures r.Some? ==> r.value in db.agents
    ensures r.Some? ==> account.Some? && account.value.AccountArg?
  {
    match account
    case None => None
    case Some(MessageArg(_)) => None
    case Some(AccountArg(a)) => if a in db.accounts then db.accounts[a].defaultAgent else None
  }

  /** The cache key of the decorator's flag. */
  function ActiveKey(agent: Id): string
  {
    "agent_active:" + agent
  }

  /**
   * Whether the decorator lets the wrapped call through: the cached flag when
   * the key is present, else the agent's stored flag.
   */
  predicate DecoratorCalls(db: Db, cache: map<string, CacheValue>, account: Option<Arg>)
    requires db.Consistent()
  {
    match AgentOf(db, account)
    case None => false
    case Some(agent) =>
      if ActiveKey(agent) in cache then PyTruthy(cache[ActiveKey(agent)]) else db.agents[agent].isActive
  }

  /**
   * The decorator: without an account or agent it returns None at once; on a
   * cache miss it reads the agent and stores the flag for 300 seconds; the
   * wrapped function runs (`called`) exactly when the flag is true.
   */
  method RequireActiveAgent(b: Backend, kwAccount: Option<Id>, args: seq<Arg>) returns (called: bool)
    requires b.db.Consistent()
    modifies b
    ensures b.db == old(b.db)
    ensures called == DecoratorCalls(old(b.db), old(b.cache), WrapperAccount(kwAccount, args))
    ensures var agent := AgentOf(old(b.db), WrapperAccount(kwAccount, args));
      b.cache == if agent.Some? && ActiveKey(agent.value) !in old(b.cache)
                 then old(b.cache)[ActiveKey(agent.value) := Flag(old(b.db).agents[agent.value].isActive, 300)]
                 else old(b.cache)
  {
    var account := WrapperAccount(kwAccount, args);
    var agent := AgentOf(b.db, account);
    if agent.None? {
      return false;
    }
    var key := ActiveKey(agent.value);
    var isActive: bool;
    if key in b.cache {
      isActive := PyTruthy(b.cache[key]);
    } else {
      isActive := b.db.agents[agent.value].isActive;
      b.cache := b.cache[key := Flag(isActive, 300)];
    }
    called := isActive;
  }

  /** Without an account, or with an account lacking a default agent, nothing runs. */
  lemma DecoratorNeedsAgent(db: Db, cache: map<string, CacheValue>, account: Option<Arg>)
    requires db.Consistent()
    requires account.None? || (account.value.AccountArg? && account.value.account in db.accounts &&
                               db.accounts[account.value.account].defaultAgent.None?)
    ensures !DecoratorCalls(db, cache, account)
  {
  }

  /** On a cache hit the stored agent is not consulted: any change to it goes unseen. */
  lemma CacheHitIgnoresStore(db: Db, cache: map<string, CacheValue>, account: Option<Arg>, active: bool)
    requires db.Consistent()
    requires AgentOf(db, account).Some? && ActiveKey(AgentOf(db, account).value) in cache
    ensures var agent := AgentOf(db, account).value;
      var db1 := db.(agents := db.agents[agent := db.agents[agent].(isActive := active)]);
      db1.Consistent() && DecoratorCalls(db1, cache, account) == DecoratorCalls(db, cache, account)
  {
    var agent := AgentOf(db, account).value;
    var db1 := db.(agents := db.agents[agent := db.agents[agent].(isActive := active)]);
    assert AgentOf(db1, account) == AgentOf(db, account);
  }

  /** A second call right after the first decides the same way, now from the cache. */
  lemma DecoratorStable(db: Db, cache: map<string, CacheValue>, account: Option<Arg>)
    requires db.Consistent() && AgentOf(db, account).Some?
    ensures var agent := AgentOf(db, account).value;
      var cache1 := if ActiveKey(agent) in cache then cache
                    else cache[ActiveKey(agent) := Flag(db.agents[agent].isActive, 300)];
      DecoratorCalls(db, cache1, account) == DecoratorCalls(db, cache, account)
  {
  }

  // ---------------------------------------------------------------------
  // Findings
  // ---------------------------------------------------------------------

  /** One active agent with a fresh cached flag, and the account using it. */
  function CachedActiveDb(): (db: Db)
    ensures db.Consistent()
  {
    Db(map["agent" := Agent("Atendente", true)],
       map["account" := Account(Some("agent"))],
       map[], map[], map[])
  }

  /**
   * As written, the signal leaves `agent_active:<id>` in place, so for up to
   * 300 seconds after the agent is saved as inactive the decorator still runs
   * the wrapped call.
   */
  lemma StaleFlagSurvivesInvalidation()
    ensures var db := CachedActiveDb();
      var cache := map[ActiveKey("agent") := Flag(true, 300)];
      var db1 := Deactivated(db, "agent");
      && SignalFires(db, Some("agent"), db1.agents["agent"])
      && !db1.agents["agent"].isActive
      && DecoratorCalls(db1, cache - InvalidationKeys(db, "agent"), Some(AccountArg("account")))
  {
    ActiveKeyNeverInvalidated(CachedActiveDb(), "agent");
  }

  /** No key the signal deletes is the decorator's flag of that agent. */
  lemma ActiveKeyNeverInvalidated(db: Db, agent: Id)
    ensures ActiveKey(agent) !in InvalidationKeys(db, agent)
  {
    var key := ActiveKey(agent);
    var prefixes := ["account_agent:", "account_config:"];
    var keys := KeysFor(prefixes, AccountsUsing(db, agent));
    forall k | k in keys
      ensures k[1] == 'c'
    {
      var p, a :| p in prefixes && a in AccountsUsing(db, agent) && k == p + a;
      assert k[1] == p[1];
    }
    assert key[1] == 'g';
    assert key[6] != ("agent_config:" + agent)[6];
    assert key[5] != ("agent:" + agent)[5];
  }

  /** The signal's keys plus the decorator's own flag. */
  function CorrectedInvalidationKeys(db: Db, agent: Id): (r: set<string>)
    ensures InvalidationKeys(db, agent) <= r && ActiveKey(agent) in r
  {
    InvalidationKeys(db, agent) + {ActiveKey(agent)}
  }

  /**
   * With the flag deleted too, no call through the decorator runs for any
   * account using an agent once the agent is saved as inactive.
   */
  lemma CorrectedInvalidationStopsDecorator(db: Db, cache: map<string, CacheValue>, agent: Id, account: Option<Arg>)
    requires db.Consistent() && agent in db.agents
    requires AgentOf(db, account) == Some(agent)
    ensures var db1 := Deactivated(db, agent);
      !DecoratorCalls(db1, cache - CorrectedInvalidationKeys(db, agent), account)
  {
    var db1 := Deactivated(db, agent);
    assert AgentOf(db1, account) == Some(agent);
  }

  /**
   * As written, the account is taken from `args[0]`; called the way the
   * decorator's own usage note shows, `process_message_with_ai(message,
   * account)`, that is the message, which has no agent, so the call never runs.
   */
  lemma PositionalAccountIsMissed(db: Db, cache: map<string, CacheValue>, message: Id, account: Id)
    requires db.Consistent()
    ensures WrapperAccount(None, [MessageArg(message), AccountArg(account)]) == Some(MessageArg(message))
    ensures !DecoratorCalls(db, cache, WrapperAccount(None, [MessageArg(message), AccountArg(account)]))
  {
  }

  /** Index of the first account among the positional arguments, if any. */
  function FirstAccount(args: seq<Arg>): (r: Option<nat>)
    ensures r.Some? ==> r.value < |args| && args[r.value].AccountArg?
    ensures r.Some? ==> forall i :: 0 <= i < r.value ==> !args[i].AccountArg?
    ensures r.None? ==> forall i :: 0 <= i < |args| ==> !args[i].AccountArg?
  {
    if |args| == 0 then None
    else if args[0].AccountArg? then Some(0)
    else match FirstAccount(args[1..])
      case None => None
      case Some(i) => Some(i + 1)
  }

  /** The account keyword, else the first account among the positional arguments. */
  function CorrectedWrapperAccount(kwAccount: Option<Id>, args: seq<Arg>): (r: Option<Arg>)
    ensures r.Some? ==> r.value.AccountArg?
    ensures r.None? <==> kwAccount.None? && forall i :: 0 <= i < |args| ==> !args[i].AccountArg?
    ensures kwAccount.Some? ==> r == Some(AccountArg(kwAccount.value))
  {
    if kwAccount.Some? then Some(AccountArg(kwAccount.value))
    else match FirstAccount(args)
      case None => None
      case Some(i) => Some(args[i])
  }

  /** With the corrected lookup a positional account is found wherever it stands. */
  lemma CorrectedWrapperFindsPositionalAccount(message: Id, account: Id)
    ensures CorrectedWrapperAccount(None, [MessageArg(message), AccountArg(account)]) == Some(AccountArg(account))
  {
    assert FirstAccount([MessageArg(message), AccountArg(account)][1..]) == Some(0);
  }
}
