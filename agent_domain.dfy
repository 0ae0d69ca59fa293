// The backend state that the agent-handover patch documents read and write:
// AI agents, WhatsApp accounts with an optional default agent, conversations,
// the one-to-one handover record of each conversation and the messages, plus
// the key/value cache. The Django ORM becomes maps keyed by primary key, and
// the cache becomes a map from key to stored value.
module AgentDomain {
  import opened Common

  type Id = string

  /** Handover status of a conversation answered by the AI agent. */
  const BOT: string := "bot"
  /** Handover status of a conversation taken over by an operator. */
  const HUMAN: string := "human"

  datatype Agent = Agent(name: string, isActive: bool)
  datatype Account = Account(defaultAgent: Option<Id>)
  datatype Conversation = Conversation(account: Id, status: string)
  datatype Message = Message(account: Id, conversation: Id, direction: string, content: string, sender: string)

  datatype Db = Db(
    agents: map<Id, Agent>,
    accounts: map<Id, Account>,
    conversations: map<Id, Conversation>,
    handovers: map<Id, string>,   // conversation id -> handover status
    messages: map<Id, Message>)
  {
    /** Every foreign key resolves, as the database's constraints guarantee. */
    predicate Consistent()
    {
      && (forall a :: a in accounts && accounts[a].defaultAgent.Some? ==> accounts[a].defaultAgent.value in agents)
      && (forall c :: c in conversations ==> conversations[c].account in accounts)
      && (forall c :: c in handovers ==> c in conversations)
      && (forall m :: m in messages ==> messages[m].account in accounts && messages[m].conversation in conversations)
    }
  }

  /** A cached value: a flag stored with its time-out in seconds, or any other payload. */
  datatype CacheValue = Flag(flag: bool, ttl: nat) | Blob(text: string)

  /** Python truthiness of a value read back from the cache. */
  predicate PyTruthy(v: CacheValue)
  {
    match v
    case Flag(f, _) => f
    case Blob(t) => t != ""
  }

  /** `account.default_agent`: the agent record, when the account has one. */
  function DefaultAgent(db: Db, account: Id): (r: Option<Agent>)
    requires db.Consistent() && account in db.accounts
    ensures r.Some? <==> db.accounts[account].defaultAgent.Some?
    ensures r.Some? ==> r.value == db.agents[db.accounts[account].defaultAgent.value]
  {
    match db.accounts[account].defaultAgent
    case None => None
    case Some(id) => Some(db.agents[id])
  }

  /** The conversation is owned by the bot: no handover record, or one whose status is 'bot'. */
  predicate BotOwned(db: Db, conversation: Id)
  {
    conversation !in db.handovers || db.handovers[conversation] == BOT
  }

  /**
   * The rule every corrected code path of the analysis agrees on: the AI may
   * answer a message of `account` in `conversation` exactly when the account
   * has a default agent, that agent is active, and the conversation is in
   * bot mode (a missing handover record counting as bot mode).
   */
  predicate MayAnswer(db: Db, account: Id, conversation: Id)
    requires db.Consistent() && account in db.accounts
  {
    AgentReady(db, account) && BotOwned(db, conversation)
  }

  /** The account has a default agent and that agent is active. */
  predicate AgentReady(db: Db, account: Id)
    requires db.Consistent() && account in db.accounts
  {
    && db.accounts[account].defaultAgent.Some?
    && db.agents[db.accounts[account].defaultAgent.value].isActive
  }

  /** Accounts whose default agent is `agent` (`WhatsAppAccount.objects.filter(default_agent=agent)`). */
  function AccountsUsing(db: Db, agent: Id): (r: set<Id>)
    ensures forall a :: a in r <==> a in db.accounts && db.accounts[a].defaultAgent == Some(agent)
  {
    set a | a in db.accounts && db.accounts[a].defaultAgent == Some(agent)
  }

  /** The keys `prefix + id` for every prefix and every id. */
  function KeysFor(prefixes: seq<string>, ids: set<Id>): set<string>
  {
    set p, a | p in prefixes && a in ids :: p + a
  }

  /**
   * The cache keys dropped when an agent is deactivated: the agent's own
   * configuration and the agent entry of every account using it.
   */
  function DeactivationKeys(db: Db, agent: Id): (r: set<string>)
    ensures "agent_config:" + agent in r
    ensures forall a :: a in AccountsUsing(db, agent) ==> "account_agent:" + a in r
  {
    {"agent_config:" + agent} + KeysFor(["account_agent:"], AccountsUsing(db, agent))
  }

  /** `getattr(conversation, 'handover', None)`: the handover status, when a record exists. */
  function HandoverOf(db: Db, conversation: Id): (r: Option<string>)
    ensures r.None? <==> conversation !in db.handovers
    ensures r.Some? ==> (r.value == BOT <==> BotOwned(db, conversation))
  {
    if conversation in db.handovers then Some(db.handovers[conversation]) else None
  }

  /** Backend state that the views and tasks change in place. */
  class Backend {
    var db: Db
    var cache: map<string, CacheValue>

    constructor (db0: Db, cache0: map<string, CacheValue>)
      ensures db == db0 && cache == cache0
    {
      db := db0;
      cache := cache0;
    }

    /** `for account in ids: cache.delete(prefix + account.id)` for each of the prefixes. */
    method DeleteForEach(ids: set<Id>, prefixes: seq<string>)
      modifies this
      ensures db == old(db)
      ensures cache == old(cache) - KeysFor(prefixes, ids)
    {
      var remaining := ids;
      while remaining != {}
        invariant remaining <= ids
        invariant db == old(db)
        invariant cache == old(cache) - KeysFor(prefixes, ids - remaining)
        decreases |remaining|
      {
        var a :| a in remaining;
        ghost var done := ids - remaining;
        cache := cache - KeysFor(prefixes, {a});
        assert KeysFor(prefixes, done) + KeysFor(prefixes, {a}) == KeysFor(prefixes, done + {a});
        remaining := remaining - {a};
        assert ids - remaining == done + {a};
      }
    }
  }
}
