# pastita-dash, modelled in Dafny

pastita-dash is the administration dashboard of a WhatsApp-based ordering and
customer-service platform. Its React pages show and edit orders, payments,
products, delivery zones, marketing campaigns, conversations and automation
logs. Its services turn the pages' filters and forms into REST requests, and
its WebSocket service keeps live notifications and dashboard updates flowing.
The repository also carries three Python patch documents for the Django backend.
They diagnose and fix an AI agent that keeps answering after it has been
switched off.

This project models that core in Dafny 4.11 and proves properties of it. Each
source file becomes one module:

- **The backend patch documents.** These are `AgentDomain`, `AgentDebugViews`,
  `AgentInactiveAnalysis` and `AgentInactiveFix`. The Django ORM becomes a `Db`
  value of maps keyed by id, with the foreign-key integrity the database enforces
  stated as `Db.Consistent()`. The Django cache becomes a map from key to value.
  A `Backend` class holds both, and its methods change them in place. The
  force-deactivate sweep is a loop with its invariant.
- **The dashboard pages, services and hooks.** There is one module per TS/TSX
  file, for example `OrdersKanban`, `PaymentsPage`, `ContactList`, `Geocoding`,
  `UnifiedApi` and `WebSocket`. Code that computes values
  (`useMemo`/`useCallback` bodies, formatters, request builders) becomes
  functions with lemmas. Code that mutates objects becomes classes with
  `modifies` clauses: the WebSocket service, the panel event store, the
  node-configuration form, the message input's typing timer and the query and
  multipart builders. A loop in the source is a method with invariants.
- **Shared modules.** `Common` holds Option, string search, ASCII and Latin-1 case mapping,
  trimming, filtering, stable sorting and `parseInt`/`parseFloat`. `JsNumbers`
  holds JavaScript numbers, truthiness, `Number(...)` and `toFixed(2)`.
  `WebForms` holds `URLSearchParams` and `FormData`.

JSON data received from the server is a `Json` datatype. Objects are maps.
Each network response is a parameter of the operation that consumes it. So are
the clock, the HMAC primitive and the browser functions that cannot be
expressed exactly (`encodeURIComponent`, `new Date(...).getTime()`, `String(n)`
for arbitrary numbers).

Each operation has a partner it is proved against: an inverse, a preserved
invariant or an independent reference definition. Examples:

- the kanban board places every order in exactly one column;
- a drag-and-drop move changes only the moved order;
- an escaped CSV field reads back as the original text;
- the slug generator's output is a valid slug;
- the signature check accepts exactly the matching HMAC;
- a longer delivery distance never costs less;
- the backend fix stops the agent from answering once it is inactive.

## Model

| member | source | states |
|---|---|---|
| AgentDomain.DefaultAgent | docs/backend_agent_debug_views.py:54-55 | `account.default_agent` is present exactly when the account names one, and is that agent's record |
| AgentDomain.AccountsUsing | docs/backend_agent_debug_views.py:148 | an account is selected exactly when its default agent is the given agent |
| AgentDomain.DeactivationKeys | docs/backend_agent_debug_views.py:144-149 | the keys dropped include `agent_config:<agent>` and `account_agent:<account>` for every account using the agent |
| AgentDomain.HandoverOf | docs/backend_agent_debug_views.py:68 | `getattr(conversation, 'handover', None)` is absent exactly when no record exists; a present status is `'bot'` exactly when the conversation is bot-owned |
| AgentDomain.Backend.DeleteForEach | docs/backend_agent_debug_views.py:148-149 | deleting `prefix + id` for every account removes exactly those keys from the cache and leaves the database alone |
| AgentDebugViews.Verdict | docs/backend_agent_debug_views.py:110-113 | the verdict holds exactly when `agent_active` is recorded true and `handover_bot_mode` is not recorded false |
| AgentDebugViews.AgentChecks | docs/backend_agent_debug_views.py:54-65 | `agent_active` is recorded as "a default agent exists and is active"; no handover check is recorded |
| AgentDebugViews.AgentDebug | docs/backend_agent_debug_views.py:23-121 | the report's `agent_would_respond` is the verdict of the checks it recorded |
| AgentDebugViews.AgentDebugAsWritten | docs/backend_agent_debug_views.py:5-28 | as written, every GET ends in the uncaught NameError of the unimported `timezone` |
| AgentDebugViews.AgentDebugAsWrittenNeverReports | docs/backend_agent_debug_views.py:5-28 | as written, no request receives the report its checks would produce |
| AgentDebugViews.ConversationVerdictIsMayAnswer | docs/backend_agent_debug_views.py:33-113 | for an existing conversation the verdict is exactly the rule "default agent exists, is active, and the conversation is bot-owned" |
| AgentDebugViews.NoHandoverIsBotMode | docs/backend_agent_debug_views.py:76-78 | a conversation with no handover record is reported in bot mode |
| AgentDebugViews.HandoverBotModeIff | docs/backend_agent_debug_views.py:68-75 | with a handover record, bot mode is recorded as its status equal to `'bot'` |
| AgentDebugViews.NoDefaultAgentNeverResponds | docs/backend_agent_debug_views.py:62-65 | an account without default agent records `agent_active = False`, `agent_error = 'No default agent'`, and the verdict is false |
| AgentDebugViews.AccountPathVerdict | docs/backend_agent_debug_views.py:84-112 | the account-only path records no handover check, so the verdict is the agent's `is_active` (false without an agent) |
| AgentDebugViews.UnknownConversationNeverResponds | docs/backend_agent_debug_views.py:80-81 | a failed conversation lookup reports an error, records no checks and gives a false verdict |
| AgentDebugViews.ForceHandover | docs/backend_agent_debug_views.py:204-239 | a target other than `'bot'`/`'human'` gives 400 with nothing changed; an unknown conversation gives 500 with nothing changed; otherwise the handover (created in bot mode when missing) ends in the target status and only that record changes |
| AgentDebugViews.TransferActiveConversations | docs/backend_agent_debug_views.py:158-174 | the loop's handover map is the sweep specification (bot-owned active conversations of the agent's accounts moved to human) and the count is the number of conversations transferred |
| AgentDebugViews.ForceDeactivate | docs/backend_agent_debug_views.py:132-192 | an unknown agent changes nothing; otherwise `is_active` becomes False, the handovers are swept, the cache loses the agent's keys only when the cache works, and the reported count is the number transferred |
| AgentDebugViews.SweepLeavesNoBotConversation | docs/backend_agent_debug_views.py:158-174 | after the sweep every active conversation of the agent's accounts has a handover record that is not `'bot'` |
| AgentDebugViews.SweepTouchesOnlyTransferred | docs/backend_agent_debug_views.py:164-174 | the sweep adds records only for transferred conversations and leaves every other record's status unchanged |
| AgentInactiveAnalysis.ProcessMessageDebug | docs/AGENTE_INATIVO_ANALISE.py:181-212 | a missing message raises; otherwise the first failing check is reported in the order "no agent", "agent inactive", "handover not bot", and "all passed" holds exactly when the AI may answer |
| AgentInactiveAnalysis.NaiveProcessMessage | docs/AGENTE_INATIVO_ANALISE.py:46-54 | the unguarded task replies exactly when the account has a default agent, whatever its state |
| AgentInactiveAnalysis.ProcessMessage | docs/AGENTE_INATIVO_ANALISE.py:57-79 | the corrected task replies exactly when the agent exists, is active and the conversation is in bot mode (no record counting as bot), and the reply comes from the account's agent |
| AgentInactiveAnalysis.TaskAgreesWithDebug | docs/AGENTE_INATIVO_ANALISE.py:57-79 | the corrected task replies exactly when `process_message_debug` (lines 181-212) returns True |
| AgentInactiveAnalysis.CorrectedTaskNarrowsNaive | docs/AGENTE_INATIVO_ANALISE.py:46-79 | the corrected task never replies where the unguarded one stays silent, and then sends the same reply |
| AgentInactiveAnalysis.NaiveTaskAnswersForInactiveAgent | docs/AGENTE_INATIVO_ANALISE.py:45-54 | with an inactive agent the unguarded task still replies, while the corrected one does not |
| AgentInactiveAnalysis.WebhookPost | docs/AGENTE_INATIVO_ANALISE.py:137-169 | no account gives 404 and stores nothing; otherwise the message is stored, 200 is returned, AI work is queued (for that message and agent) exactly when the agent is present, active and the conversation in bot mode, and operators are notified exactly when the agent is ready but a handover is not `'bot'` |
| AgentInactiveAnalysis.DeactivateAgent | docs/AGENTE_INATIVO_ANALISE.py:89-99 | an unknown agent changes nothing; otherwise `is_active` becomes False and exactly the keys `agent_config:<agent>` and `account_agent:<account>` for every account using it are deleted |
| AgentInactiveAnalysis.Deactivated | docs/AGENTE_INATIVO_ANALISE.py:90-92 | saving the agent inactive keeps the database consistent and the agent set unchanged, with this agent inactive |
| AgentInactiveAnalysis.DeactivationSilencesTask | docs/AGENTE_INATIVO_ANALISE.py:57-99 | after `deactivate_agent`, the corrected task replies to no message of an account using that agent |
| AgentInactiveAnalysis.EnsuredHandovers | docs/AGENTE_INATIVO_ANALISE.py:113-119 | on creation a record exists afterwards, a missing one is created with `'bot'`, an existing record is kept, and no other conversation gains one |
| AgentInactiveAnalysis.EnsureHandoverExists | docs/AGENTE_INATIVO_ANALISE.py:112-119 | the signal changes only the handover map, as `EnsuredHandovers` says, and keeps the database consistent |
| AgentInactiveAnalysis.EnsureHandoverIdempotent | docs/AGENTE_INATIVO_ANALISE.py:115-119 | running the signal twice gives the same records as running it once: get-or-create never makes a second record |
| AgentInactiveAnalysis.NewConversationStartsInBotMode | docs/AGENTE_INATIVO_ANALISE.py:113-119 | a freshly created conversation is answered exactly when its account's agent is present and active |
| AgentInactiveFix.PatchedProcessMessage | docs/backend_fix_agente_inativo.py:53-95 | a missing message re-raises; otherwise the message task replies exactly when the agent exists, is active, the handover status (default `'bot'`) is `'bot'` and the message is not outbound, and the reply comes from the account's agent |
| AgentInactiveFix.PatchedTaskRefinesCorrected | docs/backend_fix_agente_inativo.py:84-87 | the patched task agrees with the corrected task of the analysis on every inbound message and skips every outbound one |
| AgentInactiveFix.InvalidationKeys | docs/backend_fix_agente_inativo.py:123-130 | the keys include `agent_config:` and `agent:` of the agent, and `account_agent:` and `account_config:` of every account using it |
| AgentInactiveFix.InvalidateAgentCache | docs/backend_fix_agente_inativo.py:112-134 | the database is never changed; the cache loses exactly the invalidation keys when the agent exists (pk set) and its stored flag goes from active to inactive, and is untouched otherwise |
| AgentInactiveFix.InvalidationCoversDeactivation | docs/backend_fix_agente_inativo.py:123-130 | every key `deactivate_agent` of the analysis drops is also dropped by the signal |
| AgentInactiveFix.WrapperAccount | docs/backend_fix_agente_inativo.py:161 | the `account` keyword wins; without it the first positional argument is taken, and nothing when there are none |
| AgentInactiveFix.AgentOf | docs/backend_fix_agente_inativo.py:167 | only an account argument with a default agent yields an agent |
| AgentInactiveFix.RequireActiveAgent | docs/backend_fix_agente_inativo.py:159-188 | the database is untouched; the wrapped call runs exactly when the flag (cached, else stored) is true; on a miss the stored flag is cached for 300 seconds, on a hit the cache is unchanged |
| AgentInactiveFix.DecoratorNeedsAgent | docs/backend_fix_agente_inativo.py:163-171 | without an account, or with an account lacking a default agent, the wrapped call never runs |
| AgentInactiveFix.CacheHitIgnoresStore | docs/backend_fix_agente_inativo.py:173-181 | on a cache hit the decision is the same whatever the stored agent's flag is |
| AgentInactiveFix.DecoratorStable | docs/backend_fix_agente_inativo.py:173-188 | a second call right after the first decides the same way |
| AgentInactiveFix.StaleFlagSurvivesInvalidation | docs/backend_fix_agente_inativo.py:112-188 | with a cached active flag, the signal fires on deactivation and yet the decorator still runs the wrapped call |
| AgentInactiveFix.ActiveKeyNeverInvalidated | docs/backend_fix_agente_inativo.py:123-130 | the decorator's key `agent_active:<agent>` is never among the keys the signal deletes |
| AgentInactiveFix.CorrectedInvalidationKeys | docs/backend_fix_agente_inativo.py:123-130 | the corrected key set holds the signal's keys and the decorator's `agent_active:` key |
| AgentInactiveFix.CorrectedInvalidationStopsDecorator | docs/backend_fix_agente_inativo.py:173-188 | once the agent is saved inactive and the corrected keys are dropped, no call through the decorator runs for an account using it |
| AgentInactiveFix.PositionalAccountIsMissed | docs/backend_fix_agente_inativo.py:161 | called as `process_message_with_ai(message, account)` (lines 193-196), the lookup takes the message, and the wrapped call never runs |
| AgentInactiveFix.FirstAccount | docs/backend_fix_agente_inativo.py:161 | the index found holds an account argument and no earlier argument is an account; none exactly when no argument is an account |
| AgentInactiveFix.CorrectedWrapperAccount | docs/backend_fix_agente_inativo.py:161 | the corrected lookup always yields an account: the keyword, else the first positional account, and nothing only when neither exists |
| AgentInactiveFix.CorrectedWrapperFindsPositionalAccount | docs/backend_fix_agente_inativo.py:193-196 | with the corrected lookup, `(message, account)` yields the account |
| ProductsPage.DoubleQuotes | src/pages/products/ProductsPage.tsx:28 | doubling the quotes never shortens the text |
| ProductsPage.EscapeCsvValue | src/pages/products/ProductsPage.tsx:25-31 | a field without `"`, `,` or line feed is written as is; any other is wrapped in quotes with its inner quotes paired |
| ProductsPage.DoubleQuotesPaired | src/pages/products/ProductsPage.tsx:28 | after `replace(/"/g, '""')` every quote inside the field is part of a pair |
| ProductsPage.UndoubleDoubleQuotes | src/pages/products/ProductsPage.tsx:28 | collapsing the pairs gives back the original text |
| ProductsPage.EscapeRoundTrip | src/pages/products/ProductsPage.tsx:25-31 | reading an escaped field back (unquote, then collapse pairs) yields the original value for every text |
| ProductsPage.DoubleQuotesKeepsOtherChars | src/pages/products/ProductsPage.tsx:28 | doubling quotes introduces no character other than the quote |
| ProductsPage.EscapeAddsNoLineFeed | src/pages/products/ProductsPage.tsx:25-31 | a field without line feed has none after escaping |
| ProductsPage.ExportFields | src/pages/products/ProductsPage.tsx:270-278 | every product yields the seven columns of the export header |
| ProductsPage.ExportRowSingleLine | src/pages/products/ProductsPage.tsx:270-278 | a product whose fields hold no line feed exports as one line |
| ProductsPage.ExportLines | src/pages/products/ProductsPage.tsx:268-279 | when no field holds a line feed, splitting the file at line feeds gives the header, then exactly one row per listed product, in list order |
| ProductsPage.HeaderSingleLine | src/pages/products/ProductsPage.tsx:269 | the header joined with `,` holds no line feed |
| ProductsPage.SplitLines | src/pages/products/ProductsPage.tsx:34 | `split(/\r?\n/)` gives one piece per line feed piece, the carriage return before a break dropped |
| ProductsPage.Delimiter | src/pages/products/ProductsPage.tsx:39 | the delimiter is `;` exactly when the header line contains one, `,` otherwise |
| ProductsPage.Headers | src/pages/products/ProductsPage.tsx:40 | one name per header column, each trimmed and lower-cased |
| ProductsPage.Values | src/pages/products/ProductsPage.tsx:45 | one trimmed value per column of the data line |
| ProductsPage.RecordOfKeys | src/pages/products/ProductsPage.tsx:46-49 | the record has a key for every header and for nothing else |
| ProductsPage.RecordOfLastWins | src/pages/products/ProductsPage.tsx:47-49 | with a repeated header, the value of its last column is the one kept |
| ProductsPage.BuildRecord | src/pages/products/ProductsPage.tsx:46-49 | the `forEach` loop builds exactly the record the column-by-column definition describes |
| ProductsPage.ActiveFlag | src/pages/products/ProductsPage.tsx:65 | the flag is false exactly when the text is `false` in any letter case (empty counts as true) |
| ProductsPage.ParseLine | src/pages/products/ProductsPage.tsx:44-67 | a line errors exactly when name or SKU is empty, with the message naming line index + 2; a row always has both |
| ProductsPage.Outcomes | src/pages/products/ProductsPage.tsx:44 | one outcome per data line after the header |
| ProductsPage.RowsPlusErrors | src/pages/products/ProductsPage.tsx:44-67 | every data line ends up as exactly one row or one error |
| ProductsPage.ParseCsv | src/pages/products/ProductsPage.tsx:33-70 | fewer than two non-blank lines give no rows and the single no-data error; otherwise rows and errors are those of the data lines in order and together number the data lines |
| ProductsPage.FilteredProducts | src/pages/products/ProductsPage.tsx:146-154 | the filter never adds products, and `all` keeps the list as it is |
| ProductsPage.FilteredProductsMembership | src/pages/products/ProductsPage.tsx:146-154 | a product is listed exactly when it is among the products and its quantity (missing as 0) passes the stock filter |
| ProductsPage.FilteredProductsAppend | src/pages/products/ProductsPage.tsx:146-154 | the filter keeps the list order |
| ProductsPage.StockPartition | src/pages/products/ProductsPage.tsx:150-152 | out of stock and in stock split the products: their counts add to the total |
| OrdersKanban.ColumnsInBoardOrder | src/components/orders/OrdersKanban.tsx:44-101 | the column list holds the seven statuses in board order, each at its own index |
| OrdersKanban.EveryColumnListed | src/components/orders/OrdersKanban.tsx:44-101 | every status has its column on the board |
| OrdersKanban.ColumnsDistinct | src/components/orders/OrdersKanban.tsx:44-101 | no column is listed twice |
| OrdersKanban.FirstMatchSpec | src/components/orders/OrdersKanban.tsx:106-110 | the scan returns the first column at or after the start whose id or aliases contain the text, and nothing exactly when none from there does |
| OrdersKanban.NormalizedStatusMatches | src/components/orders/OrdersKanban.tsx:104-112 | the status lands on the first column that matches its lower-cased text, or on pending when no column matches |
| OrdersKanban.NormalizeStatus | src/components/orders/OrdersKanban.tsx:104-112 | the loop returns the id of the column the first-match definition picks |
| OrdersKanban.IdsAreUnambiguous | src/components/orders/OrdersKanban.tsx:44-101 | every column's id matches that column and no earlier one |
| OrdersKanban.AliasesAreUnambiguous | src/components/orders/OrdersKanban.tsx:44-101 | every alias matches its own column and no earlier one |
| OrdersKanban.AliasesAreLowerCase | src/components/orders/OrdersKanban.tsx:44-101 | every alias is already lower-case, so a lower-cased status can reach it |
| OrdersKanban.NormalizeSpelling | src/components/orders/OrdersKanban.tsx:104-112 | a lower-case spelling that first matches a column normalises to it |
| OrdersKanban.NormalizeId | src/components/orders/OrdersKanban.tsx:104-112 | a column id normalises to its own column |
| OrdersKanban.NormalizeAlias | src/components/orders/OrdersKanban.tsx:104-112 | every listed alias normalises to the column that lists it |
| OrdersKanban.NormalizeIgnoresCase | src/components/orders/OrdersKanban.tsx:105 | upper- or lower-casing the status does not change its column |
| OrdersKanban.NormalizeIdempotent | src/components/orders/OrdersKanban.tsx:104-112 | normalising a normalised id gives the same column |
| OrdersKanban.GetStatusConfig | src/components/orders/OrdersKanban.tsx:115-118 | the configuration returned is a listed one and carries the normalised id, so the fallback to the first entry is never taken |
| OrdersKanban.Grouped | src/components/orders/OrdersKanban.tsx:330-354 | every column has a bucket, even an empty one |
| OrdersKanban.GroupedMembership | src/components/orders/OrdersKanban.tsx:337-344 | an order sits in a column exactly when it is one of the orders and its status normalises to that column |
| OrdersKanban.GroupedNewestFirst | src/components/orders/OrdersKanban.tsx:347-351 | within a column, orders run from newest to oldest creation time |
| OrdersKanban.GroupedStable | src/components/orders/OrdersKanban.tsx:347-351 | within a column, orders with the same creation time keep the order of the incoming list |
| OrdersKanban.GroupedSize | src/components/orders/OrdersKanban.tsx:337-344 | a column holds as many orders as there are orders with that status, duplicates counted |
| OrdersKanban.CountsOverAll | src/components/orders/OrdersKanban.tsx:337-344 | counting the orders of every column counts each order once |
| OrdersKanban.GroupedPartition | src/components/orders/OrdersKanban.tsx:330-354 | the column sizes add up to the number of orders: grouping loses and duplicates nothing |
| OrdersKanban.GroupedAt | src/components/orders/OrdersKanban.tsx:330-354 | each column is the orders with that status, newest first |
| OrdersKanban.GroupOrders | src/components/orders/OrdersKanban.tsx:330-354 | the three loops build exactly the grouping definition |
| OrdersKanban.EmptyColumns | src/components/orders/OrdersKanban.tsx:333-335 | the first loop gives every column an empty bucket |
| OrdersKanban.BucketOrders | src/components/orders/OrdersKanban.tsx:337-344 | the second loop leaves in each column the orders with that status, in input order |
| OrdersKanban.SortColumns | src/components/orders/OrdersKanban.tsx:347-351 | the third loop sorts each bucket newest first |
| OrdersKanban.HiddenByDefault | src/components/orders/OrdersKanban.tsx:359 | the ids `cancelled` and `delivered` belong to exactly the cancelled and delivered columns |
| OrdersKanban.DefaultFilter | src/components/orders/OrdersKanban.tsx:358-360 | without a list of visible statuses (absent or empty), a column is shown exactly when it is neither cancelled nor delivered |
| OrdersKanban.DisplayMembership | src/components/orders/OrdersKanban.tsx:357-362 | a column is displayed exactly when the default rule admits it, or, with a non-empty list, when its id is listed |
| OrdersKanban.DefaultDisplay | src/components/orders/OrdersKanban.tsx:358-360 | the default board shows pending, confirmed, preparing, ready and out for delivery, in that order |
| OrdersKanban.DisplayInBoardOrder | src/components/orders/OrdersKanban.tsx:357-362 | displayed columns keep board order whatever order the visible list uses |
| OrdersKanban.GroupedHasId | src/components/orders/OrdersKanban.tsx:371-378 | an id is in a column's bucket exactly when some order with that id has that status |
| OrdersKanban.FirstColumnIn | src/components/orders/OrdersKanban.tsx:371-378 | the search answers the first column, in board order, that holds the id, and nothing when none does |
| OrdersKanban.FindOnGrouped | src/components/orders/OrdersKanban.tsx:371-378 | searching the grouped board gives the column of the order by its id |
| OrdersKanban.FirstColumnWithSpec | src/components/orders/OrdersKanban.tsx:371-378 | the first column holding the id is found, and nothing exactly when no column holds it |
| OrdersKanban.ColumnOfSpec | src/components/orders/OrdersKanban.tsx:371-378 | an order's column holds it and no earlier column does; nothing exactly when no order has the id |
| OrdersKanban.ColumnOfLands | src/components/orders/OrdersKanban.tsx:371-378 | when all orders with the id share one status, that status's column is found |
| OrdersKanban.FindById | src/components/orders/OrdersKanban.tsx:310 | the first order with the id is found, and nothing exactly when no order has it |
| OrdersKanban.FindColumn | src/components/orders/OrdersKanban.tsx:371-378 | the loop over the columns returns the first column that holds the id |
| OrdersKanban.ColumnNamed | src/components/orders/OrdersKanban.tsx:396-397 | a drop target that is a column id names that column; otherwise no column |
| OrdersKanban.WithStatus | src/components/orders/OrdersKanban.tsx:405-411 | the list keeps its length and order; exactly the orders with the id get the new status |
| OrdersKanban.WithStatusMovesCard | src/components/orders/OrdersKanban.tsx:405-411 | after the optimistic update the dragged order sits in the destination column |
| OrdersKanban.PlanMove | src/components/orders/OrdersKanban.tsx:384-402 | the drag-end decision is the move from the order's column to the drop column (a named column, else the column of the order dropped on), and none when either is missing or they coincide |
| OrdersKanban.Board.constructor | src/components/orders/OrdersKanban.tsx:294-296 | the board starts with the outside orders, nothing updating and nothing dragged |
| OrdersKanban.Board.ActiveOrder | src/components/orders/OrdersKanban.tsx:365-368 | the overlay shows a local order with the dragged id, and shows one whenever such an order exists |
| OrdersKanban.Board.DragStart | src/components/orders/OrdersKanban.tsx:380-382 | only the dragged id changes |
| OrdersKanban.Board.DragEnd | src/components/orders/OrdersKanban.tsx:384-414 | the drag ends; with a planned move the order takes the destination status and is marked updating; without one nothing else changes |
| OrdersKanban.Board.FinishMove | src/components/orders/OrdersKanban.tsx:417-438 | when the callback threw, the order goes back to its source status; either way it is no longer updating |
| OrdersKanban.Board.SyncExternal | src/components/orders/OrdersKanban.tsx:299-316 | the local list becomes the merge of the outside list with the local copies of orders still updating |
| OrdersKanban.Merged | src/components/orders/OrdersKanban.tsx:299-316 | the merge follows the outside list in length and ids; orders not updating are taken from outside, updating ones from the local copy when it exists |
| OrdersKanban.RollbackRestoresColumn | src/components/orders/OrdersKanban.tsx:417-428 | after a move and its rollback the order is back in its source column and every other order is untouched |
| OrdersKanban.MoveThenRollback | src/components/orders/OrdersKanban.tsx:405-428 | setting the destination status and then the source status puts the order back in the source column and changes no other order |
| OrdersKanban.OptimisticMoveLands | src/components/orders/OrdersKanban.tsx:404-411 | a planned move puts the card in the destination column |
| OrdersKanban.PlannedOrderExists | src/components/orders/OrdersKanban.tsx:393-402 | a move is only planned for an order that exists |
| OrdersKanban.SyncKeepsOptimisticStatus | src/components/orders/OrdersKanban.tsx:307-314 | an order still updating keeps its local copy when the outside list refreshes |
| OrderPrint.Or | src/components/orders/OrderPrint.tsx:54 | JavaScript's or-else: the first value when it is truthy, the second otherwise |
| OrderPrint.TruthyValues | src/components/orders/OrderPrint.tsx:57-62 | only truthy values are pushed, never more than there are candidates |
| OrderPrint.FormatAddress | src/components/orders/OrderPrint.tsx:53-64 | the four guarded pushes and the join give the address line the definition describes |
| OrderPrint.PushIfTruthy | src/components/orders/OrderPrint.tsx:58-61 | one guarded push appends the candidate exactly when it is truthy |
| OrderPrint.NonObjectAddressIsEmpty | src/components/orders/OrderPrint.tsx:55 | a missing, falsy or non-object address prints as the empty text |
| OrderPrint.FullAddressLine | src/components/orders/OrderPrint.tsx:53-64 | with street, number, complement and district all given, the line is the four joined by `, ` |
| OrderPrint.AddressWithoutComplement | src/components/orders/OrderPrint.tsx:60 | a missing complement is skipped with its separator |
| OrderPrint.EnglishNamesPrintTheSame | src/components/orders/OrderPrint.tsx:54-61 | an address under `delivery_address` with English keys prints as the same one under `endereco_entrega` with Portuguese keys |
| OrderPrint.TextOf | src/components/orders/OrderPrint.tsx:67 | a field is read as text exactly when it is present as a string |
| OrderPrint.LabelOf | src/components/orders/OrderPrint.tsx:66-87 | a missing or empty code takes the default's label; a known code its label; an unknown code prints upper-cased |
| OrderPrint.PaymentMethodLabel | src/components/orders/OrderPrint.tsx:66-76 | without a method the label is `PIX`; the label is never empty |
| OrderPrint.PaymentStatusLabel | src/components/orders/OrderPrint.tsx:78-87 | without a status the label is `AGUARDANDO`; the label is never empty |
| OrderPrint.PaymentMethodFallbacks | src/components/orders/OrderPrint.tsx:67-75 | a missing method prints as `pix` would, and an unknown one upper-cased |
| OrderPrint.PaymentStatusFallbacks | src/components/orders/OrderPrint.tsx:79-86 | `paid` prints `PAGO`; a missing status prints as `pending` would |
| OrderPrint.NumberOfFirst | src/components/orders/OrderPrint.tsx:89-92 | the first truthy candidate converted to a number, and 0 when none is truthy |
| OrderPrint.SubtotalFallsBackToTotal | src/components/orders/OrderPrint.tsx:89 | a falsy subtotal prints the total; a truthy one prints itself |
| OrderPrint.DeliveryFeeNames | src/components/orders/OrderPrint.tsx:90 | the fee is `delivery_fee` when truthy, else `taxa_entrega` when truthy, else 0 |
| OrderPrint.NoFeeNoDiscountRows | src/components/orders/OrderPrint.tsx:242-253 | without fee or discount under either name, neither row is printed |
| OrderPrint.LineAmount | src/components/orders/OrderPrint.tsx:103 | a truthy line total is printed as is; otherwise quantity times unit price, defined exactly when both convert |
| OrderPrint.MoneyLayout | src/components/orders/OrderPrint.tsx:48-51 | a non-negative amount prints as `R$ `, whole reais, a comma and two digits of cents |
| OrderPrint.Header | src/components/orders/OrderPrint.tsx:94-96 | each store option replaces its default (`PASTITA`, `(63) 9117-2166`, `Palmas - TO`) exactly when it is given and non-empty |
| OrderPrint.Notes | src/components/orders/OrderPrint.tsx:110-116 | the notes block is printed exactly when one of the three note fields is truthy, and then with a truthy value |
| OrderPrint.AutoPrintEnabled | src/components/orders/OrderPrint.tsx:298-301 | auto-print is on exactly when there is a window and the stored value is the text `true` |
| OrderPrint.SetAutoPrintEnabled | src/components/orders/OrderPrint.tsx:303-306 | without a window storage is untouched; otherwise the key holds `true` or `false` |
| OrderPrint.AutoPrintRoundTrip | src/components/orders/OrderPrint.tsx:296-306 | reading after writing gives the value written, and no other key changes |
| JsNumbers.Cents | src/pages/products/ProductsPage.tsx:22 | the hundredths `toFixed(2)` prints are the amount times 100 rounded to nearest, ties up |
| JsNumbers.TwoDigits | src/components/orders/OrderPrint.tsx:50 | the cents print as two digits that read back as the same number |
| JsNumbers.ToFixed2ReadsBack | src/pages/products/ProductsPage.tsx:19-23 | `parseFloat` of the `toFixed(2)` text is the amount rounded to the nearest hundredth, within half a cent of it |
| JsNumbers.ToFixed2Stable | src/pages/products/ProductsPage.tsx:22 | formatting an already rounded amount prints the same text |
| JsNumbers.ToFixed2RoundTrip | src/pages/products/ProductsPage.tsx:19-23 | formatting, reading back and formatting again prints the same text |
| JsNumbers.ParseDecimal | src/pages/products/ProductsPage.tsx:20 | `parseFloat` reads `digits.dd` as the whole part plus the hundredths |
| JsNumbers.NumberOf | src/components/orders/OrderPrint.tsx:89-92 | `Number(v)`: a missing value is NaN, null is 0, a number is itself, an object is NaN |
| JsNumbers.NumberOfArray | src/components/orders/OrderPrint.tsx:89-92 | `Number` of an array: the empty array is 0, two or more elements are NaN, and a single number, boolean or object converts as its text does |
| Common.LowerChar | src/services/marketingService.ts:436 | `toLowerCase` of a character: an ASCII or Latin-1 capital (A-Z, À-Þ except ×, Ÿ) becomes its small letter, which upper-cases back to it; every other character is kept; the result is never a capital |
| Common.UpperChar | src/components/chat/ContactList.tsx:41 | `toUpperCase` of a character: an ASCII or Latin-1 small letter (a-z, à-þ except ÷, ÿ) becomes its capital; every other character is kept; the result is never such a small letter |
| Common.LowerOfUpperChar | src/components/chat/ContactList.tsx:41 | lower-casing the capital of a small letter gives the letter back |
| Common.Lower | src/pages/products/ProductsPage.tsx:40 | `toLowerCase` keeps the length and lowers each letter |
| Common.LowerIdempotent | src/components/orders/OrdersKanban.tsx:105 | lowering twice is lowering once |
| Common.Trim | src/pages/products/ProductsPage.tsx:40 | `trim` never lengthens, leaves no blank at either end, and is empty exactly for blank text |
| Common.TrimIdempotent | src/pages/products/ProductsPage.tsx:45 | trimming twice is trimming once |
| Common.Split | src/pages/products/ProductsPage.tsx:45 | `split(d)` gives at least one piece and no piece holds the separator |
| Common.JoinSplit | src/pages/products/ProductsPage.tsx:45 | joining the pieces of a split with the separator gives back the text |
| Common.SplitJoin | src/pages/products/ProductsPage.tsx:279 | splitting a join of separator-free pieces gives back the pieces |
| Common.SortByKey | src/components/orders/OrdersKanban.tsx:348-350 | sorting is a permutation of its input |
| Common.SortByKeySorted | src/components/orders/OrdersKanban.tsx:348-350 | the sorted list is ordered by the key |
| Common.InsertByKeyStable | src/components/orders/OrdersKanban.tsx:348-350 | inserting an element keeps the order of the elements of each key and puts it after those sharing its key |
| Common.SortByKeyStable | src/components/orders/OrdersKanban.tsx:348-350 | the sort is stable: the elements sharing any one key come out in the order they went in |
| Common.FilterMembership | src/pages/products/ProductsPage.tsx:148-153 | `filter` keeps exactly the elements that pass |
| Common.FilterPreservesOrder | src/pages/products/ProductsPage.tsx:148-153 | `filter` keeps the relative order of what it keeps |
| Common.ParseIntOfNat | src/pages/products/ProductsPage.tsx:64 | `parseInt` reads a written natural number back as itself |
| Common.ParseFloatOfNat | src/pages/products/ProductsPage.tsx:63 | `parseFloat` reads a written natural number back as itself |
| Common.ReplaceAllSelf | src/pages/products/ProductsPage.tsx:28 | replacing every occurrence of a pattern by itself changes nothing |
| AgentForm.ProviderKey | src/components/agents/AgentForm.tsx:37-58 | `ollama` is the key of exactly the local provider |
| AgentForm.Config | src/components/agents/AgentForm.tsx:37-58 | every provider offers at least one model |
| AgentForm.DefaultsMatchKimi | src/components/agents/AgentForm.tsx:60-76 | a new agent starts on the Kimi provider, with its first model and its base URL |
| AgentForm.Get | src/components/agents/AgentForm.tsx:119-125 | a field is read exactly when the form data holds it |
| AgentForm.EditForm | src/components/agents/AgentForm.tsx:93-97 | editing spreads the agent over the defaults: every agent field wins, every other default is kept, and there are no other fields |
| AgentForm.ChangeProvider | src/components/agents/AgentForm.tsx:99-107 | switching provider sets the provider, its first model and its default base URL, and keeps every other field |
| AgentForm.HandleChange | src/components/agents/AgentForm.tsx:109-114 | the field takes the new value and no other field changes; a non-empty error on that field is cleared, other errors stay |
| AgentForm.HandleChangeClearsError | src/components/agents/AgentForm.tsx:111-113 | after a change, the changed field shows no error |
| AgentForm.BlankIsTrimEmpty | src/components/agents/AgentForm.tsx:119-123 | a required text counts as missing exactly when it trims to empty |
| AgentForm.ValidationErrors | src/components/agents/AgentForm.tsx:116-131 | name and system prompt get their error exactly when blank; the API key exactly when the provider is not `ollama`, the key is empty and the agent is new; no other errors |
| AgentForm.ValidIffNoRuleBroken | src/components/agents/AgentForm.tsx:116-131 | the form is valid exactly when none of the three rules is broken |
| AgentForm.OllamaNeedsNoKey | src/components/agents/AgentForm.tsx:125 | after switching to the local provider no API key error can appear |
| AgentForm.SubmitData | src/components/agents/AgentForm.tsx:136-141 | a falsy API key is dropped from the submission, and everything else is sent unchanged |
| AgentForm.HandleSubmit | src/components/agents/AgentForm.tsx:133-143 | the errors are the validation errors, and the form is submitted exactly when there are none, with the submission data |
| AgentForm.SubmittedKeyIsNeverEmpty | src/components/agents/AgentForm.tsx:136-141 | a submitted form never carries an empty API key |
| AgentForm.ToggledAccounts | src/components/agents/AgentForm.tsx:562-566 | the account is in the list exactly when checked; checking appends it; other accounts keep their membership |
| AgentForm.ToggleAccount | src/components/agents/AgentForm.tsx:562-567 | the account list is replaced by the toggled one and no other field changes |
| AgentForm.CheckThenUncheck | src/components/agents/AgentForm.tsx:562-566 | checking and then unchecking a new account gives back the original list |
| AutomationLogsPage.LogParams | src/pages/automation/AutomationLogsPage.tsx:78-82 | page and page size 50 are always sent; company, action type and phone exactly when their filter is non-empty, as text; the error filter exactly when set, as the flag `is_error === 'true'`; nothing else |
| AutomationLogsPage.NoFilterParams | src/pages/automation/AutomationLogsPage.tsx:78-82 | with no filters only the page and page size are sent |
| AutomationLogsPage.StatsCompany | src/pages/automation/AutomationLogsPage.tsx:96-98 | statistics are scoped to a company exactly when the company filter is set |
| AutomationLogsPage.SetFilter | src/pages/automation/AutomationLogsPage.tsx:154-211 | changing one filter changes only that filter and goes back to page 1 |
| AutomationLogsPage.ClearFilters | src/pages/automation/AutomationLogsPage.tsx:215-219 | clearing empties every filter, goes back to page 1, and the next request sends only paging |
| AutomationLogsPage.PreviousPage | src/pages/automation/AutomationLogsPage.tsx:313 | `Math.max(1, p - 1)`: one page back, never below page 1 |
| AutomationLogsPage.RangeEnd | src/pages/automation/AutomationLogsPage.tsx:331 | the last row shown is the smaller of the page end and the total |
| AutomationLogsPage.RangeWithinTotal | src/pages/automation/AutomationLogsPage.tsx:330-332 | on a valid page with results, the rows shown lie between 1 and the total and number at most 50 |
| AutomationLogsPage.NavigationStaysOnValidPages | src/pages/automation/AutomationLogsPage.tsx:313-322 | previous and (when enabled) next keep the page valid; previous is disabled exactly when it would not move |
| AutomationLogsPage.FilterChangeLandsOnValidPage | src/pages/automation/AutomationLogsPage.tsx:156-159 | after a filter change the page is valid and previous is disabled |
| AutomationLogsPage.ActionLabel | src/pages/automation/AutomationLogsPage.tsx:285 | a known action type shows its label, an unknown one shows itself |
| AutomationLogsPage.ActionColor | src/pages/automation/AutomationLogsPage.tsx:282-284 | a known action type gets its colour, an unknown one the grey default |
| AutomationLogsPage.LabelsAndColorsAgree | src/pages/automation/AutomationLogsPage.tsx:19-37 | the label and colour tables cover the same action types |
| AutomationLogsPage.PhoneCell | src/pages/automation/AutomationLogsPage.tsx:289 | the phone cell is never empty: the phone, or `-` |
| CampaignsPage.ActionsOffered | src/pages/campaigns/CampaignsPage.tsx:420-482 | statistics always come first; start and edit exactly for drafts; pause exactly while running; resume and cancel exactly while paused; delete exactly for drafts and cancelled campaigns |
| CampaignsPage.OnlyStatistics | src/pages/campaigns/CampaignsPage.tsx:420-482 | any other status offers only statistics |
| CampaignsPage.ActionTable | src/pages/campaigns/CampaignsPage.tsx:420-482 | the buttons of each of the four statuses, in screen order |
| CampaignsPage.ActionsDistinct | src/pages/campaigns/CampaignsPage.tsx:420-482 | no button appears twice on a row |
| CampaignsPage.Save | src/pages/campaigns/CampaignsPage.tsx:129-156 | a blank name is refused; otherwise a new campaign is refused and an edited one is updated with the trimmed name and description and its type |
| CampaignsPage.Progress | src/pages/campaigns/CampaignsPage.tsx:398-402 | progress is 0 without recipients, and otherwise the share sent times 100 |
| CampaignsPage.ProgressBounds | src/pages/campaigns/CampaignsPage.tsx:398-402 | with no more sent than recipients, progress lies between 0 and 100, and is 100 when all were sent |
| CampaignsPage.SummaryWithinTotal | src/pages/campaigns/CampaignsPage.tsx:255-284 | the running, scheduled and completed counts together never exceed the number of campaigns |
| CampaignsPage.StatusLabel | src/pages/campaigns/CampaignsPage.tsx:31-38 | an unknown status shows itself; a known one shows a non-empty label |
| ChatTypes.InOrder | src/components/chat/ChatWindow.tsx:224-226 | sorting the history by creation time keeps every message (a permutation) and leaves them in chronological order |
| ChatTypes.InOrderOfChronological | src/components/chat/ChatWindow.tsx:224-226 | a history already in order is left as it is |
| ChatTypes.InOrderStable | src/components/chat/ChatWindow.tsx:224-226 | messages with the same creation time keep the order the history gave them |
| ChatWindow.WithNewMessage | src/components/chat/ChatWindow.tsx:169-186 | a message is appended exactly when a conversation is open, the message belongs to it (by id or embedded object) and no shown message has its id or WhatsApp id |
| ChatWindow.NewMessageIdempotent | src/components/chat/ChatWindow.tsx:179-184 | delivering the same message twice shows it once |
| ChatWindow.Filtered | src/components/chat/ChatWindow.tsx:274-281 | a conversation is listed exactly when it matches the search by lower-cased name or by phone; an empty search lists all |
| ChatWindow.EmptySearchKeepsAll | src/components/chat/ChatWindow.tsx:275 | with no search term the list is unchanged |
| ChatWindow.SearchIgnoresCase | src/components/chat/ChatWindow.tsx:276-278 | the search ignores the case of the term: typed in upper case, in lower case or as is, it finds exactly the same conversations |
| ChatWindow.Window.constructor | src/components/chat/ChatWindow.tsx:103-107 | the window starts with nothing selected, no messages and nobody typing |
| ChatWindow.Window.HandleNewMessage | src/components/chat/ChatWindow.tsx:169-194 | the messages become those of the append rule; the list is reloaded whenever a conversation is open; read is marked exactly for an inbound message of the open conversation with unread messages |
| ChatWindow.Window.HandleTyping | src/components/chat/ChatWindow.tsx:198-208 | the phone joins the typing set when typing and leaves it otherwise; nothing else changes |
| ChatWindow.Window.SelectConversation | src/components/chat/ChatWindow.tsx:211-240 | the conversation is selected; a listed history is shown in order, a non-list shows nothing, a failed load keeps the old messages; read is marked exactly when the load did not fail and there were unread messages |
| ChatWindow.Window.SendMessage | src/components/chat/ChatWindow.tsx:244-271 | without a conversation, with blank text or when sending fails nothing changes; otherwise exactly one pending outbound message with the text, the conversation and the current time is appended |
| ChatWindowOld.Received | src/components/chat/ChatWindow.old.tsx:207-224 | a message for the open conversation that is not a duplicate is added and the list stays chronological; anything else leaves the list as it is |
| ChatWindowOld.ReceivedOnce | src/components/chat/ChatWindow.old.tsx:207-224 | an accepted message appears exactly once |
| ChatWindowOld.NewestReceivedLast | src/components/chat/ChatWindow.old.tsx:220-223 | a message no older than all shown ones lands at the end |
| ChatWindowOld.Preview | src/components/chat/ChatWindow.old.tsx:239 | the preview is the first 50 characters of a non-empty text, never empty and never longer than 50 |
| ChatWindowOld.UnreadAfter | src/components/chat/ChatWindow.old.tsx:240-242 | an inbound message zeroes the count of the open conversation and adds one to another; an outbound one leaves it |
| ChatWindowOld.Touched | src/components/chat/ChatWindow.old.tsx:234-246 | only the receiving conversation changes, and it keeps its id |
| ChatWindowOld.ConversationsAfter | src/components/chat/ChatWindow.old.tsx:233-253 | the list keeps its conversations (one updated) and is ordered by last message time, newest first, missing times as 0 |
| ChatWindowOld.ReceivingConversationFirst | src/components/chat/ChatWindow.old.tsx:233-253 | a message newer than every conversation brings its conversation's time to the top of the list |
| ChatWindowOld.WithStatus | src/components/chat/ChatWindow.old.tsx:268-276 | the status is replaced; the delivery time changes only for `delivered` with a timestamp, the read time only for `read` with one; nothing else changes |
| ChatWindowOld.StatusApplied | src/components/chat/ChatWindow.old.tsx:264-279 | exactly the messages matching by id or WhatsApp id get the update; the others are untouched |
| ChatWindowOld.ReadReceipt | src/components/chat/ChatWindow.old.tsx:271-273 | a read receipt sets the read time and leaves the delivery time |
| ChatWindowOld.AppendedOwn | src/components/chat/ChatWindow.old.tsx:310-317 | a sent message already listed by id is not added again; otherwise it is added and the list stays chronological |
| ChatWindowOld.UploadGuard | src/components/chat/ChatWindow.old.tsx:327-335 | the upload happens exactly when there is a file, a conversation and an account and the file is at most 16 MiB; a larger file is refused |
| ChatWindowOld.GroupByDay | src/components/chat/ChatWindow.old.tsx:441-448 | every message's day has a group, and each group is the messages of that day in order and is non-empty |
| ChatWindowOld.GroupedOnce | src/components/chat/ChatWindow.old.tsx:441-448 | a message is in a day's group exactly when it was sent that day |
| ChatWindowOld.Window.constructor | src/components/chat/ChatWindow.old.tsx:82-98 | the window starts with nothing selected and no messages, conversations or typing contacts |
| ChatWindowOld.Window.HandleMessageReceived | src/components/chat/ChatWindow.old.tsx:196-262 | messages and conversations become those of the receive rules; read is marked exactly for an inbound message of the open conversation; a notice is shown exactly for an inbound one elsewhere |
| ChatWindowOld.Window.HandleStatusUpdated | src/components/chat/ChatWindow.old.tsx:264-280 | only the messages change, as the status rule says |
| ChatWindowOld.Window.HandleTyping | src/components/chat/ChatWindow.old.tsx:282-293 | the conversation joins or leaves the typing set; nothing else changes |
| ChatWindowOld.Window.AppendOwn | src/components/chat/ChatWindow.old.tsx:310-318 | only the messages change, as the own-message rule says |
| ContactList.FirstCharsOfSplit | src/components/chat/ContactList.tsx:41 | the first characters of the space-separated words are the word initials of the name |
| ContactList.LastTwo | src/components/chat/ContactList.tsx:42 | `slice(-2)`: the last two characters of the phone, or all of a shorter one |
| ContactList.Initials | src/components/chat/ContactList.tsx:40-42 | a named contact shows at most two upper-cased word initials, starting with the name's first letter; an unnamed one the phone's last two characters |
| ContactList.ColourIndex | src/components/chat/ContactList.tsx:56-57 | the character-code sum modulo the palette size always picks one of the eight colours |
| ContactList.BadgeText | src/components/chat/ContactList.tsx:92 | counts above 9 show `9+`; others show their single digit |
| ContactList.UnreadBadgeAsWritten | src/components/chat/ContactList.tsx:90-94 | as written, a count of 0 renders the stray text `0`, and a badge shows exactly for a positive count |
| ContactList.UnreadBadge | src/components/chat/ContactList.tsx:90-94 | the intended badge: never stray text; shown exactly for a positive count, as `9+` exactly above 9 |
| ContactList.ZeroUnreadShowsStrayZero | src/components/chat/ContactList.tsx:90 | the two versions differ exactly at a count of 0 |
| ContactList.DisplayName | src/components/chat/ContactList.tsx:71 | the name when non-empty, else the phone |
| ContactList.PreviewLine | src/components/chat/ContactList.tsx:108-114 | typing shows `Digitando...`; otherwise a non-empty preview, else `Nenhuma mensagem` |
| ContactList.FooterText | src/components/chat/ContactList.tsx:206 | the footer starts with the count and `conversa`, and ends in the plural `s` exactly when the count is not 1 |
| ContactList.FilterContacts | src/components/chat/ContactList.tsx:141-150 | a blank search keeps the list as it is; filtering never adds contacts |
| ContactList.FilterContactsKeeps | src/components/chat/ContactList.tsx:141-150 | a contact is kept exactly when the search is blank or its lower-cased name, its phone or its lower-cased preview contains the lower-cased search |
| ContactList.CompareAsWrittenInconsistent | src/components/chat/ContactList.tsx:154-158 | as written, two contacts without a time each compare as greater than the other; the corrected comparison calls them equal |
| ContactList.Compare | src/components/chat/ContactList.tsx:154-158 | the corrected comparison puts contacts with a time before those without, and newer before older |
| ContactList.CompareAntisymmetric | src/components/chat/ContactList.tsx:154-158 | the corrected comparison is antisymmetric and every contact equals itself |
| ContactList.SortContacts | src/components/chat/ContactList.tsx:153-159 | sorting keeps exactly the contacts it is given |
| ContactList.SortContactsOrdered | src/components/chat/ContactList.tsx:153-159 | the sorted list is ordered by the corrected comparison: timed contacts newest first, then the untimed |
| ContactList.VisibleContacts | src/components/chat/ContactList.tsx:141-159 | the list shown holds exactly the filtered contacts, and all contacts for a blank search |
| DeliveryZonesPage.FormatCep | src/pages/delivery/DeliveryZonesPage.tsx:33-37 | the mask keeps the first 8 digits of the input; a dash is inserted after the fifth exactly when there are more than five, and removing it gives back the digits |
| DeliveryZonesPage.DigitsOfFormatCep | src/pages/delivery/DeliveryZonesPage.tsx:33-37 | the digits of the masked CEP are the digits the mask kept |
| DeliveryZonesPage.FormatCepIdempotent | src/pages/delivery/DeliveryZonesPage.tsx:33-37 | masking a masked CEP changes nothing |
| DeliveryZonesPage.ZipInput | src/pages/delivery/DeliveryZonesPage.tsx:314 | the CEP field keeps at most 8 characters, all digits |
| DeliveryZonesPage.ZipInputShowsMask | src/pages/delivery/DeliveryZonesPage.tsx:314 | the stored field shows the same mask as the typed text, and cleaning it twice is cleaning once |
| DeliveryZonesPage.FormatKm | src/pages/delivery/DeliveryZonesPage.tsx:22-25 | a missing or NaN distance prints `0.00`; a finite one with `toFixed(2)` |
| DeliveryZonesPage.FormatKmReadsBack | src/pages/delivery/DeliveryZonesPage.tsx:22-25 | a printed distance reads back within half a hundredth of the real one |
| DeliveryZonesPage.MoneyNumber | src/pages/delivery/DeliveryZonesPage.tsx:28 | a missing amount counts as 0; a text amount is NaN exactly when `parseFloat` fails |
| DeliveryZonesPage.FormatMoney | src/pages/delivery/DeliveryZonesPage.tsx:27-31 | NaN prints `0.00`; any other number with `toFixed(2)` |
| DeliveryZonesPage.FormatMoneyOfFixed | src/pages/delivery/DeliveryZonesPage.tsx:27-31 | a price already printed with two decimals prints the same again, as text or as number |
| DeliveryZonesPage.FiniteCoord | src/pages/delivery/DeliveryZonesPage.tsx:48-50 | a coordinate counts only when finite; a text one is parsed with `parseFloat` |
| DeliveryZonesPage.LinksFor | src/pages/delivery/DeliveryZonesPage.tsx:52-63 | the embed link is the external link plus `&output=embed`, and the external link is the maps address followed by the query |
| DeliveryZonesPage.BuildMapUrls | src/pages/delivery/DeliveryZonesPage.tsx:39-66 | links exist exactly when both coordinates are finite or the query is non-empty; coordinates win and are written `lat,lng`, otherwise the query is URI-encoded |
| DeliveryZonesPage.CoordinatesOverrideQuery | src/pages/delivery/DeliveryZonesPage.tsx:50-57 | with finite coordinates the query text does not matter |
| DeliveryZonesPage.MapQuery | src/pages/delivery/DeliveryZonesPage.tsx:104-114 | the query always ends with `Brasil`, and is just `Brasil` when address, city, state and CEP are all empty |
| DeliveryZonesPage.MapInfo | src/pages/delivery/DeliveryZonesPage.tsx:102-117 | without a store location there is no map |
| DeliveryZonesPage.MapShownForEveryStore | src/pages/delivery/DeliveryZonesPage.tsx:102-117 | every store location gets a map, since the query is never empty |
| DeliveryZonesPage.OpenModalForm | src/pages/delivery/DeliveryZonesPage.tsx:152-177 | a new zone opens the empty form; an edited one copies its fields, with a missing minimum, maximum or minimum fee as 0 |
| DeliveryZonesPage.NumberInput | src/pages/delivery/DeliveryZonesPage.tsx:582 | the parsed number, or 0 when the text does not parse |
| DeliveryZonesPage.FiniteOrZero | src/pages/delivery/DeliveryZonesPage.tsx:191 | a finite number is kept, anything else becomes 0 |
| DeliveryZonesPage.SavePayload | src/pages/delivery/DeliveryZonesPage.tsx:188-205 | the name is trimmed; the three distances and fees are finite, kept when they already were; the other fields pass through |
| DeliveryZonesPage.SavePayloadIdempotent | src/pages/delivery/DeliveryZonesPage.tsx:188-205 | cleaning a cleaned payload changes nothing |
| DeliveryZonesPage.SaveRequest | src/pages/delivery/DeliveryZonesPage.tsx:184-213 | an edit updates the zone with its id, a new zone is created; both send the cleaned payload |
| DeliveryZonesPage.EditRoundTrip | src/pages/delivery/DeliveryZonesPage.tsx:152-205 | opening a zone with finite values and saving it untouched sends an update of that zone with the same values and the trimmed name |
| DeliveryZonesPage.RangeText | src/pages/delivery/DeliveryZonesPage.tsx:491 | the range shows the minimum and the maximum, or `?` when there is no maximum |
| DeliveryZonesPage.MinFeeText | src/pages/delivery/DeliveryZonesPage.tsx:501 | a missing, zero or NaN minimum fee shows `-`; any other shows `R$` and the amount |
| DeliveryZonesPage.ActiveFilter | src/pages/delivery/DeliveryZonesPage.tsx:442 | the empty option means no filter; otherwise the filter is true exactly for `true` |
| DeliveryZonesPage.SaveStoreLocation | src/pages/delivery/DeliveryZonesPage.tsx:239-253 | an empty CEP is refused with its message; otherwise the form is sent with its CEP cut to at most 8 digits |
| DeliveryZonesPage.StoredCepSentUnchanged | src/pages/delivery/DeliveryZonesPage.tsx:251 | a CEP typed through the field is sent as it is |
| DeliveryZonesPage.FormOf | src/pages/delivery/DeliveryZonesPage.tsx:256-262 | the store form is refilled with the saved location's CEP and name |
| Geocoding.LookupCep | src/services/geocoding.ts:436-447 | the CEP is cut to its first 8 digits; anything shorter finds nothing, otherwise the lookup is asked for those digits |
| Geocoding.LookupNeedsEightDigits | src/services/geocoding.ts:437-438 | a CEP with fewer than eight digits never reaches the service |
| Geocoding.SuggestionQuery | src/services/geocoding.ts:244 | queries shorter than 3 characters are not sent; longer ones are sent as typed |
| Geocoding.BuildAddressString | src/services/geocoding.ts:570-585 | no address gives empty text; otherwise the road (with its number after a comma when there is one) and the area (suburb, else neighbourhood), each only when non-empty, joined by `, ` |
| Geocoding.TranslateModifier | src/services/geocoding.ts:420-431 | left turns of every sharpness give `esquerda`, right turns `direita`, straight `frente`; anything else passes through |
| Geocoding.TurnText | src/services/geocoding.ts:403-416 | the turn wording is never empty |
| Geocoding.TurnInstruction | src/services/geocoding.ts:403-418 | an unknown modifier says `Continue`; a street name is added after ` para ` exactly when non-empty |
| Geocoding.Suffix | src/services/geocoding.ts:387-398 | a name suffix is empty without a name and the separator plus the name otherwise |
| Geocoding.FallbackInstruction | src/services/geocoding.ts:400 | the fallback wording starts with `Continue` |
| Geocoding.StepInstruction | src/services/geocoding.ts:378-401 | the instruction is never empty; an unknown type, or `continue`, says `Continue` plus the street; a turn uses the turn wording |
| Geocoding.RoundaboutIsRotary | src/services/geocoding.ts:396-397 | a roundabout and a rotary are described alike |
| Geocoding.StepOf | src/services/geocoding.ts:361-369 | a step's fields default to empty text or 0, and its instruction is built from its own type, modifier and name |
| Geocoding.LegSteps | src/services/geocoding.ts:355-370 | one step per step of the leg, in order |
| Geocoding.StepsOfLength | src/services/geocoding.ts:354-371 | the route yields as many steps as its legs hold |
| Geocoding.ExtractSteps | src/services/geocoding.ts:352-373 | the nested loops produce the steps of every leg in order, a missing leg list as none |
| Geocoding.OsrmProfile | src/services/geocoding.ts:309-318 | the profile is always one the router knows; walking and foot map to `foot`, cycling and bike to `bike`, and anything unknown to `driving` |
| Geocoding.Round | src/services/geocoding.ts:338 | `Math.round` gives the nearest integer, halves up |
| Geocoding.Hundredths | src/services/geocoding.ts:337 | `parseFloat(x.toFixed(2))` lies within half a hundredth of the value |
| Geocoding.RouteFromResponse | src/services/geocoding.ts:330-342 | a route exists exactly when the code is `Ok` and there is one; its kilometres are within half a hundredth of the metres over 1000, minutes the rounded seconds over 60, steps present exactly when asked for, and the summary the first leg's or empty |
| Geocoding.FallbackQuery | src/services/geocoding.ts:498-506 | the geocoding query always ends with `Brasil` |
| Geocoding.FallbackQueryOfNothing | src/services/geocoding.ts:498-506 | with every part empty the query is just `Brasil` |
| Geocoding.BrazilianFallback | src/services/geocoding.ts:495-516 | an unknown CEP gives nothing; a result is the first geocoded place, carrying the CEP the lookup returned |
| IntentLogsPage.Request | src/pages/automation/IntentLogsPage.tsx:26-31 | 20 logs per request from offset (page - 1) * 20, a multiple of 20 from page 1 on; intent and method are sent exactly when their filter is non-empty |
| IntentLogsPage.ConsecutivePagesAdjoin | src/pages/automation/IntentLogsPage.tsx:27-28 | the next page starts exactly where the previous one ends |
| IntentLogsPage.TotalPages | src/pages/automation/IntentLogsPage.tsx:54 | `Math.ceil(count / 20)`: the fewest pages of 20 that hold every log |
| IntentLogsPage.PreviousPage | src/pages/automation/IntentLogsPage.tsx:148 | one page back, never below 1 |
| IntentLogsPage.NextPage | src/pages/automation/IntentLogsPage.tsx:155 | one page forward, never past the last page |
| IntentLogsPage.ArrowsStayInRange | src/pages/automation/IntentLogsPage.tsx:147-157 | from a valid page, back stays within 1 and the page; an enabled forward arrow moves exactly one page and stays in range |
| IntentLogsPage.SetIntentFilter | src/pages/automation/IntentLogsPage.tsx:76-79 | choosing an intent keeps the other filters and goes back to page 1, whose request starts at offset 0 |
| IntentLogsPage.SetMethodFilter | src/pages/automation/IntentLogsPage.tsx:89-92 | choosing a method keeps the other filters and goes back to page 1, whose request starts at offset 0 |
| IntentLogsPage.SetSearchTerm | src/pages/automation/IntentLogsPage.tsx:70-71 | typing a search keeps the page and does not change the request |
| IntentLogsPage.FilteredLogs | src/pages/automation/IntentLogsPage.tsx:45-52 | an empty search shows every loaded log; filtering never adds any |
| IntentLogsPage.FilteredLogsKeeps | src/pages/automation/IntentLogsPage.tsx:45-52 | a log is shown exactly when the search is empty or its lower-cased text or its phone contains the lower-cased search |
| IntentLogsPage.MethodBadge | src/pages/automation/IntentLogsPage.tsx:130 | the method shows upper-cased with the same length, and nothing when missing |
| MarketingService.DropRun | src/services/marketingService.ts:439 | a run of non-slug characters is consumed whole, so what follows starts with a slug character |
| MarketingService.TrimLeadingDashes | src/services/marketingService.ts:440 | the leading dashes are removed and nothing else |
| MarketingService.TrimTrailingDashes | src/services/marketingService.ts:440 | the trailing dashes are removed and nothing else |
| MarketingService.GenerateSlug | src/services/marketingService.ts:434-441 | every slug holds only `a-z`, `0-9` and single dashes, and neither starts nor ends with a dash |
| MarketingService.DashifyShape | src/services/marketingService.ts:439 | replacing runs of other characters by one dash leaves only slug characters and no double dash |
| MarketingService.TrimDashesShape | src/services/marketingService.ts:439-440 | trimming the end dashes of such text leaves a well-formed slug |
| MarketingService.SlugIdempotent | src/services/marketingService.ts:434-441 | the slug of a slug is itself |
| MarketingService.SlugExample | src/services/marketingService.ts:434-441 | the name `Pão!` gives the slug `pao` |
| MarketingService.TemplateSlug | src/services/marketingService.ts:495 | a non-empty given slug is sent as is; otherwise one is generated from the name, well formed |
| MarketingService.PresetTemplates | src/services/marketingService.ts:473-486 | one template per preset, in order, with id `preset-<key>`, slug `<key>`, active, for the store, type `custom` by default and a non-empty name for a non-empty key |
| MarketingService.PresetIdsDistinct | src/services/marketingService.ts:473-486 | distinct preset keys give distinct template ids |
| MarketingService.ListTemplates | src/services/marketingService.ts:448-471 | the store's own templates when the answer lists some; the presets when the request fails or lists none; empty only when there are no presets either |
| MarketingService.Cleaned | src/services/marketingService.ts:544-561 | the payload keeps exactly the fields that are not empty, null or missing, each with its value; a template is dropped when falsy or a preset and otherwise kept with its value |
| MarketingService.CleanCampaignData | src/services/marketingService.ts:544-561 | the two deletion passes produce exactly the cleaned payload |
| MarketingService.NumAt | src/services/marketingService.ts:676-682 | a non-zero statistic was read from that group and field as a number |
| MarketingService.StatsOf | src/services/marketingService.ts:650-714 | WhatsApp figures are always zero; unsubscribed is total minus active; a failed or empty answer gives all-zero stats; subscriber totals come from their fields, `new_last_30_days` for the month |
| MarketingService.MissingGroupIsZero | src/services/marketingService.ts:677-682 | an answer without a subscribers group reports zero subscribers |
| MediaViewer.KindOf | src/components/chat/MediaViewer.old.tsx:42-45 | each media type gets the kind whose test it passes: image, video, audio, else document |
| MediaViewer.ExactlyOneKind | src/components/chat/MediaViewer.old.tsx:42-45 | no type passes two of the image, video and audio tests, and every type has a kind |
| MediaViewer.ZoomedIn | src/components/chat/MediaViewer.old.tsx:144 | zooming in never passes 3 and never shrinks a zoom within range |
| MediaViewer.ZoomedOut | src/components/chat/MediaViewer.old.tsx:145 | zooming out never goes below 0.5 and never grows a zoom within range |
| MediaViewer.ZoomSteps | src/components/chat/MediaViewer.old.tsx:144-145 | each step moves by 0.25 up to the bound; zooming in then out returns to the start unless capped |
| MediaViewer.Viewer.constructor | src/components/chat/MediaViewer.old.tsx:56-59 | the viewer starts at zoom 1, centred and not dragging |
| MediaViewer.Viewer.ZoomIn | src/components/chat/MediaViewer.old.tsx:144 | only the zoom changes, to the zoomed-in value, staying within bounds |
| MediaViewer.Viewer.ZoomOut | src/components/chat/MediaViewer.old.tsx:145 | only the zoom changes, to the zoomed-out value, staying within bounds |
| MediaViewer.Viewer.ResetZoom | src/components/chat/MediaViewer.old.tsx:146-149 | zoom goes back to 1 and the image to the centre |
| MediaViewer.Viewer.Wheel | src/components/chat/MediaViewer.old.tsx:171-179 | wheeling up zooms in, anything else zooms out; nothing else changes |
| MediaViewer.Viewer.MouseDown | src/components/chat/MediaViewer.old.tsx:151-156 | when zoomed in, dragging starts from the pointer minus the position; otherwise nothing changes |
| MediaViewer.Viewer.MouseMove | src/components/chat/MediaViewer.old.tsx:158-165 | while dragging a zoomed image the position follows the pointer; otherwise nothing changes |
| MediaViewer.Viewer.MouseUp | src/components/chat/MediaViewer.old.tsx:167-169 | dragging stops and nothing else changes |
| MediaViewer.DragFollowsPointer | src/components/chat/MediaViewer.old.tsx:151-165 | the image moves by exactly as much as the pointer moved since the grab |
| MediaViewer.PadTwo | src/components/chat/MediaViewer.old.tsx:184 | `padStart(2, '0')`: short text gets a leading zero, longer text is kept |
| MediaViewer.MinutesSeconds | src/components/chat/MediaViewer.old.tsx:182-183 | whole minutes and the seconds below 60 add back to the whole seconds |
| MediaViewer.FormatTimeReadsBack | src/components/chat/MediaViewer.old.tsx:181-185 | the text is minutes, a colon and two digits of seconds below 60, and reading it back gives the whole seconds |
| MessageInput.DefaultCounterThreshold | src/components/chat/MessageInput.tsx:172 | with the default limit of 4096 the counter appears exactly from 3277 characters, above 80 % of it |
| MessageInput.CounterBeforeLimit | src/components/chat/MessageInput.tsx:172 | the counter shows at the limit and not at 80 % of it |
| MessageInput.SendableIsNonBlank | src/components/chat/MessageInput.tsx:131 | sending is possible exactly when the text is not blank and the input is neither disabled nor loading |
| MessageInput.Composer.constructor | src/components/chat/MessageInput.tsx:30-44 | the composer starts empty, not typing and with no timer, with the given limit and flags |
| MessageInput.Composer.HandleTyping | src/components/chat/MessageInput.tsx:60-79 | without a typing callback nothing happens; with one the state becomes typing, the timer is armed, and `true` is signalled exactly when it was not typing before; `false` is never signalled here |
| MessageInput.Composer.TypingTimeout | src/components/chat/MessageInput.tsx:75-78 | the timer fires only while armed; typing then stops, the timer is spent and `false` is signalled |
| MessageInput.Composer.Unmount | src/components/chat/MessageInput.tsx:82-91 | on unmount the timer is cleared, and `false` is signalled exactly when typing with a callback |
| MessageInput.Composer.HandleChange | src/components/chat/MessageInput.tsx:93-99 | text over the limit is ignored; otherwise it replaces the text and counts as typing |
| MessageInput.Composer.HandleSend | src/components/chat/MessageInput.tsx:101-121 | a message is sent exactly when sending is possible, as the trimmed non-empty text; the box and the typing timer are then cleared and typing stops, signalling `false` exactly when it was typing; otherwise nothing changes |
| NewCampaignPage.ValidEmailExamples | src/pages/marketing/email/NewCampaignPage.tsx:118 | the address pattern accepts `ana@loja.com` and rejects a missing dot, a missing local part and an empty domain label |
| NewCampaignPage.AddError | src/pages/marketing/email/NewCampaignPage.tsx:113-125 | a recipient is accepted exactly when the e-mail is non-empty, well formed and not already listed; an empty one gets `Email é obrigatório` |
| NewCampaignPage.AddKeepsDistinct | src/pages/marketing/email/NewCampaignPage.tsx:122-129 | accepting a recipient keeps the list free of repeated e-mails |
| NewCampaignPage.RemoveRecipient | src/pages/marketing/email/NewCampaignPage.tsx:134-139 | removal drops exactly the recipients with that e-mail |
| NewCampaignPage.RemoveKeepsDistinct | src/pages/marketing/email/NewCampaignPage.tsx:134-139 | removal keeps the list free of repeated e-mails |
| NewCampaignPage.AssignLookup | src/pages/marketing/email/NewCampaignPage.tsx:141-146 | after `{ ...variables, [key]: value }` the key reads the new value and every other key its old one |
| NewCampaignPage.BlankedLookup | src/pages/marketing/email/NewCampaignPage.tsx:108 | every template variable starts out empty |
| NewCampaignPage.Placeholder | src/pages/marketing/email/NewCampaignPage.tsx:151 | a placeholder starts with `{{` |
| NewCampaignPage.EmptyValueKeepsPlaceholder | src/pages/marketing/email/NewCampaignPage.tsx:151 | an empty value puts the placeholder back, so the text is unchanged |
| NewCampaignPage.UnfilledKeepsTemplate | src/pages/marketing/email/NewCampaignPage.tsx:150-152 | with every variable empty the template's variables are left as they were |
| NewCampaignPage.PlainTemplatePreview | src/pages/marketing/email/NewCampaignPage.tsx:148-157 | content without placeholders previews unchanged |
| NewCampaignPage.PreviewHtml | src/pages/marketing/email/NewCampaignPage.tsx:148-157 | the replacement loop then the store name and year replacements produce the preview the definition describes |
| NewCampaignPage.NextStep | src/pages/marketing/email/NewCampaignPage.tsx:221-226 | forward moves one step until review, and never past it |
| NewCampaignPage.PrevStep | src/pages/marketing/email/NewCampaignPage.tsx:228-233 | back moves one step, never before the first |
| NewCampaignPage.NextThenPrev | src/pages/marketing/email/NewCampaignPage.tsx:221-233 | forward then back returns to the step before review it started from |
| NewCampaignPage.GuardsBeforeReview | src/pages/marketing/email/NewCampaignPage.tsx:206-219 | passing the content and audience guards leaves nothing for the send checks to refuse once a store is chosen |
| NewCampaignPage.SendError | src/pages/marketing/email/NewCampaignPage.tsx:159-173 | sending is refused exactly when there is no store, no recipient or no subject |
| NewCampaignPage.Wizard.constructor | src/pages/marketing/email/NewCampaignPage.tsx:54-73 | the wizard starts on the template step with nothing selected and no recipients |
| NewCampaignPage.Wizard.AddRecipient | src/pages/marketing/email/NewCampaignPage.tsx:113-132 | on acceptance the recipient is appended and the input cleared; on refusal nothing changes |
| NewCampaignPage.Wizard.RemoveRecipientWith | src/pages/marketing/email/NewCampaignPage.tsx:134-139 | only the recipient list changes, by the removal rule |
| NewCampaignPage.Wizard.SelectTemplate | src/pages/marketing/email/NewCampaignPage.tsx:101-111 | the template is selected, the name becomes `Campanha - ` plus its name, subject and content are copied, its variables start empty, and the wizard moves to content |
| NewCampaignPage.Wizard.ChangeVariable | src/pages/marketing/email/NewCampaignPage.tsx:141-146 | only the variables change, one key assigned |
| NewCampaignPage.Wizard.GoToNextStep | src/pages/marketing/email/NewCampaignPage.tsx:221-226 | only the step changes, forward |
| NewCampaignPage.Wizard.GoToPrevStep | src/pages/marketing/email/NewCampaignPage.tsx:228-233 | only the step changes, back |
| NodeConfigPanel.ButtonsOf | src/components/FlowBuilder/NodeConfigPanel.tsx:33 | missing buttons read as none |
| NodeConfigPanel.NewButton | src/components/FlowBuilder/NodeConfigPanel.tsx:27-30 | a new button has the default title and the id `btn_` followed by the current time |
| NodeConfigPanel.SpliceStart | src/components/FlowBuilder/NodeConfigPanel.tsx:39 | `splice` starts at the index when within the list, counts from the end for a negative one, and never past the end |
| NodeConfigPanel.RemovedAt | src/components/FlowBuilder/NodeConfigPanel.tsx:37-41 | removing drops exactly the button at the splice position and keeps the others in order; a position at the end removes nothing |
| NodeConfigPanel.RemovedAtMultiset | src/components/FlowBuilder/NodeConfigPanel.tsx:37-41 | the removed button plus the remaining ones are exactly the original buttons |
| NodeConfigPanel.UpdatedAt | src/components/FlowBuilder/NodeConfigPanel.tsx:43-47 | only the button at the index changes, and in it only the field, which takes the value |
| NodeConfigPanel.AddThenRemoveLast | src/components/FlowBuilder/NodeConfigPanel.tsx:26-41 | adding a button and removing the last one, by index or by -1, gives back the buttons |
| NodeConfigPanel.UpdateTwiceKeepsLast | src/components/FlowBuilder/NodeConfigPanel.tsx:43-47 | two edits of the same field keep the last value |
| NodeConfigPanel.Panel.constructor | src/components/FlowBuilder/NodeConfigPanel.tsx:10-15 | the form starts as the node's data, nothing saved, panel open |
| NodeConfigPanel.Panel.NodeChanged | src/components/FlowBuilder/NodeConfigPanel.tsx:17-19 | a new node resets the form to its data |
| NodeConfigPanel.Panel.SetField | src/components/FlowBuilder/NodeConfigPanel.tsx:61 | only the field changes in the form |
| NodeConfigPanel.Panel.Save | src/components/FlowBuilder/NodeConfigPanel.tsx:21-24 | the form is handed over once and the panel closes |
| NodeConfigPanel.Panel.AddButton | src/components/FlowBuilder/NodeConfigPanel.tsx:26-35 | the buttons gain the new button at the end; other fields stay |
| NodeConfigPanel.Panel.RemoveButton | src/components/FlowBuilder/NodeConfigPanel.tsx:37-41 | the buttons become those of the removal rule; other fields stay |
| NodeConfigPanel.Panel.UpdateButton | src/components/FlowBuilder/NodeConfigPanel.tsx:43-47 | the buttons become those of the edit rule; other fields stay |
| NodeConfigPanel.EditThenSave | src/components/FlowBuilder/NodeConfigPanel.tsx:17-35 | opening a node, adding a button and saving hands over the node's fields and its buttons plus the new one |
| NotificationDropdown.AllRead | src/components/notifications/NotificationDropdown.tsx:68-70 | marking all as read maps every notification, keeping the order and length, to its read copy; one clock reading stands for the `new Date()` the source takes per notification |
| NotificationDropdown.OneRead | src/components/notifications/NotificationDropdown.tsx:80-83 | marking one as read changes exactly the notifications with that id and leaves every other one as it was |
| NotificationDropdown.AllReadLeavesNoneUnread | src/components/notifications/NotificationDropdown.tsx:65-72 | after marking all as read no notification is unread and every id stays in its place |
| NotificationDropdown.OneReadCount | src/components/notifications/NotificationDropdown.tsx:77-86 | marking one as read never raises the unread count, and leaves it unchanged when that notification was already read |
| NotificationDropdown.Badge | src/components/notifications/NotificationDropdown.tsx:115-118 | the bell shows no badge exactly at zero unread, "99+" above 99, and otherwise at most two decimal digits |
| NotificationDropdown.BadgeReadsBack | src/components/notifications/NotificationDropdown.tsx:117 | for 1..99 unread the badge's digits read back as the count |
| NotificationDropdown.Icon | src/components/notifications/NotificationDropdown.tsx:91-105 | any type other than the five known ones gets the default bell icon |
| NotificationDropdown.Dropdown.constructor | src/components/notifications/NotificationDropdown.tsx:11-12 | the dropdown starts with no notifications and zero unread |
| NotificationDropdown.Dropdown.Receive | src/components/notifications/NotificationDropdown.tsx:22-26 | a pushed notification is put first and the unread count goes up by one |
| NotificationDropdown.Dropdown.MarkAllAsRead | src/components/notifications/NotificationDropdown.tsx:65-75 | when the call succeeds all notifications are read and the count is zero; when it fails nothing changes |
| NotificationDropdown.Dropdown.MarkAsRead | src/components/notifications/NotificationDropdown.tsx:77-89 | when the call succeeds that notification is read and the count drops by one but never below zero; when it fails nothing changes |
| NotificationDropdown.Dropdown.Click | src/components/notifications/NotificationDropdown.tsx:152 | clicking an already read notification changes nothing; clicking an unread one marks it read and lowers the counter by one (not below zero) when the call succeeds, and changes nothing when it fails |
| NotificationDropdown.Dropdown.LoadNotifications | src/components/notifications/NotificationDropdown.tsx:44-54 | a fetched page replaces the list, a failed fetch keeps it, and the counter is untouched |
| NotificationDropdown.Dropdown.LoadUnreadCount | src/components/notifications/NotificationDropdown.tsx:56-63 | the server's count replaces the counter, a failed fetch keeps it, and the list is untouched |
| OrderDetailPage.ForwardAction | src/pages/orders/OrderDetailPage.tsx:183-199 | exactly the five statuses pending, confirmed, awaiting_payment, paid and shipped offer a forward step, and it is never the danger cancel |
| OrderDetailPage.StatusActions | src/pages/orders/OrderDetailPage.tsx:180-204 | at most two actions; cancel is offered, always last, exactly when the order is not cancelled, delivered or refunded, and terminal orders offer nothing |
| OrderDetailPage.ForwardChain | src/pages/orders/OrderDetailPage.tsx:184-198 | the forward steps walk pending to confirm, confirmed to awaiting payment, awaiting payment to paid, paid to ship and shipped to deliver |
| OrderDetailPage.ItemEditingMatchesCancel | src/pages/orders/OrderDetailPage.tsx:349 | items can be edited exactly when the order can still be cancelled |
| OrderDetailPage.ServiceFor | src/pages/orders/OrderDetailPage.tsx:75-92 | exactly the five actions confirm, awaiting_payment, paid, deliver and cancel call an order service, and cancel calls the cancel service |
| OrderDetailPage.OfferedActionsAreHandled | src/pages/orders/OrderDetailPage.tsx:70-102 | every offered action is either ship, offered only for paid orders and handled by the ship modal, or has a service call |
| OrderDetailPage.Page.constructor | src/pages/orders/OrderDetailPage.tsx:70 | the page starts with the loaded order, no action in progress and the ship modal closed |
| OrderDetailPage.Page.HandleStatusAction | src/pages/orders/OrderDetailPage.tsx:70-102 | without an order nothing happens; an unknown action leaves the order; a known one replaces it with the service's answer, or keeps it when the call fails; the loading flag is cleared either way |
| OrderDetailPage.Page.Click | src/pages/orders/OrderDetailPage.tsx:242-246 | ship opens the ship modal and changes nothing else; other actions leave the modal as it was |
| OrderNewPage.FindProduct | src/pages/orders/OrderNewPage.tsx:146 | the product found carries the chosen id and comes from the catalogue; none is found only when no product has that id |
| OrderNewPage.FindItem | src/pages/orders/OrderNewPage.tsx:150 | the first index whose item has the product id, or none when no item has it |
| OrderNewPage.SubtotalAppend | src/pages/orders/OrderNewPage.tsx:121 | the subtotal of two item lists one after the other is the sum of their subtotals |
| OrderNewPage.SubtotalOne | src/pages/orders/OrderNewPage.tsx:121 | one item contributes its unit price times its quantity |
| OrderNewPage.SubtotalRaise | src/pages/orders/OrderNewPage.tsx:151-156 | raising one item's quantity raises the subtotal by its unit price times the extra quantity |
| OrderNewPage.AddedItems | src/pages/orders/OrderNewPage.tsx:150-165 | adding a product already in the order raises that item's quantity in place; otherwise a new item with the product's id, name and price is appended |
| OrderNewPage.AddedItemsKeep | src/pages/orders/OrderNewPage.tsx:150-165 | adding keeps each product on at most one line, and the line count grows by one only for a new product |
| OrderNewPage.AddedItemsSubtotal | src/pages/orders/OrderNewPage.tsx:120-123 | adding raises the subtotal by the line's price times the added quantity |
| OrderNewPage.RaiseKeepsUnique | src/pages/orders/OrderNewPage.tsx:151-156 | raising a quantity in place keeps each product on at most one line |
| OrderNewPage.AppendKeepsUnique | src/pages/orders/OrderNewPage.tsx:157-164 | appending a product not yet in the order keeps each product on at most one line |
| OrderNewPage.DeliveryFee | src/pages/orders/OrderNewPage.tsx:122 | the fee is 5.00 exactly for delivery and 0 for every other method |
| OrderNewPage.TotalsOf | src/pages/orders/OrderNewPage.tsx:120-125 | the total is the items' subtotal plus the delivery fee |
| OrderNewPage.ItemPicker.constructor | src/pages/orders/OrderNewPage.tsx:84-87 | the picker starts with the loaded catalogue, no items, no product selected and quantity 1 |
| OrderNewPage.ItemPicker.AddItem | src/pages/orders/OrderNewPage.tsx:143-168 | an item is added exactly when a product is selected, the quantity is at least 1 and the product exists; then the items are the added list and the picker resets, otherwise nothing changes |
| OrderNewPage.ItemPicker.RemoveItem | src/pages/orders/OrderNewPage.tsx:171-173 | removing an index in range drops just that item; an index out of range changes nothing |
| OrderNewPage.AcceptedOrderTotal | src/pages/orders/OrderNewPage.tsx:68-73 | items of at least one unit, the minimum the form schema demands, at non-negative prices never give a negative subtotal, so the total is never below the delivery fee |
| OrderNewPage.EffectiveStore | src/pages/orders/OrderNewPage.tsx:82 | the store is the first non-empty of the route id, the store slug and the context id, and is missing only when all three are |
| OrderNewPage.SubmitPayload | src/pages/orders/OrderNewPage.tsx:176-197 | without a store the submit is refused; otherwise the payload names that store, carries the address only for delivery, drops an empty email and lists each item's product id and quantity in order |
| OrdersPage.StatusVocabulary | src/pages/orders/OrdersPage.tsx:56-64 | the page knows thirteen distinct order statuses, and the "all" tab is not one of them |
| OrdersPage.EffectiveStoreId | src/pages/orders/OrdersPage.tsx:94 | the store is the route id when it is non-empty, else the slug, else the context id, and is missing only when all three are empty |
| OrdersPage.FilteredOrders | src/pages/orders/OrdersPage.tsx:147-158 | the filter never lengthens the list, and with no search text on the "all" tab it shows every order |
| OrdersPage.FilteredOrdersKeeps | src/pages/orders/OrdersPage.tsx:147-158 | an order is listed exactly when it is loaded, matches the search text and matches the status tab |
| OrdersPage.TabListsItsCount | src/pages/orders/OrdersPage.tsx:154-165 | with no search text, a status tab lists exactly as many orders as its count says |
| OrdersPage.StatusCounts | src/pages/orders/OrdersPage.tsx:161-168 | the counts hold "all" as the number of orders and, for each of the thirteen statuses, the number of orders in it, and no other key |
| OrdersPage.SumStatusCountsIsCount | src/pages/orders/OrdersPage.tsx:163-165 | summing the per-status counts over distinct statuses counts the orders whose status is one of them |
| OrdersPage.StatusCountsAtMostAll | src/pages/orders/OrdersPage.tsx:161-168 | the per-status counts never add up to more than the "all" count |
| OrdersPage.ApplyOrderUpdate | src/pages/orders/OrdersPage.tsx:113-116 | a pushed update keeps the list's length, leaves orders with another id alone, and on the matching order overwrites exactly the fields the update carries |
| OrdersPage.OrderUpdateIdempotent | src/pages/orders/OrdersPage.tsx:113-116 | applying the same pushed update twice gives the same list as applying it once |
| OrdersPage.AddNewOrder | src/pages/orders/OrdersPage.tsx:118-121 | a pushed new order goes first and the loaded orders follow unchanged |
| OrdersPage.NewOrderCounts | src/pages/orders/OrdersPage.tsx:118-121 | a new order raises its own status's count by one and no other |
| OrdersPage.ExportStatus | src/pages/orders/OrdersPage.tsx:175 | the export sends no status filter exactly on the "all" tab, and otherwise the tab's status |
| OrdersPage.PaymentPalette | src/pages/orders/OrdersPage.tsx:366-369 | the payment badge is green exactly for paid and amber exactly for pending |
| PanelEventsStore.EventStore.constructor | lib/panelEventsStore.ts:7 | the store starts with no last event |
| PanelEventsStore.EventStore.SetLastEvent | lib/panelEventsStore.ts:9-13 | after setting an event, reading the last event gives back exactly that event |
| WebhookOrders.VerifyNeedsHeaderAndSecret | pages/api/webhooks/orders.ts:19-20 | a missing or empty signature header, or an empty secret, never verifies |
| WebhookOrders.VerifyLengthMismatch | pages/api/webhooks/orders.ts:22-27 | a provided signature of another length than the digest is refused, as the constant-time comparison throws and the throw is caught |
| WebhookOrders.VerifyAcceptsPrefixed | pages/api/webhooks/orders.ts:19-28 | with a secret set, the header "v1=" followed by the body's digest verifies |
| WebhookOrders.VerifyAcceptsBareDigest | pages/api/webhooks/orders.ts:19-28 | with a secret set, the bare hexadecimal digest also verifies, since removing "v1=" leaves it unchanged |
| WebhookOrders.HexHoldsNoMarker | pages/api/webhooks/orders.ts:22 | a hexadecimal digest never contains the "v1=" marker |
| WebhookOrders.VerifyMeansDigest | pages/api/webhooks/orders.ts:19-28 | a signature verifies only when the secret is set and the header, with its first "v1=" removed, is exactly the body's digest |
| WebhookOrders.DataOrEmpty | pages/api/webhooks/orders.ts:56 | the stored data is the payload's data when it is truthy and an empty object otherwise |
| WebhookOrders.Handler | pages/api/webhooks/orders.ts:30-61 | non-POST is answered 405, a bad signature 401, unparsable JSON 400 and a missing event 400; only a signed payload with an event is stored, with its data and the receive time, and answered 200; every other answer leaves the store unchanged |
| PanelWebhookPoll.NewStamp | hooks/usePanelWebhookPoll.ts:21-24 | a poll acts only on a non-empty receive time that differs from the last one seen, and then on exactly that time |
| PanelWebhookPoll.SameStampOnce | hooks/usePanelWebhookPoll.ts:21-30 | polling the same data twice acts at most once: the second poll finds no new time and does not notify again |
| PanelWebhookPoll.StampRecordedWithoutEvent | hooks/usePanelWebhookPoll.ts:22-29 | a new time without an event is recorded without notifying, so a later event carrying the same time is not notified either |
| PanelWebhookPoll.Poller.constructor | hooks/usePanelWebhookPoll.ts:16 | the poller starts having seen no receive time |
| PanelWebhookPoll.Poller.OnData | hooks/usePanelWebhookPoll.ts:21-30 | on each poll the cached order lists are revalidated exactly for a new receive time, the callback runs exactly for a new time with an event, and the new time is remembered |
| PastitaApi.LengthOf | src/services/pastitaApi.ts:33-34 | an array's length is its number of items, and a value that is neither an array nor a string has no length |
| PastitaApi.StoreLookup | src/services/pastitaApi.ts:28-43 | a failed request propagates its error, an empty store list is a not-found error naming the slug, and a store id is only ever produced from a received response |
| PastitaApi.FirstStoreWins | src/services/pastitaApi.ts:33-36 | when the first store carries an id, that id is the answer, whether the stores come bare or under "results" |
| PastitaApi.EmptyResultsNotFound | src/services/pastitaApi.ts:33-38 | an empty result list, bare or under "results", is reported as the slug not being found |
| PastitaApi.StoreCache.constructor | src/services/pastitaApi.ts:26 | the cache starts empty for the configured slug, with no lookups made |
| PastitaApi.StoreCache.GetStoreId | src/services/pastitaApi.ts:28-43 | a truthy cached id is returned without a request; otherwise one lookup is made, its id cached on success and the cache left as it was on error |
| PastitaApi.StoreCache.ClearStoreCache | src/services/pastitaApi.ts:46-48 | clearing empties the cache and makes no request |
| PastitaApi.TwoLookups | src/services/pastitaApi.ts:28-43 | of two calls in a row, the second reuses a successfully found id with one request in all, while a failed first call is retried with a second request |
| PastitaApi.LookupClearLookup | src/services/pastitaApi.ts:28-48 | after clearing the cache between two calls, each call looks the store up afresh, two requests in all |
| PastitaApi.Stats | src/services/pastitaApi.ts:629-654 | the stats count each catalogue list and the orders, count paid (pago or entregue) and pending (pendente) orders, and give the paid orders' revenue formatted with two decimals |
| PastitaApi.ReduceShift | src/services/pastitaApi.ts:642 | summing from a starting amount is that amount plus the sum from zero |
| PastitaApi.ReduceIsPaidRevenue | src/services/pastitaApi.ts:641-642 | filtering the paid orders and then summing their totals gives the paid revenue |
| PastitaApi.PaidAndPendingApart | src/services/pastitaApi.ts:641-652 | paid and pending orders together never outnumber all orders |
| PastitaApi.RevenueReadsBack | src/services/pastitaApi.ts:642-653 | with non-negative totals the formatted revenue reads back as a number within half a cent of the exact paid revenue |
| PastitaApi.PaidRevenueNonNegative | src/services/pastitaApi.ts:642 | with non-negative order totals the paid revenue is never negative |
| PastitaApi.OtherStatusCountsOnlyInTotal | src/services/pastitaApi.ts:641-653 | an order that is neither paid nor pending raises only the order count and leaves the paid and pending counts and the revenue unchanged |
| PastitaApi.PaidRevenueSnoc | src/services/pastitaApi.ts:641-642 | one more order adds its total to the revenue exactly when it is paid |
| PastitaProductsPage.FilterBySearch | src/pages/pastita/PastitaProductsPage.tsx:862-867 | with no search term every item is shown, and the search never adds items |
| PastitaProductsPage.SearchShows | src/pages/pastita/PastitaProductsPage.tsx:862-867 | an item is shown exactly when it is in the list and, for a non-empty term, its lower-cased name contains the lower-cased term |
| PastitaProductsPage.SearchKeepsOrder | src/pages/pastita/PastitaProductsPage.tsx:864-866 | the shown items keep the order they have in the list |
| PastitaProductsPage.SearchIgnoresTermCase | src/pages/pastita/PastitaProductsPage.tsx:865 | searching for a term or for its lower-cased form shows the same items |
| PastitaProductsPage.ToggleId | src/pages/pastita/PastitaProductsPage.tsx:317-326 | ticking a sauce appends its id; unticking removes every copy of it and never lengthens the list |
| PastitaProductsPage.UntickKeepsOthers | src/pages/pastita/PastitaProductsPage.tsx:322-326 | unticking one sauce leaves every other sauce in the list, with as many copies as before |
| PastitaProductsPage.ClickFlipsTick | src/pages/pastita/PastitaProductsPage.tsx:315-326 | clicking a box whose tick shows whether the id is listed flips whether it is listed |
| PastitaProductsPage.TickThenUntick | src/pages/pastita/PastitaProductsPage.tsx:317-326 | ticking an unlisted sauce and then unticking it gives back the original list |
| PastitaProductsPage.ToggleCompatibleSauce | src/pages/pastita/PastitaProductsPage.tsx:311-330 | the meat form's sauce box changes the compatible sauce list as a toggle and no other field |
| PastitaProductsPage.ToggleIncludedSauce | src/pages/pastita/PastitaProductsPage.tsx:626-645 | the combo form's sauce box changes the included sauce list as a toggle and no other field |
| PastitaProductsPage.SauceBoxesAgree | src/pages/pastita/PastitaProductsPage.tsx:311-645 | the two forms' sauce boxes treat the same list the same way |
| PastitaProductsPage.NewFormDefaults | src/pages/pastita/PastitaProductsPage.tsx:98-522 | a new sauce, meat, rondelli or combo form starts with the stated defaults: 500 g, price 0, active, tradicional, bovina, classico, two people |
| PastitaProductsPage.EditedMolhoKeepsValues | src/pages/pastita/PastitaProductsPage.tsx:98-105 | editing a sauce keeps its non-empty name, its non-zero price and an inactive flag, since `??` only replaces a missing flag |
| PastitaProductsPage.ZeroQuantityReplaced | src/pages/pastita/PastitaProductsPage.tsx:102 | a stored quantity of 0 is shown as 500, since `||` treats 0 as missing |
| PastitaProductsPage.EditedSaucesKept | src/pages/pastita/PastitaProductsPage.tsx:228-516 | an edited meat or combo keeps its sauce ids as the ticked sauces |
| PastitaProductsPage.AddNew | src/pages/pastita/PastitaProductsPage.tsx:1072-1091 | the add button opens an empty form for the active tab only and leaves the other tabs, the tab and the search alone |
| PastitaProductsPage.AddNewIdempotent | src/pages/pastita/PastitaProductsPage.tsx:1072-1091 | pressing the add button twice is the same as pressing it once |
| JsNumbers.NumberOr | src/pages/pastita/PastitaSettingsPage.tsx:75-79 | reading a setting as a number with a fallback gives the number when it is a non-zero number and the fallback for NaN and for 0, so a non-zero fallback never yields 0 |
| PastitaSettingsPage.LoadedConfig | src/pages/pastita/PastitaSettingsPage.tsx:72-80 | every loaded delivery setting is non-zero, and a store without metadata loads the default settings |
| PastitaSettingsPage.SavedConfigMetadata | src/pages/pastita/PastitaSettingsPage.tsx:121-131 | saving writes the five delivery keys with the form's values and keeps every other metadata key as it was |
| PastitaSettingsPage.SaveThenLoad | src/pages/pastita/PastitaSettingsPage.tsx:72-131 | saving non-zero settings and loading them back gives the same settings |
| PastitaSettingsPage.ZeroSettingReloadsAsDefault | src/pages/pastita/PastitaSettingsPage.tsx:76 | a fee per km saved as 0 comes back as the default fee per km |
| PastitaSettingsPage.FieldInput | src/pages/pastita/PastitaSettingsPage.tsx:407 | a typed number is kept as parsed, and text that does not parse becomes 0 |
| PastitaSettingsPage.CheckLocation | src/pages/pastita/PastitaSettingsPage.tsx:144-161 | a location is accepted exactly when both texts parse and the latitude lies in -90..90 and the longitude in -180..180, and then with those numbers; the not-a-number message is given exactly when a text does not parse |
| PastitaSettingsPage.SavedLocationMetadata | src/pages/pastita/PastitaSettingsPage.tsx:165-172 | saving a location writes the two coordinate keys and keeps every other metadata key |
| PastitaSettingsPage.SaveLocation | src/pages/pastita/PastitaSettingsPage.tsx:144-183 | the save fails exactly when the check rejects the location, and otherwise writes coordinates that lie in range |
| PastitaSettingsPage.LocationKeepsDeliveryConfig | src/pages/pastita/PastitaSettingsPage.tsx:165-172 | saving a location does not change the delivery settings that load afterwards |
| PastitaSettingsPage.ExampleFee | src/pages/pastita/PastitaSettingsPage.tsx:186-193 | within the free distance the fee is the base fee; beyond it the fee is the base plus the extra km at the per-km rate, capped at the maximum fee |
| PastitaSettingsPage.ExampleFeeBounds | src/pages/pastita/PastitaSettingsPage.tsx:186-193 | with a non-negative rate and a base fee under the maximum, every example fee lies between the base fee and the maximum |
| PastitaSettingsPage.ExampleFeeMonotone | src/pages/pastita/PastitaSettingsPage.tsx:186-193 | under the same conditions a longer distance never costs less |
| PastitaSettingsPage.ExampleFees | src/pages/pastita/PastitaSettingsPage.tsx:482 | the table shows one fee for each of the distances 2, 5, 8 and 12 km |
| PastitaSettingsPage.DefaultExampleFees | src/pages/pastita/PastitaSettingsPage.tsx:26-32 | with the default settings the table reads 5, 8, 11 and 15 |
| PastitaSettingsPage.StoreInfoPayload | src/pages/pastita/PastitaSettingsPage.tsx:96-105 | saving the store information sends the eight text fields of the form, each unchanged |
| PaymentsPage.ShownStatus | src/pages/payments/PaymentsPage.tsx:142 | an order's shown status is never empty, and is its own payment status whenever that is set |
| PaymentsPage.StatusCounts | src/pages/payments/PaymentsPage.tsx:140-146 | the tally holds only statuses that occur, each with a positive count |
| PaymentsPage.StatusCountsCount | src/pages/payments/PaymentsPage.tsx:140-146 | the tally for each status is the number of orders showing it, an order without a status counting as pending |
| PaymentsPage.SumCountsBump | src/pages/payments/PaymentsPage.tsx:143 | bumping one status's tally raises the sum over distinct statuses by one exactly when that status is among them |
| PaymentsPage.StatusCountsSum | src/pages/payments/PaymentsPage.tsx:140-146 | over distinct statuses covering every order, the tallies add up to the number of orders |
| PaymentsPage.SumCountsNone | src/pages/payments/PaymentsPage.tsx:141-145 | an empty tally adds up to zero |
| PaymentsPage.FilterOptions | src/pages/payments/PaymentsPage.tsx:155-160 | there is one chip per status option, in order, each counting the orders showing that status |
| PaymentsPage.FilteredOrdersAsWritten | src/pages/payments/PaymentsPage.tsx:149-152 | as written, without a filter every order is listed; with one, only orders whose raw payment status equals it |
| PaymentsPage.PendingChipDisagreesWithList | src/pages/payments/PaymentsPage.tsx:140-152 | as written, one order without a status makes the pending chip count 1 while the pending list is empty |
| PaymentsPage.FilteredOrders | src/pages/payments/PaymentsPage.tsx:149-152 | without a filter every order is listed, and a filter never adds orders |
| PaymentsPage.FilteredOrdersMatchCount | src/pages/payments/PaymentsPage.tsx:140-160 | under a status chip exactly as many orders are listed as the chip counts, and they are the ones showing that status |
| PaymentsPage.ConfirmPayment | src/pages/payments/PaymentsPage.tsx:97-101 | confirming marks the order with that id paid in both status fields and leaves every other order alone |
| PaymentsPage.ConfirmPaymentResult | src/pages/payments/PaymentsPage.tsx:94-107 | when the server refuses, the list is unchanged; when it accepts, the order is confirmed |
| PaymentsPage.ConfirmPaymentIdempotent | src/pages/payments/PaymentsPage.tsx:97-101 | confirming twice is the same as confirming once, and the confirmed order shows paid |
| PaymentsPage.OrderStats | src/pages/payments/PaymentsPage.tsx:110-137 | the paid and pending counts together never exceed the number of orders, nor does today's count |
| PaymentsPage.TodayRevenueAtMostTotal | src/pages/payments/PaymentsPage.tsx:111-127 | with non-negative totals today's revenue never exceeds the total revenue |
| PaymentsPage.PaidTodayAtMostPaid | src/pages/payments/PaymentsPage.tsx:111-127 | with non-negative totals the paid orders of today add up to no more than all paid orders |
| PaymentsPage.SumTotalsAppend | src/pages/payments/PaymentsPage.tsx:113 | the totals of two lists one after the other add up to the sum of their totals |
| PaymentsPage.StatusLabel | src/pages/payments/PaymentsPage.tsx:60 | a known status shows its option's label and an unknown one shows itself |
| PaymentsPage.FindLabel | src/pages/payments/PaymentsPage.tsx:60 | among options with distinct values, the label of the option with the status when it is non-empty, and the status itself when no option has it |
| PaymentsPage.MethodLabel | src/pages/payments/PaymentsPage.tsx:191-193 | a missing or empty method shows as PIX, and an unknown method shows itself |
| PaymentsPage.RowActionFor | src/pages/payments/PaymentsPage.tsx:224-240 | the confirm button shows exactly for an explicitly pending order and the paid mark exactly for a paid one |
| ProductsService.FieldNamesDiffer | src/services/products.ts:44-51 | the eight form fields are sent under eight different names |
| ProductsService.FieldEntryNames | src/services/products.ts:44-51 | each field contributes its own name exactly when it is present, and nothing otherwise |
| ProductsService.EntriesSnoc | src/services/products.ts:44-51 | the entries for one more field are the earlier entries followed by that field's entry |
| ProductsService.PrefixStep | src/services/products.ts:44-51 | each step of the builder adds the next field's entry to those already written |
| ProductsService.AppendField | src/services/products.ts:44-51 | one guarded append adds that field's entry to the form data and nothing else |
| ProductsService.BuildProductFormData | src/services/products.ts:42-53 | the built form data holds the entries of the present fields in the builder's order |
| ProductsService.FieldNames | src/services/products.ts:44-51 | the names of a list of fields are each field's name, in order |
| ProductsService.EntriesNames | src/services/products.ts:44-51 | the names written are the names of the present fields, in order |
| ProductsService.FormNamesInOrder | src/services/products.ts:42-53 | the form data names exactly the present fields, in the order name, description, price, stock, category, sku, is_active, image |
| ProductsService.GetEntries | src/services/products.ts:44-51 | among distinct fields, a present field is read back under its name with its converted value |
| ProductsService.GetOfDefinedField | src/services/products.ts:42-53 | every present field is read back from the form data under its name with its converted value |
| ProductsService.NullsAndFalseAreSent | src/services/products.ts:45-50 | a null description or category is sent as an empty text and an explicit false flag as "false", since only undefined fields are skipped |
| ProductsService.NoFileNoImage | src/services/products.ts:51 | without an image file no image entry is sent |
| ProductsService.ProductQuery | src/services/products.ts:59-66 | without filters no query parameter is added |
| ProductsService.ProductsListUrl | src/services/products.ts:59-70 | the list is requested at the products URL with the filter query appended when there is one |
| ProductsService.NoFiltersNoQuery | src/services/products.ts:59-69 | when no filter is set the URL is the bare products URL, with no question mark |
| ProductsService.InactiveFilterIsSent | src/services/products.ts:63 | a false active flag alone is still sent, as is_active=false |
| ProductsService.QueryNames | src/services/products.ts:60-66 | the query names, in order, are search, category, is_active, ordering, page and page_size, each present exactly when its filter is given |
| ProductsService.QueryTextNames | src/services/products.ts:61-64 | search, category and ordering are sent exactly when they are non-empty |
| ProductsService.QueryFlagAndPageNames | src/services/products.ts:63-66 | is_active is sent exactly when the flag is set, and page and page_size exactly when they are non-zero |
| SettingsPage.CheckPasswordChange | src/pages/settings/SettingsPage.tsx:17-35 | a mismatched confirmation is rejected first; a matching password shorter than 8 is rejected as too short; only a matching password of at least 8 calls the service, with the old and new passwords |
| SettingsPage.FormAfter | src/pages/settings/SettingsPage.tsx:30-43 | the form is either kept or cleared, and it is cleared exactly after an accepted change that the server confirmed |
| SettingsPage.MismatchReportedFirst | src/pages/settings/SettingsPage.tsx:20-28 | a password that both mismatches and is too short is reported as a mismatch, and the form is kept |
| SettingsPage.EmptyFormRejected | src/pages/settings/SettingsPage.tsx:20-28 | submitting the empty form is rejected as too short |
| SettingsPage.TokenAfter | src/pages/settings/SettingsPage.tsx:30-37 | a confirmed change stores the token the service returns; a rejected form or a failed call keeps the stored token |
| SettingsPage.ClearedFormStoresNewToken | src/pages/settings/SettingsPage.tsx:30-38 | a non-empty form that the handler cleared was a confirmed change, so the returned token is the one stored |
| UnifiedApi.OrdersQuery | src/services/unifiedApi.ts:103-112 | without filters no query parameter is added |
| UnifiedApi.OrdersUrl | src/services/unifiedApi.ts:103-117 | orders are requested at the orders URL with the filter query appended when there is one |
| UnifiedApi.OrdersQueryNames | src/services/unifiedApi.ts:106-112 | the query names, in order, are store, status, created_at__gte, created_at__lte, search, page and page_size, each present exactly when its filter is given |
| UnifiedApi.DateFiltersRenamed | src/services/unifiedApi.ts:108-109 | the date range is sent as created_at__gte and created_at__lte exactly when its ends are given |
| UnifiedApi.DateFilterNamesNotSent | src/services/unifiedApi.ts:108-109 | the filter names date_from and date_to themselves are never sent |
| UnifiedApi.DateValuesSent | src/services/unifiedApi.ts:108-109 | given both ends, each is sent with its own value under its renamed key |
| UnifiedApi.NoFiltersBareUrl | src/services/unifiedApi.ts:103-117 | with no filters, or none set, the URL is the bare orders URL |
| UnifiedApi.ByCustomer | src/services/unifiedApi.ts:218-220 | looking orders up by customer searches for the phone in the given store and sets no other filter |
| UnifiedApi.OrdersByCustomerUrl | src/services/unifiedApi.ts:218-220 | the customer lookup requests the orders URL with that filter's query |
| UnifiedApi.ByCustomerQuery | src/services/unifiedApi.ts:106-112 | the customer lookup sends the store when one is given and then the phone as search when it is non-empty, and nothing else |
| UnifiedApi.OrderStatsUrl | src/services/unifiedApi.ts:121-131 | order statistics are requested at the stats URL with the store and period query |
| UnifiedApi.StatsQueryNames | src/services/unifiedApi.ts:123-125 | the store is sent exactly when given, the period exactly when chosen, and nothing else |
| UnifiedApi.SideParams | src/services/unifiedApi.ts:141-142 | the product and customer lists are asked for one item per page, with the store when one is given, and no other parameter |
| UnifiedApi.OrZeroDefaults | src/services/unifiedApi.ts:149-166 | each dashboard figure is a truthy value or zero, never missing, null or false, and defaulting it again changes nothing |
| UnifiedApi.Property | src/services/unifiedApi.ts:145-166 | reading a property of a null response body fails, and of any other body reads the field |
| UnifiedApi.Dashboard | src/services/unifiedApi.ts:134-171 | the dashboard fails exactly when a response body is null; otherwise the customer and product totals are the lists' counts defaulted to zero, and new customers, active products and low stock are always zero |
| UnifiedApi.MissingFiguresAreZero | src/services/unifiedApi.ts:147-161 | when the statistics carry no truthy figure, every order and revenue figure shows zero |
| UnifiedApi.SentFiguresShown | src/services/unifiedApi.ts:149-153 | a truthy total and pending count in the statistics are shown as sent |
| UnifiedApi.WeekAndMonthOutsideDeclaredShape | src/services/unifiedApi.ts:42-59 | the week and month figures read keys the declared statistics shape lacks, so for a response of that shape they always show zero |
| UnifiedApi.GetOrder | src/services/unifiedApi.ts:173-176 | fetching one order is a GET of that order's URL |
| UnifiedApi.StatusBody | src/services/unifiedApi.ts:179-182 | the body holds the status and every extra key, the extra data winning over the status when it also carries one |
| UnifiedApi.UpdateOrderStatus | src/services/unifiedApi.ts:178-184 | a status change is a POST to the order's update_status URL with that body |
| UnifiedApi.DataStatusWins | src/services/unifiedApi.ts:179-182 | when the extra data carries a status, the body is exactly the extra data |
| UnifiedApi.StatusShortcuts | src/services/unifiedApi.ts:186-204 | confirm, prepare and deliver post the statuses confirmed, preparing and delivered to update_status |
| UnifiedApi.DefinedProperty | src/services/unifiedApi.ts:195-197 | a property whose value is undefined is left out of the JSON body, and a given one is sent under its key |
| UnifiedApi.ShipOrder | src/services/unifiedApi.ts:194-200 | shipping posts to add_tracking, with the tracking code and carrier exactly when given |
| UnifiedApi.MarkPaid | src/services/unifiedApi.ts:206-211 | marking paid posts to mark_paid, with the payment reference exactly when given |
| UnifiedApi.CancelOrder | src/services/unifiedApi.ts:213-216 | cancelling posts to cancel, with the reason exactly when given |
| WebForms.SearchParams.constructor | src/services/unifiedApi.ts:104 | new query parameters hold no pair |
| WebForms.SearchParams.Append | src/services/unifiedApi.ts:106 | appending adds the pair after all earlier ones |
| WebForms.FormData.constructor | src/services/products.ts:43 | new form data holds no pair |
| WebForms.FormData.Append | src/services/products.ts:44 | appending adds the pair after all earlier ones |
| WebForms.GetFindsName | src/services/products.ts:44-51 | a name is read back exactly when some pair carries it, and then with a value it was given |
| WebForms.NamesAppend | src/services/unifiedApi.ts:106-112 | the names of two lists of pairs are the names of the first followed by those of the second |
| WebForms.GetAfter | src/services/products.ts:44-51 | reading a name that the first pairs do not carry skips them |
| WebForms.Serialize | src/services/products.ts:68 | the query text is empty exactly when there are no pairs |
| WebForms.WithQuery | src/services/products.ts:69 | with no pairs the URL is the base alone; otherwise the base, a question mark and the query text |
| WebForms.NameIf | src/services/unifiedApi.ts:106 | a guarded append contributes its name exactly when the guard holds |
| WebForms.NamesOfAppendIf | src/services/unifiedApi.ts:106 | the names a guarded append writes are exactly its name when the guard holds and none otherwise |
| WebForms.AppendParamIf | src/services/unifiedApi.ts:106-112 | a guarded append adds its pair after the earlier ones when the guard holds and changes nothing otherwise |
| WebSocket.ReconnectDelay | src/services/websocket.ts:62-75 | the wait before each reconnect attempt is at least the base delay of one second |
| WebSocket.ReconnectDelaySchedule | src/services/websocket.ts:17-69 | within the five allowed attempts each wait lies between 1 and 16 seconds and doubles the wait before it |
| WebSocket.Pow2Monotone | src/services/websocket.ts:69 | a later attempt never waits less than an earlier one |
| WebSocket.WebSocketService.constructor | src/services/websocket.ts:14-21 | a new service has no socket, no attempts, no handlers, no token and no address |
| WebSocket.WebSocketService.HandlersFor | src/services/websocket.ts:119 | the handlers of an event are those registered for it, and none for an event never registered |
| WebSocket.WebSocketService.CreateConnection | src/services/websocket.ts:29-33 | without an address or a token nothing is opened; otherwise a socket starts connecting on the address with the token as query |
| WebSocket.WebSocketService.Connect | src/services/websocket.ts:23-27 | connecting remembers the address and the token and opens a socket when both are non-empty, leaving handlers and counter alone |
| WebSocket.WebSocketService.Emit | src/services/websocket.ts:118-126 | every handler registered for the event is called exactly once and no other, and exactly the throwing ones are logged |
| WebSocket.WebSocketService.OnOpen | src/services/websocket.ts:35-39 | on open the socket is open, the attempt counter is reset and the connection_established handlers are called |
| WebSocket.WebSocketService.OnMessage | src/services/websocket.ts:41-48 | a message that does not parse calls no handler; one that parses calls exactly the handlers of its type |
| WebSocket.WebSocketService.AttemptReconnect | src/services/websocket.ts:62-76 | after five attempts no reconnect is scheduled; before that the counter goes up by one and a reconnect is scheduled after the doubled delay |
| WebSocket.WebSocketService.OnClose | src/services/websocket.ts:50-54 | on close the socket (if still held) is closed, the connection_closed handlers are called, and a reconnect after the doubled delay is scheduled exactly while attempts remain, also once `disconnect` has dropped the socket |
| WebSocket.WebSocketService.DisconnectAsWritten | src/services/websocket.ts:78-84 | disconnecting drops the socket and forgets every handler, keeping the address, the token and the counter |
| WebSocket.WebSocketService.Disconnect | src/services/websocket.ts:78-84 | the intended disconnect also spends the attempt counter, keeping the service valid |
| WebSocket.ReconnectAfterDisconnectAsWritten | src/services/websocket.ts:50-84 | as written, disconnect followed by the close event schedules a reconnect that reopens a socket on the old address with the old token |
| WebSocket.NoReconnectAfterDisconnect | src/services/websocket.ts:50-84 | with the intended disconnect, the close event that follows schedules nothing and no socket remains |
| WebSocket.WebSocketService.IsConnected | src/services/websocket.ts:128-130 | the service is connected exactly when its socket is open |
| WebSocket.WebSocketService.Send | src/services/websocket.ts:86-92 | a message is sent exactly when the socket is open, and otherwise dropped with a warning |
| WebSocket.WebSocketService.Subscribe | src/services/websocket.ts:94-96 | subscribing sends a subscribe message for the channel when connected |
| WebSocket.WebSocketService.Unsubscribe | src/services/websocket.ts:98-100 | unsubscribing sends an unsubscribe message for the channel when connected |
| WebSocket.WebSocketService.On | src/services/websocket.ts:102-112 | registering adds the handler to its event's set and returns the function that removes it |
| WebSocket.WebSocketService.Off | src/services/websocket.ts:114-116 | removing a handler takes it out of its event's set and changes no other event |
| WebSocket.WebSocketService.RunUnsubscriber | src/services/websocket.ts:109-111 | calling the returned function removes that handler from that event |
| WebSocket.OnThenUnsubscribe | src/services/websocket.ts:102-116 | registering a handler and calling the returned function leaves the event without that handler and every other event as it was |
| WebSocket.ReconnectUntilExhausted | src/services/websocket.ts:62-76 | a connection that keeps failing is retried after 1, 2, 4, 8 and 16 seconds and then no more |
| WebSocket.WsHost | src/services/websocket.ts:143-160 | the host is the configured WebSocket host, else the API URL's host when it parses, else the page's host |
| WebSocket.WebSocketUrl | src/services/websocket.ts:162-169 | the address starts with wss:// exactly for Railway or Vercel hosts or https pages, and ws:// otherwise, followed by the host and the path |
| WebSocket.InitializeWebSockets | src/services/websocket.ts:172-176 | the notification and dashboard services connect to their own paths with the same token and keep their handlers |
| WebSocket.DisconnectWebSocketsAsWritten | src/services/websocket.ts:178-182 | as written, all three services end without a socket and without handlers, but each keeps its address, its token and its attempt counter |
| WebSocket.ReconnectAfterDisconnectWebSocketsAsWritten | src/services/websocket.ts:178-182 | as written, after `disconnectWebSockets` the close event of each of the three dropped sockets schedules a reconnect after the delay its own counter gives |
| WebSocket.DisconnectWebSocketsIntended | src/services/websocket.ts:178-182 | the corrected `disconnectWebSockets` (the intended `disconnect` on each service): all three end without a socket, without handlers and with their attempt counters spent |
| WebSocket.NoReconnectAfterDisconnectWebSockets | src/services/websocket.ts:178-182 | with the corrected `disconnectWebSockets`, none of the three closing sockets schedules a reconnect |
| WebSocket.NoRetryBeforeFirstOpen | src/services/websocket.ts:23-84 | with the intended `disconnect`, a fresh `connect` leaves the counter spent, so a socket that closes before it opens is not retried |
| JsNumbers.ToFixed2Js | src/components/orders/OrderPrint.tsx:48-51 | on a finite number, formatting with two decimals is the exact two-decimal rendering of its value |
| IntentLogsPage.TotalPagesStep | src/pages/automation/IntentLogsPage.tsx:54 | one more log adds a page exactly when the pages so far were all full |
| MediaViewer.PaddedSeconds | src/components/chat/MediaViewer.old.tsx:181-185 | the seconds of a time are always shown as two digits that read back as the seconds |
| OrderPrint.KeptEitherName | src/components/orders/OrderPrint.tsx:53-64 | reading an address part under either of its two names, when only one is present, keeps that part |
| OrderPrint.SamePartsUnderEitherName | src/components/orders/OrderPrint.tsx:53-64 | an address written with the Portuguese names and the same address written with the English names print the same parts |
| OrdersKanban.GroupedFromColumns | src/components/orders/OrdersKanban.tsx:330-354 | a grouping that gives each column its orders sorted newest first is the board's grouping |
| OrdersKanban.KeepsWorkingColumns | src/components/orders/OrdersKanban.tsx:357-362 | hiding the cancelled and delivered columns leaves pending, confirmed, preparing, ready and out for delivery, in that order |
| ContactList.FilterPartition | src/components/chat/ContactList.tsx:153-159 | splitting the contacts by a test and its opposite loses and adds none |

## Left out

- Rendering, styling and layout (JSX markup, class names, icons, colours of badges, the width of bars). Only the values the markup shows are modelled.
- Network transport, `async`/`await` and promise rejection. Every response is a parameter, and a failed request is an error value of the operation that consumes it. The loading flags around requests are not modelled.
- Logging (`logger.*`, `console.*`) and toast messages. They change no state the model tracks.
- `getPastitaStats`: a failed fetch of the order list, the rejection of its `Promise.all`, and totals that arrive as text are not modelled.
- Timers: the message input's 2-second typing timeout is the method `MessageInput.Composer.TypingTimeout`, which can be called only while the composer's timer is armed; sending and unmounting clear it. The reconnect `setTimeout` is represented by the delay it would wait. Time-to-live expiry of cache entries is not modelled; the 300-second lifetime is only recorded.
- HMAC-SHA256 and `crypto.timingSafeEqual`. The digest is a function parameter, and a digest is compared as text.
- Unicode: `normalize('NFD')` is a decomposition table for the Latin-1 letters. JavaScript's `.length` counts UTF-16 code units, while the model counts characters, which differs outside the Basic Multilingual Plane.
- Lower: `toLowerCase` is modelled for ASCII and Latin-1 (A-Z, À-Þ except ×, and Ÿ); other capitals (Greek, Cyrillic, the rest of Latin Extended) are kept as they are, so searches that lower-case both sides still match them only with the same case.
- Upper: `toUpperCase` is modelled for ASCII and Latin-1 small letters (a-z, à-þ except ÷, and ÿ); ß, which JavaScript turns into the two letters "SS", and µ, which it turns into Greek capital Mu, are kept, as are small letters of other scripts.
- Floating point: amounts are exact `real`s, not IEEE doubles. `toFixed(2)` rounds the exact value half up and is not modelled for magnitudes of 1e21 and above. `parseFloat` reads sign, digits and a fraction, but not exponents, `Infinity` or hexadecimal.
- `Number(text)`, `String(number)`, `encodeURIComponent`, `new URL(...)`, `new Date(...)`, `toLocaleString`, `toDateString` and the `date-fns` formatters are function parameters. JSON objects are maps, so keys inherited from `Object.prototype` are not modelled.
- WebSocket: handlers for one event form a set, so the order in which `emit` calls them is not modelled. The browser `WebSocket` object is reduced to its URL and its open or closed state.
- PaymentsPage.OrderStats: each order carries the total that `Number(o.total || 0)` yields, as an exact number. A total that yields NaN, and a `payment_method` that is not text, are not modelled.
- OrderPrint.PaymentMethodLabel and OrderPrint.PaymentStatusLabel read the code as text. A truthy code of another type, for which `toUpperCase` would throw, is treated like a missing one.
- MarketingService.NumAt: a statistics field that is truthy but not a number (a numeric text, say) reads as 0. In the source `|| 0` passes it through unchanged.
- NewCampaignPage.PreviewHtml: a variable's value is inserted literally. `String.replace` would expand the patterns `$&`, `$$`, `` $` ``, `$'` and `$1` in it. A key is matched as literal text, while the source builds a regular expression from it, so a key with a metacharacter (`.`, `*`, `(`, `+`) matches other text or throws.
- MediaViewer.FormatTime requires a non-negative time. The media element reports NaN before its metadata loads and Infinity for a stream, which print as "NaN:NaN" and "Infinity:NaN"; these are not modelled.
- NotificationDropdown.AllRead: the clock is a parameter `now`, and one reading stands for all notifications. The source calls `new Date().toISOString()` once per notification, so the stamps may differ by a few milliseconds.
- AgentInactiveAnalysis.DeactivateAgent: the cache is assumed to work. In the source the `cache.delete` calls have no `try`, so a failing cache raises after `agent.save()`, leaving the agent inactive and the remaining keys in place.
- NewCampaignPage.PreviewHtml and the template variables: variable names are assumed not to look like array indices. `Object.entries` lists such names first, in ascending order, rather than in insertion order.
- AgentDebugViews.ForceDeactivate: a cache that fails is modelled as failing before its first deletion. In the source, keys deleted before the exception stay deleted.
- NodeConfigPanel.Panel.UpdateButton requires an index inside the button list. With an index past the end, the page would extend the array with holes.
- WebSocket.DisconnectWebSocketsIntended: models the corrected `disconnectWebSockets`; the shipped one keeps the three attempt counters, which `DisconnectWebSocketsAsWritten` models (see "## Findings").
- WebSocket.WebSocketService.Disconnect: the corrected disconnect spends the counter and only `onopen` resets it, so after a fresh login a socket that closes before it opens is not retried (`NoRetryBeforeFirstOpen`); detaching `onclose` instead is not modelled.
- WebSocket.ReconnectDelay requires an attempt of at least 1. The service only computes it after incrementing the counter.
- OrderPrint: the printing iframe and the generated HTML document are not modelled.
- Form defaults (AgentForm, PastitaProductsPage): a default that is a truthy value of a non-string type, and a flag that is not a boolean, are not modelled.
- The first fix in `docs/backend_fix_agente_inativo.py` (the webhook patch text) and its fifth, a management command, are not modelled. Neither has decision logic beyond what the modelled task and signal already have.
- Geocoding: `haversineDistance`, `getCurrentLocation` and the route geometry are not part of this model (floating-point trigonometry and browser geolocation).
- MediaViewer: audio playback, download and full-screen handling are browser effects and are not modelled. Only the `m:ss` text of a time is.
- PanelEventsStore: that reading the last event changes nothing holds by construction, because `GetLastEvent` is a function that only reads the store.
- Database integrity (every foreign key names an existing row) is assumed of the Django ORM, as the precondition `Db.Consistent()`.

## Findings

| source | as written | input that shows it | evidently intended | confidence | as-written member | corrected member |
|---|---|---|---|---|---|---|
| docs/backend_fix_agente_inativo.py:123-130 | deactivating an agent deletes the `agent_config:`, `agent:`, `account_agent:` and `account_config:` keys, but not the `agent_active:<id>` flag the `require_active_agent` decorator reads | an agent whose flag `agent_active:<id>` is cached as active, then saved with `is_active = False` | the invalidation also deletes `agent_active:<id>`, so the decorator stops the agent at once | high, not executed | AgentInactiveFix.StaleFlagSurvivesInvalidation | AgentInactiveFix.CorrectedInvalidationStopsDecorator |
| docs/backend_fix_agente_inativo.py:161 | the decorator takes the account from `kwargs['account']` or else from `args[0]` | `process_message_with_ai(message, account)` called positionally: `args[0]` is the message | the account is found among the positional arguments as well | high, not executed | AgentInactiveFix.PositionalAccountIsMissed | AgentInactiveFix.CorrectedWrapperFindsPositionalAccount |
| src/components/chat/ContactList.tsx:90 | the badge is rendered by `count && count > 0 && <badge/>` | a contact with `unreadCount` 0: the expression is the number 0, which React renders as the text "0" | nothing is rendered for zero unread messages | high, not executed | ContactList.ZeroUnreadShowsStrayZero | ContactList.UnreadBadge |
| src/pages/payments/PaymentsPage.tsx:140-152 | an order without `payment_status` is counted under "pending", but the pending filter compares the raw field | one order whose `payment_status` is missing: the pending chip shows 1 while the pending list is empty | the filter applies the same `'pending'` default as the count | medium, not executed | PaymentsPage.PendingChipDisagreesWithList | PaymentsPage.FilteredOrdersMatchCount |
| src/components/chat/ContactList.tsx:154-158 | the comparator returns 1 whenever the first contact has no last-message time | two contacts without a time: compare(a, b) and compare(b, a) are both 1 | contacts without a time compare equal and sort after the others | medium, not executed | ContactList.CompareAsWrittenInconsistent | ContactList.CompareAntisymmetric |
| docs/backend_agent_debug_views.py:28 | the report's timestamp calls `timezone.now()`, but the module imports only `rest_framework`, `get_object_or_404` and `logging` (lines 5-10) | any GET of the agent-status endpoint, with or without `conversation_id`: the name lookup raises NameError before the first check, outside every `try`, and the server answers 500 | `django.utils.timezone` is imported and the report is built as described | high, not executed | AgentDebugViews.AgentDebugAsWrittenNeverReports | AgentDebugViews.ConversationVerdictIsMayAnswer |
| src/services/websocket.ts:50-54, 62-84 | `disconnect` closes and drops the socket but keeps the address, the token and the attempt counter, and the socket's `onclose` stays attached | a connected service, then `disconnect()`: the close event calls `attemptReconnect`, and one second later `createConnection` opens a new socket with the old token | a socket closed by `disconnect` is not reopened | high, not executed | WebSocket.ReconnectAfterDisconnectAsWritten | WebSocket.NoReconnectAfterDisconnect |
| src/services/websocket.ts:178-182 | `disconnectWebSockets` calls the shipped `disconnect` on all three services, which keeps each attempt counter | a logged-in session, then logout: each of the three closing sockets calls `attemptReconnect` and is reopened with the old token | logging out leaves no socket that reconnects | high, not executed | WebSocket.ReconnectAfterDisconnectWebSocketsAsWritten | WebSocket.NoReconnectAfterDisconnectWebSockets |
