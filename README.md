# Capstone support chat, rule score and retrieval selection in Dafny

This project models the core of the Capstone backend. The backend is a FastAPI service with four parts:

- A customer-support chat relay over WebSockets.
- A chat message store.
- A rule-based risk score for user queries.
- A retrieval wrapper. It filters vector-search results when the query contains profanity.

The model is split into these modules:

| file | module | models |
|---|---|---|
| `Wrappers.dfy` | `Wrappers` | `Option`, `Result`, `Outcome` |
| `Text.dfy` | `Text` | Python's `needle in haystack` on strings (`IsSubstring`) |
| `Seqs.dfy` | `Seqs` | sequences without repeats (`Distinct`) and small facts about slices and concatenation |
| `Chat.dfy` | `Chat` | `ChatCRUD` of `backend/app/Domain/Chat/crud.py`, as the class `ChatStore` over an in-memory users map and message sequence |
| `Support.dfy` | `Support` | `backend/app/Domain/WebSocket/router.py` |
| `RuleEngine.dfy` | `RuleEngine` | `backend/app/engine/rule_engine.py` |
| `Retrieval.dfy` | `Retrieval` | `backend/app/Domain/retrieval/search_service.py` |

`Support.dfy` covers three parts of the router:
- The connection registry `AdvancedCustomerSupportManager`, as the class `SupportManager`.
- The routing rule `process_message`, as `ProcessMessage`.
- One run of `websocket_endpoint` over a sequence of inbound frames, as `RunSession`, `ServeFrames` and `ReceiveLoop`.

## How the parts are modelled

**Sockets.**
- Sockets are abstract handles (`Handle`).
- Every `send_text`, on any socket, appends a `Delivery(to, payload)` to the log of one `Wire` object.
- `Outbox(log, h)` is the sequence of payloads socket `h` has received.
- Payloads are datatypes, not JSON text:
  - `ChatFrame` is the saved record.
  - `AdminFrame` is the record plus `from_customer_pk`.
  - `OfflineNotice` is the `{"type": "error"}` frame.
  - `ErrorFrame` is the `{"error": ...}` frame.

**The broadcast.** `send_to_all_admins` iterates a Python set. Its method takes an admin not yet visited, in an order the model leaves open. The ghost out-parameter `visited` names that order.

**Routing follows the code as written**, including where it departs from the intended design:
- `process_message` branches on the frame's own `is_from_admin` (router.py:165), not on the session's looked-up `is_admin`. `ProcessMessage` takes `isAdmin` and ignores it.
- The record is saved under the frame's `user_pk` (router.py:148).
- The broadcast tag `from_customer_pk` and the offline notice's recipient are the session's `user_pk` (router.py:181, 188).

**Registry quirks.**
- `connect` never removes an id from the other role's set, and `disconnect` uses `if`/`elif`. So an id that reconnects under the other role stays in both sets. `ReconnectUnderOtherRole` builds such a state.
- `Connect` and `Disconnect` prove disjointness of the role sets only under the condition that makes it hold.
- A `user_pk` of `0` is falsy in Python. It is not registered and not unregistered (`Truthy`).

**The session.**
- The first frame decides the session's `user_pk`.
- If the first frame is not valid JSON, or its save raises, the outer `except` ends the session.
- Later frames never end it. Bad JSON and failed saves get an error frame on the session's own socket.
- The sends of a session are split into one segment per frame served. The log grows by their concatenation (`Concat`).
- `Answered` says what one later frame sends. `LoopAnswered` applies it frame by frame, each with the row id reached by then. `Served` adds the first frame, which sends what `process_message` sends (`Handled`) and reaches the loop only if its save did not fail.
- The registry these predicates read is the one in force while the frames are served: `SessionRegistry` for `RunSession`, the manager's own for `ServeFrames` and `ReceiveLoop`.
- The role lookup `user_crud.get_user_by_id` (router.py:105-106) is the parameter `identity: UserPk -> Option<bool>`. `None` means no such user.

**The store.**
- The `users` and `chat` tables are the fields of `ChatStore`.
- `save_chat_message` with a missing user, including a `NULL` key, fails with `UserNotFound`. Any other call appends exactly one row.
- `ORDER BY` is modelled by an insertion sort. It is ordered by (user_pk, created_at) and is a permutation of its input.
- The sort also fixes one order for rows with equal keys, which the database leaves open. `GetAllConversations` states its result as `Group` of that sorted list, so that order shows through it (see "Left out").

**Rule score and retrieval.**
- These are functions of their inputs. The inputs include the loaded rule lists and the vector-search result.
- Regular expression search, `lower()`, the query clean-up and `get_rag_context` are function parameters.

## Model

| member | source | states |
|---|---|---|
| Chat.Insert | backend/app/Domain/Chat/crud.py:46 | inserting into an ordered sequence keeps it ordered by (user_pk, created_at) and adds exactly that one message to its multiset |
| Chat.Sort | backend/app/Domain/Chat/crud.py:46 | the sorted query result is ordered by (user_pk, created_at) and is a permutation of its input |
| Chat.OfUser | backend/app/Domain/Chat/crud.py:35 | the `user_pk == k` filter keeps every copy of each message of `k` and nothing else |
| Chat.OfAuthenticated | backend/app/Domain/Chat/crud.py:44-45 | the join restricted to `authenticator = TRUE` keeps every copy of each message of an authenticated user and nothing else |
| Chat.OfUserKeepsOrder | backend/app/Domain/Chat/crud.py:46 | filtering an ordered sequence by user keeps it ordered |
| Chat.OrderedSnoc | backend/app/Domain/Chat/crud.py:46 | appending a message that comes after all others keeps a list ordered by (user_pk, created_at) |
| Chat.OneUserOrderIsTimeOrder | backend/app/Domain/Chat/crud.py:46 | on messages of one user, the (user_pk, created_at) order is the created_at order |
| Chat.AuthenticatedInfo | backend/app/Domain/Chat/crud.py:51-62 | `user_info` has a key exactly for each authenticated user, holding that user's id, username and email |
| Chat.GroupByUser | backend/app/Domain/Chat/crud.py:64-80 | the grouping loop produces `Group` of the message list: each message of a user in `user_info` is appended, in order, to that user's entry, and the entry is opened on the user's first message |
| Chat.GroupPartitions | backend/app/Domain/Chat/crud.py:64-80 | the grouping is a partition: an entry exists exactly for the users in `user_info` with a message, and it holds that user's info and exactly that user's messages in input order |
| Chat.SourceThread | backend/app/Domain/Chat/crud.py:42-49 | for an authenticated user, the ordered query result restricted to that user is a permutation of the user's stored messages, ordered by created_at, and is non-empty iff the user has a message |
| Chat.SourceThreadCounts | backend/app/Domain/Chat/crud.py:42-49 | for an authenticated user, the ordered query result holds each of the user's messages as often as the store does |
| Chat.ChatStore.constructor | backend/app/Domain/Chat/crud.py:9-10 | a store over the given users with no messages |
| Chat.ChatStore.Save | backend/app/Domain/Chat/crud.py:13-29 | fails with "User not found" iff the key is missing or names no user, and then nothing changes; otherwise appends and returns exactly one row with the given user_pk, message and is_from_admin (default false) and a fresh id |
| Chat.ChatStore.MessagesByUser | backend/app/Domain/Chat/crud.py:32-38 | returns only messages of `k`, exactly the stored ones (as a multiset), ordered by created_at |
| Chat.ChatStore.ConversationSource | backend/app/Domain/Chat/crud.py:42-49 | the message query returns the messages of authenticated users, each with its stored multiplicity, ordered by (user_pk, created_at) |
| Chat.ChatStore.GetAllConversations | backend/app/Domain/Chat/crud.py:41-85 | one entry per authenticated user with at least one message, holding that user's info and exactly that user's messages oldest first; `total` is the number of entries |
| Chat.ChatStore.ConversationsAreThreads | backend/app/Domain/Chat/crud.py:41-80 | relates the grouped query result to the stored messages: keys, user info, contents and order |
| Support.Outbox | backend/app/Domain/WebSocket/router.py:51 | a socket receives at most as many payloads as were sent overall |
| Support.OutboxOfAppend | backend/app/Domain/WebSocket/router.py:51 | the deliveries to a socket after more sends are the earlier ones followed by the new ones |
| Support.Fanout | backend/app/Domain/WebSocket/router.py:72-75 | one delivery per id, in order, each to that id's socket, all with the same payload |
| Support.FanoutOutbox | backend/app/Domain/WebSocket/router.py:72-75 | with distinct ids on distinct sockets, each id's socket receives exactly one copy and every other socket receives nothing |
| Seqs.DistinctCard | backend/app/Domain/WebSocket/router.py:72-75 | a repeat-free visiting order has as many elements as the set it visits |
| Support.Wire.SendText | backend/app/Domain/WebSocket/router.py:51 | `send_text` appends one delivery to the given socket |
| Support.SupportManager.constructor | backend/app/Domain/WebSocket/router.py:17-23 | the registry starts empty |
| Support.SupportManager.Connect | backend/app/Domain/WebSocket/router.py:25-36 | the id maps to the new socket, overwriting any earlier one, and no other entry changes; the id joins the admin set iff `is_admin`, else the customer set; nothing is removed; disjointness is kept only if the id was not in the other set |
| Support.SupportManager.Disconnect | backend/app/Domain/WebSocket/router.py:38-47 | the id leaves the map; it leaves the admin set if it is there, else the customer set; other ids are untouched, and an absent id changes nothing |
| Support.SupportManager.SendToUser | backend/app/Domain/WebSocket/router.py:49-54 | returns true and delivers one payload to the id's socket iff the id is connected; otherwise nothing is sent |
| Support.SupportManager.SendToSpecificCustomer | backend/app/Domain/WebSocket/router.py:56-63 | delivers iff the id is both a customer and connected, so a connected admin id gets nothing and the result is false |
| Support.SupportManager.SendToAllAdmins | backend/app/Domain/WebSocket/router.py:65-77 | visits each admin that is connected exactly once and sends each one copy of the record tagged with `from_customer_pk`; `sent_count` is the size of admins ∩ connected ids |
| Support.ProcessMessage | backend/app/Domain/WebSocket/router.py:139-190 | the control message and a missing user change nothing, and only the latter is an error; any other frame is saved once with the frame's own fields before any send; then, if the frame's flag is set, the record goes to the frame's user_pk as a customer, or else an offline notice goes to the session's id only; otherwise every connected admin gets the record tagged with the session's id; `sent` is exactly what is appended to the log, and nothing is sent when nothing is saved |
| Support.Persisted | backend/app/Domain/WebSocket/router.py:114-127 | the rows saved by the receive loop get consecutive ids and belong to existing users, at most one per frame |
| Support.RunSession | backend/app/Domain/WebSocket/router.py:85-136 | the store gains exactly the session's rows; the first frame's truthy user_pk is registered with the looked-up role and unregistered at the end (including the stale role set quirk); a falsy one leaves the registry unchanged; a session whose first frame is missing or bad JSON sends nothing; otherwise the log grows by exactly the per-frame segments that `Served` describes, under the registry with the session registered |
| Support.ServeFrames | backend/app/Domain/WebSocket/router.py:110-127 | the store gains exactly the session's rows; the first frame sends what `process_message` sends; the receive loop runs only if its save did not fail, and then each later frame is answered as `Answered` says; the log grows by exactly these segments |
| Support.ServedThenLoop | backend/app/Domain/WebSocket/router.py:110-114 | a first frame that is the control message or is saved is followed by the loop: the session's rows are its row, if any, and then the loop's rows from the next id |
| Support.ServedAlone | backend/app/Domain/WebSocket/router.py:110-111 | a first frame whose save fails is served alone, sends nothing and saves no row |
| Support.ReceiveLoop | backend/app/Domain/WebSocket/router.py:114-127 | frames are handled in order; the store gains exactly the rows of the decodable frames that persist; segment `i` is what frame `i` sends: "Invalid JSON format" on the own socket for bad JSON, the error on the own socket for a failed save, and what `process_message` sends otherwise |
| Support.ReceiveOne | backend/app/Domain/WebSocket/router.py:117-127 | one frame of the loop saves at most its own row and sends exactly what `Answered` says |
| Support.ReceiveNext | backend/app/Domain/WebSocket/router.py:114-127 | one pass of the loop moves its state from frame `i` to frame `i + 1`, appending one segment |
| Support.LoopStep | backend/app/Domain/WebSocket/router.py:114-127 | one more frame extends the saved rows by that frame's row, the log by that frame's sends, and the answers by one |
| Support.ConcatSnoc | backend/app/Domain/WebSocket/router.py:114-127 | the log of one more frame is the earlier log followed by that frame's segment |
| Support.ReconnectUnderOtherRole | backend/app/Domain/WebSocket/router.py:29-34 | reconnecting an admin id as a customer leaves it in both role sets, breaking the intended disjointness |
| RuleEngine.LoadTerms | backend/app/engine/rule_engine.py:33-38 | the loaded term set is exactly the present, non-empty `term` values; blank lines and missing or empty terms are skipped |
| RuleEngine.LoadPatterns | backend/app/engine/rule_engine.py:43-48 | the loaded pattern list holds exactly the present, non-empty `pattern` values |
| RuleEngine.AnyPatternMatches | backend/app/engine/rule_engine.py:73-76 | the pattern loop succeeds iff some pattern matches the query |
| RuleEngine.CalculateRuleScore | backend/app/engine/rule_engine.py:63-78 | the score is 0.0 or 1.0, and it is 1.0 iff some non-empty term is a substring of the query or some pattern matches |
| RuleEngine.EmptyTermNeverMatches | backend/app/engine/rule_engine.py:69 | adding or removing the empty term never changes the score |
| RuleEngine.ScoreMonotone | backend/app/engine/rule_engine.py:68-78 | more terms or more patterns can only keep or raise the score |
| RuleEngine.LoadedScore | backend/app/engine/rule_engine.py:33-48 | over loaded rule files, the score is 1.0 iff some non-empty term line occurs in the query or some non-empty pattern line matches |
| Retrieval.ProfanityHits | backend/app/Domain/retrieval/search_service.py:65-78 | the set of reported words is exactly the lexemes in the cleaned query and the patterns that match it |
| Retrieval.DetectProfanity | backend/app/Domain/retrieval/search_service.py:65-78 | the result has no repeats and holds a word iff it is a lexeme contained in the cleaned query or a pattern that matched it |
| Retrieval.EmptyLexemeAlwaysHits | backend/app/Domain/retrieval/search_service.py:69-71 | a profanity term loaded as the empty string is reported for every query, since the empty pattern matches everywhere |
| Retrieval.FetchCount | backend/app/Domain/retrieval/search_service.py:97 | the search is asked for three times `top_k` contexts, or for `top_k` itself when it is negative |
| Retrieval.Take | backend/app/Domain/retrieval/search_service.py:130 | Python's `[:k]` is a prefix of length min(k, len) for k ≥ 0, and len + k (at least 0) for negative k |
| Retrieval.Matching | backend/app/Domain/retrieval/search_service.py:116-121 | the filtered list holds exactly the contexts whose lower-cased text contains some hit |
| Retrieval.FilterMentioning | backend/app/Domain/retrieval/search_service.py:116-121 | the filter loop collects exactly `Matching`: the contexts whose lower-cased text contains some hit, in search order |
| Retrieval.MentionsAny | backend/app/Domain/retrieval/search_service.py:120 | `any(w in text for w in bad_hits)` holds iff some hit is a substring of the text |
| Retrieval.SearchJsonl | backend/app/Domain/retrieval/search_service.py:82-145 | empty search output gives exactly the default result (score 1.0, `default`, article 311 of the Criminal Act); otherwise the results are the first `top_k` chosen contexts, each renamed with defaults 0.0, `unknown` and `""` |
| Retrieval.CleanQueryKeepsRanking | backend/app/Domain/retrieval/search_service.py:115 | with no hits, the raw contexts are used unchanged |
| Retrieval.MatchingPositions | backend/app/Domain/retrieval/search_service.py:117-121 | the filter picks strictly increasing positions of the raw contexts, and every position whose context mentions a hit, so it is an order-preserving subsequence |
| Retrieval.PicksPositionsSnoc | backend/app/Domain/retrieval/search_service.py:117-121 | one more search result adds its own position to the picked ones exactly when it mentions a hit |
| Retrieval.ChosenNonEmpty | backend/app/Domain/retrieval/search_service.py:123-127 | with non-empty search output the chosen contexts are never empty (fallback to the raw contexts) and come from the raw contexts |
| Retrieval.ResultCount | backend/app/Domain/retrieval/search_service.py:123-130 | non-empty search output gives at most `top_k` results, and at least one when `top_k` is positive |
| Retrieval.FilteredResultsMention | backend/app/Domain/retrieval/search_service.py:116-130 | when some context mentions a hit, every returned context mentions a hit |

## Left out

- Concurrency: the `await` interleavings between sessions are not modelled. Each operation runs alone, and a session's frames are handled one after another.
- Transport and JSON:
  - `accept`, `receive_text` and JSON text are not modelled. A frame arrives already decoded, or as `BadJson`.
  - A frame that decodes to something other than an object, or has no `message` key, is not modelled. Nor are non-boolean `is_from_admin` values.
  - Payloads are datatypes rather than JSON strings.
- Clock and timestamps: the clock is the `clock` of each received frame. `isoformat()` is not modelled. `created_at` is that reading.
- Logging: `print` output, including `sent_count`, is left out. `SendToAllAdmins` returns the count instead.
- Exceptions raised by `send_text`, or by the database other than "User not found", are not modelled.
- `get_user_by_id` is not part of this model. The role lookup is the parameter `identity`.
- `Chat.ChatStore.GetAllConversations`: for rows with equal (user_pk, created_at), the model fixes the order the insertion sort gives, which `ORDER BY` does not promise. Only the order-independent clauses (keys, user info, multiset of messages, created_at order) hold for every database.
- `Chat.ChatStore.MessagesByUser`: its body fixes the same tie order for messages with equal created_at. Its contract states only the ordering and the multiset.
- Rule files:
  - Reading them is not modelled. A file is a sequence of `RuleLine`s, each blank or holding an optional value.
  - A line that fails `json.loads`, and the `sys.exit` paths, are left out.
  - Compiling patterns with `re.IGNORECASE`, and regular expression search in general, is the parameter `search`.
- The query clean-up (`re.sub` of separators on `query.lower()`) is the parameter `normalize`. Lower-casing of context texts is `lower`. `re.escape` plus `re.search` on a lexeme is a substring test.
- `get_rag_context` is the parameter `rag`. Its embeddings, database access and float similarity scores are backend/app/engine/rag_engine.py, which is not part of this model.
- A context's `text`, `score` or `source_file` is modelled as present or missing. A present `null` value is not modelled. `float()` of a score is the identity.
- `Retrieval.DetectProfanity`: states which words are reported, each once, but not their order. `list(set(...))` has no promised order.
- Chat ids start at 0 in the model rather than at the database's first autoincrement value. Only their freshness and increase are stated.
