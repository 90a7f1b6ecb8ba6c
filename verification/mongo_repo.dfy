/** The chat-session repository (backend/app/db/mongo_repo.py): object-id
    validation, session lookup or creation over an abstract session store, the
    user/assistant pairing of a stored conversation and the message-listing guard.
    The Mongo driver is replaced by maps; the `bson.ObjectId` parser is a parameter. */
module MongoRepo {
  import opened Wrappers
  import opened Text

  /** The canonical form of an object id. */
  type Oid = string

  /** A Python value handed to `_is_valid_object_id`: a string or anything else. */
  datatype Arg = Str(s: string) | NonStr

  /** `ObjectId(val)` on a string: the canonical id, or `None` where it raises. */
  type OidParser = string -> Option<Oid>

  /** `_is_valid_object_id`: a 24-character string that the parser accepts. */
  predicate IsValidObjectId(val: Arg, parse: OidParser) {
    val.Str? && |val.s| == 24 && parse(val.s).Some?
  }

  predicate IsHexDigit(c: char) {
    ('0' <= c <= '9') || ('a' <= c <= 'f') || ('A' <= c <= 'F')
  }

  /** A reference parser: 24 hexadecimal digits, canonicalised to lower case. */
  function HexParse(s: string): (r: Option<Oid>)
    ensures r.Some? ==> |r.value| == 24
  {
    if |s| == 24 && forall i :: 0 <= i < |s| ==> IsHexDigit(s[i]) then Some(Lower(s)) else None
  }

  /** Whatever the parser, an accepted value is a string of exactly 24 characters;
      with the reference parser, the accepted values are exactly the 24-digit hex strings. */
  lemma ValidObjectIdShape(val: Arg, parse: OidParser)
    ensures IsValidObjectId(val, parse) ==> val.Str? && |val.s| == 24
    ensures IsValidObjectId(val, HexParse) <==>
      val.Str? && |val.s| == 24 && forall i :: 0 <= i < |val.s| ==> IsHexDigit(val.s[i])
    ensures !val.Str? ==> !IsValidObjectId(val, parse)
  {
  }

  /** A session document: creation time, last activity and the external key it was
      created under, if any. */
  datatype Session = Session(createdAt: int, lastActivityAt: int, key: Option<string>)

  /** The `sessions` collection: documents by id, and the unique `session_key` index. */
  datatype Store = Store(sessions: map<Oid, Session>, byKey: map<string, Oid>)

  /** The unique index agrees with the documents in both directions. */
  predicate ValidStore(st: Store) {
    && (forall k :: k in st.byKey ==> st.byKey[k] in st.sessions && st.sessions[st.byKey[k]].key == Some(k))
    && (forall o :: o in st.sessions && st.sessions[o].key.Some? ==>
          st.sessions[o].key.value in st.byKey && st.byKey[st.sessions[o].key.value] == o)
  }

  datatype RepoError = SessionNotFound | InvalidSessionId

  /** The store after a session lookup or creation, and the session's id. */
  datatype Resolved = Resolved(store: Store, id: Oid)

  /** `insert_one` of a new session document under the driver-chosen id `newId`. */
  function Insert(st: Store, newId: Oid, now: int, key: Option<string>): Store {
    var byKey := if key.Some? then st.byKey[key.value := newId] else st.byKey;
    Store(st.sessions[newId := Session(now, now, key)], byKey)
  }

  /** `get_or_create_session`. `newId` is the id the driver would assign to a newly
      inserted document and `now` the current time. */
  function GetOrCreateSession(st: Store, sessionId: Option<string>, parse: OidParser, newId: Oid, now: int)
    : (r: Result<Resolved, RepoError>)
    ensures (sessionId.None? || sessionId.value == "") ==>
      r == Ok(Resolved(Insert(st, newId, now, None), newId))
    ensures r.Err? <==>
      && sessionId.Some? && IsValidObjectId(Str(sessionId.value), parse)
      && parse(sessionId.value).value !in st.sessions
    ensures r.Err? ==> r.error == SessionNotFound
    ensures sessionId.Some? && IsValidObjectId(Str(sessionId.value), parse) && r.Ok? ==>
      r.value == Resolved(st, parse(sessionId.value).value)
    ensures sessionId.Some? && sessionId.value != "" && !IsValidObjectId(Str(sessionId.value), parse) ==>
      && r.Ok?
      && (sessionId.value in st.byKey ==> r.value == Resolved(st, st.byKey[sessionId.value]))
      && (sessionId.value !in st.byKey ==> r.value == Resolved(Insert(st, newId, now, sessionId), newId))
  {
    if sessionId.None? || sessionId.value == "" then
      Ok(Resolved(Insert(st, newId, now, None), newId))
    else
      var sid := sessionId.value;
      if IsValidObjectId(Str(sid), parse) then
        var oid := parse(sid).value;
        if oid in st.sessions then Ok(Resolved(st, oid)) else Err(SessionNotFound)
      else if sid in st.byKey then
        Ok(Resolved(st, st.byKey[sid]))
      else
        Ok(Resolved(Insert(st, newId, now, sessionId), newId))
  }

  /** Every successful call leaves a consistent store and returns the id of a stored
      session, provided the driver's new id is not already taken. */
  lemma GetOrCreateKeepsStoreValid(st: Store, sessionId: Option<string>, parse: OidParser, newId: Oid, now: int)
    requires ValidStore(st) && newId !in st.sessions
    ensures var r := GetOrCreateSession(st, sessionId, parse, newId, now);
      r.Ok? ==> ValidStore(r.value.store) && r.value.id in r.value.store.sessions
    ensures var r := GetOrCreateSession(st, sessionId, parse, newId, now);
      r.Ok? ==> forall o :: o in st.sessions ==> o in r.value.store.sessions && r.value.store.sessions[o] == st.sessions[o]
  {
    var r := GetOrCreateSession(st, sessionId, parse, newId, now);
    if r.Ok? && r.value.store != st {
      var key := if sessionId.None? || sessionId.value == "" then None else sessionId;
      assert r.value.store == Insert(st, newId, now, key);
      assert key.Some? ==> key.value !in st.byKey;
      InsertKeepsStoreValid(st, newId, now, key);
    }
  }

  lemma InsertKeepsStoreValid(st: Store, newId: Oid, now: int, key: Option<string>)
    requires ValidStore(st) && newId !in st.sessions
    requires key.Some? ==> key.value !in st.byKey
    ensures ValidStore(Insert(st, newId, now, key))
  {
    var st' := Insert(st, newId, now, key);
    forall k | k in st'.byKey
      ensures st'.byKey[k] in st'.sessions && st'.sessions[st'.byKey[k]].key == Some(k)
    {
      if key.Some? && k == key.value {
      } else {
        assert k in st.byKey && st.byKey[k] != newId;
      }
    }
  }

  /** An external key is upserted: asking again with the same key, at any later time
      and whatever id the driver would pick, returns the same session and changes
      nothing, so its creation time is kept. */
  lemma SameKeySameSession(st: Store, key: string, parse: OidParser, newId1: Oid, now1: int, newId2: Oid, now2: int)
    requires key != "" && !IsValidObjectId(Str(key), parse)
    requires ValidStore(st) && newId1 !in st.sessions
    ensures var r1 := GetOrCreateSession(st, Some(key), parse, newId1, now1);
      var r2 := GetOrCreateSession(r1.value.store, Some(key), parse, newId2, now2);
      && r2 == Ok(Resolved(r1.value.store, r1.value.id))
      && r1.value.store.sessions[r1.value.id].createdAt == r2.value.store.sessions[r2.value.id].createdAt
  {
    GetOrCreateKeepsStoreValid(st, Some(key), parse, newId1, now1);
  }

  /** A request without an id always creates a new session, even on a repeat. */
  lemma MissingIdAlwaysCreates(st: Store, parse: OidParser, newId: Oid, now: int)
    requires newId !in st.sessions
    ensures var r := GetOrCreateSession(st, Some(""), parse, newId, now);
      r.Ok? && r.value.id == newId && |r.value.store.sessions| == |st.sessions| + 1
  {
  }

  /** A stored message: its role and content, as `fetch_history_pairs` reads them. */
  datatype StoredMessage = StoredMessage(role: string, content: string)

  /** A (user question, assistant answer) pair. */
  datatype Pair = Pair(user: string, assistant: string)

  /** `to_list(length=2000)`. */
  const HistoryCap: nat := 2000

  /** The pairing fold over a conversation in creation order, starting from the
      pending user message `pending`: a user message becomes the pending one
      (replacing any earlier), an assistant message pairs with a pending one and
      clears it, and anything else is skipped. */
  function PairsFrom(convo: seq<StoredMessage>, pending: Option<string>): seq<Pair>
    decreases |convo|
  {
    if |convo| == 0 then []
    else
      var m := convo[0];
      if m.role == "user" then PairsFrom(convo[1..], Some(m.content))
      else if m.role == "assistant" && pending.Some? then [Pair(pending.value, m.content)] + PairsFrom(convo[1..], None)
      else PairsFrom(convo[1..], pending)
  }

  function Pairs(convo: seq<StoredMessage>): seq<Pair> {
    PairsFrom(convo, None)
  }

  /** The pairing rules message by message: a user message overrides whatever user
      message was pending, an assistant message with nothing pending is dropped, and
      an assistant message after a pending user message closes a pair. */
  lemma PairingRules(u: string, v: string, a: string, rest: seq<StoredMessage>)
    ensures PairsFrom([StoredMessage("user", v)] + rest, Some(u)) == PairsFrom([StoredMessage("user", v)] + rest, None)
    ensures PairsFrom([StoredMessage("assistant", a)] + rest, None) == PairsFrom(rest, None)
    ensures PairsFrom([StoredMessage("user", u), StoredMessage("assistant", a)] + rest, None)
      == [Pair(u, a)] + PairsFrom(rest, None)
  {
    assert ([StoredMessage("user", v)] + rest)[1..] == rest;
    assert ([StoredMessage("assistant", a)] + rest)[1..] == rest;
    var conv := [StoredMessage("user", u), StoredMessage("assistant", a)] + rest;
    assert conv[1..] == [StoredMessage("assistant", a)] + rest;
    assert conv[1..][1..] == rest;
  }

  /** `xs[start:]` in Python: a negative start counts from the end, and every start is
      clamped into the list. */
  function PySliceFrom<T>(xs: seq<T>, start: int): (r: seq<T>)
    ensures start >= 0 ==> r == xs[if start > |xs| then |xs| else start..]
    ensures start < 0 ==> r == xs[if start + |xs| < 0 then 0 else start + |xs|..]
  {
    var i := if start < 0 then (if start + |xs| < 0 then 0 else start + |xs|)
             else (if start > |xs| then |xs| else start);
    xs[i..]
  }

  /** `fetch_history_pairs` over the session's messages (already selected and sorted
      by creation time), as written: the loop, then `pairs[-limit_pairs:]`. */
  method FetchHistoryPairs(messages: seq<StoredMessage>, limitPairs: int) returns (r: seq<Pair>)
    ensures limitPairs > 0 ==> r == LastPairs(Pairs(Take(messages, HistoryCap)), limitPairs)
    ensures limitPairs == 0 ==> r == Pairs(Take(messages, HistoryCap))
  {
    var convo := Take(messages, HistoryCap);
    var pairs: seq<Pair> := [];
    var lastUser: Option<string> := None;
    var i := 0;
    while i < |convo|
      invariant 0 <= i <= |convo|
      invariant pairs + PairsFrom(convo[i..], lastUser) == Pairs(convo)
    {
      var m := convo[i];
      assert convo[i..][1..] == convo[i + 1..];
      if m.role == "user" {
        lastUser := Some(m.content);
      } else if m.role == "assistant" && lastUser.Some? {
        pairs := pairs + [Pair(lastUser.value, m.content)];
        lastUser := None;
      }
      i := i + 1;
    }
    assert convo[i..] == [];
    r := PySliceFrom(pairs, -limitPairs);
  }

  /** The last `n` pairs, or all of them when there are fewer: what `limit_pairs`
      evidently asks for. */
  function LastPairs(pairs: seq<Pair>, n: int): (r: seq<Pair>)
    ensures |r| == if n <= 0 then 0 else if n < |pairs| then n else |pairs|
    ensures r == pairs[|pairs| - |r|..]
  {
    if n <= 0 then [] else if n < |pairs| then pairs[|pairs| - n..] else pairs
  }

  /** The history as evidently intended: at most `limit_pairs` of the most recent pairs. */
  function HistoryPairs(messages: seq<StoredMessage>, limitPairs: int): (r: seq<Pair>)
    ensures |r| <= if limitPairs <= 0 then 0 else limitPairs
    ensures |r| <= |Pairs(Take(messages, HistoryCap))|
    ensures r == Pairs(Take(messages, HistoryCap))[|Pairs(Take(messages, HistoryCap))| - |r|..]
    ensures limitPairs > 0 && |Pairs(Take(messages, HistoryCap))| <= limitPairs ==> r == Pairs(Take(messages, HistoryCap))
  {
    LastPairs(Pairs(Take(messages, HistoryCap)), limitPairs)
  }

  /** A limit of zero asks for no history, yet `pairs[-0:]` is the whole list: one
      question and its answer come back in full. */
  method ZeroLimitReturnsEverything() returns (r: seq<Pair>)
    ensures r == [Pair("hi", "hello")]
    ensures HistoryPairs([StoredMessage("user", "hi"), StoredMessage("assistant", "hello")], 0) == []
  {
    var convo := [StoredMessage("user", "hi"), StoredMessage("assistant", "hello")];
    assert Take(convo, HistoryCap) == convo;
    assert convo[1..][1..] == [];
    r := FetchHistoryPairs(convo, 0);
  }

  /** Writing each pair as a user message followed by an assistant message, the way
      the chat loop logs an exchange. */
  function Transcript(ps: seq<Pair>): (r: seq<StoredMessage>)
    ensures |r| == 2 * |ps|
  {
    if |ps| == 0 then [] else [StoredMessage("user", ps[0].user), StoredMessage("assistant", ps[0].assistant)] + Transcript(ps[1..])
  }

  /** Pairing recovers exactly the exchanges of a transcript, whatever was pending
      before it started. */
  lemma {:induction false} PairsOfTranscript(ps: seq<Pair>, pending: Option<string>)
    ensures PairsFrom(Transcript(ps), pending) == ps
    decreases |ps|
  {
    if |ps| > 0 {
      var t := Transcript(ps);
      assert t[1..][1..] == Transcript(ps[1..]);
      PairsOfTranscript(ps[1..], None);
    }
  }

  /** Messages with any other role neither pair nor clear the pending user message. */
  lemma {:induction false} OtherRolesIgnored(convo: seq<StoredMessage>, pending: Option<string>)
    ensures PairsFrom(convo, pending) == PairsFrom(OnlyChat(convo), pending)
    decreases |convo|
  {
    if |convo| > 0 {
      OtherRolesIgnored(convo[1..], None);
      OtherRolesIgnored(convo[1..], pending);
      OtherRolesIgnored(convo[1..], Some(convo[0].content));
    }
  }

  /** The conversation with only its user and assistant messages. */
  function OnlyChat(convo: seq<StoredMessage>): (r: seq<StoredMessage>)
    ensures |r| <= |convo|
    ensures forall m :: m in r <==> m in convo && (m.role == "user" || m.role == "assistant")
    decreases |convo|
  {
    if |convo| == 0 then []
    else if convo[0].role == "user" || convo[0].role == "assistant" then [convo[0]] + OnlyChat(convo[1..])
    else OnlyChat(convo[1..])
  }

  function CountRole(convo: seq<StoredMessage>, role: string): (n: nat)
    ensures n <= |convo|
    decreases |convo|
  {
    if |convo| == 0 then 0 else (if convo[0].role == role then 1 else 0) + CountRole(convo[1..], role)
  }

  /** Each pair consumes one assistant message and one user message: there are never
      more pairs than assistant messages, nor more than user messages (counting a
      pending one). */
  lemma {:induction false} PairsBounded(convo: seq<StoredMessage>, pending: Option<string>)
    ensures |PairsFrom(convo, pending)| <= CountRole(convo, "assistant")
    ensures |PairsFrom(convo, pending)| <= CountRole(convo, "user") + (if pending.Some? then 1 else 0)
    decreases |convo|
  {
    if |convo| > 0 {
      PairsBounded(convo[1..], None);
      PairsBounded(convo[1..], pending);
      PairsBounded(convo[1..], Some(convo[0].content));
    }
  }

  /** Every pair is made of a stored user message's content and a stored assistant
      message's content. */
  lemma {:induction false} PairsComeFromMessages(convo: seq<StoredMessage>, pending: Option<string>)
    ensures forall p :: p in PairsFrom(convo, pending) ==>
      && (StoredMessage("assistant", p.assistant) in convo)
      && (StoredMessage("user", p.user) in convo || pending == Some(p.user))
    decreases |convo|
  {
    if |convo| > 0 {
      PairsComeFromMessages(convo[1..], None);
      PairsComeFromMessages(convo[1..], pending);
      PairsComeFromMessages(convo[1..], Some(convo[0].content));
    }
  }

  /** `get_session_messages`: only a valid object id is accepted; the session's
      messages are then listed in creation order (none for an unknown session). */
  function GetSessionMessages(messages: map<Oid, seq<StoredMessage>>, sessionId: string, parse: OidParser)
    : (r: Result<seq<StoredMessage>, RepoError>)
    ensures r.Err? <==> !IsValidObjectId(Str(sessionId), parse)
    ensures r.Err? ==> r.error == InvalidSessionId
    ensures r.Ok? && parse(sessionId).value in messages ==> r.value == messages[parse(sessionId).value]
    ensures r.Ok? && parse(sessionId).value !in messages ==> r.value == []
  {
    if !IsValidObjectId(Str(sessionId), parse) then Err(InvalidSessionId)
    else
      var oid := parse(sessionId).value;
      Ok(if oid in messages then messages[oid] else [])
  }

  /** An external key such as a UUID is never accepted for listing, while the session
      lookup accepts it by upserting. */
  lemma ExternalKeyListingRejected(st: Store, messages: map<Oid, seq<StoredMessage>>, key: string, newId: Oid, now: int)
    requires key != "" && |key| != 24
    ensures GetSessionMessages(messages, key, HexParse).Err?
    ensures GetOrCreateSession(st, Some(key), HexParse, newId, now).Ok?
  {
  }
}
