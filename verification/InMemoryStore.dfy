/** The in-memory store: four maps over heap objects, updated in place under one lock. */
module InMemory {
  import opened StoreTypes
  import opened MemorySpec
  import opened MemoryInvariants
  import opened Permutations

  /** A stored conversation. Only the title and the update time are ever reassigned. */
  class ConversationObj {
    const id: Id
    const sub: Subject
    var title: string
    const createdAt: Time
    var updatedAt: Time

    constructor (id: Id, sub: Subject, title: string, now: Time)
      ensures Value() == Conversation(id, sub, title, now, now)
    {
      this.id, this.sub, this.title, createdAt, updatedAt := id, sub, title, now, now;
    }

    function Value(): Conversation
      reads this
    {
      Conversation(id, sub, title, createdAt, updatedAt)
    }
  }

  /** A stored message; no field is reassigned after construction. */
  class MessageObj {
    const value: Message

    constructor (value: Message)
      ensures this.value == value
    {
      this.value := value;
    }
  }

  /** Stored feedback; an upsert replaces the object. */
  class FeedbackObj {
    const value: Feedback

    constructor (value: Feedback)
      ensures this.value == value
    {
      this.value := value;
    }
  }

  function Values(ms: seq<MessageObj>): (vs: seq<Message>)
    ensures |vs| == |ms|
    ensures forall i :: 0 <= i < |ms| ==> vs[i] == ms[i].value
  {
    seq(|ms|, i requires 0 <= i < |ms| => ms[i].value)
  }

  /** How the four maps represent the abstract state. */
  ghost predicate ConversationsMatch(conversations: map<Id, ConversationObj>, convs: map<Id, Conversation>)
    reads conversations.Values
  {
    && (forall c :: c in conversations <==> c in convs)
    && (forall c :: c in conversations ==> conversations[c].Value() == convs[c])
  }

  function SliceOf(messages: map<Id, seq<MessageObj>>, c: Id): seq<MessageObj> {
    if c in messages then messages[c] else []
  }

  ghost predicate MessagesMatch(messages: map<Id, seq<MessageObj>>, msgs: map<Id, seq<Message>>) {
    && (forall c :: c in messages ==> c in msgs)
    && (forall c :: c in msgs ==> Values(SliceOf(messages, c)) == msgs[c])
  }

  ghost predicate FeedbackMatches(feedback: map<Subject, map<Id, FeedbackObj>>, fb: map<FeedbackKey, Feedback>) {
    && (forall k :: k in fb <==> k.sub in feedback && k.messageId in feedback[k.sub])
    && (forall k :: k in fb ==> feedback[k.sub][k.messageId].value == fb[k])
  }

  lemma PutObject(conversations: map<Id, ConversationObj>, convs: map<Id, Conversation>, c: ConversationObj)
    requires ConversationsMatch(conversations, convs)
    ensures ConversationsMatch(conversations[c.id := c], convs[c.id := c.Value()])
    ensures ConversationsMatch(conversations - {c.id}, convs - {c.id})
  {
  }

  lemma PutSlice(messages: map<Id, seq<MessageObj>>, msgs: map<Id, seq<Message>>, c: Id, ms: seq<MessageObj>)
    requires MessagesMatch(messages, msgs)
    ensures MessagesMatch(messages[c := ms], msgs[c := Values(ms)])
    ensures c !in msgs ==> MessagesMatch(messages, msgs[c := []])
    ensures MessagesMatch(messages - {c}, msgs - {c})
    ensures c in msgs ==> Values(SliceOf(messages, c)) == msgs[c]
  {
  }

  lemma PutFeedback(feedback: map<Subject, map<Id, FeedbackObj>>, fb: map<FeedbackKey, Feedback>, k: FeedbackKey, f: FeedbackObj)
    requires FeedbackMatches(feedback, fb)
    ensures var own: map<Id, FeedbackObj> := if k.sub in feedback then feedback[k.sub] else map[];
      FeedbackMatches(feedback[k.sub := own[k.messageId := f]], fb[k := f.value])
  {
  }

  class InMemoryStore {
    var conversations: map<Id, ConversationObj>
    var messages: map<Id, seq<MessageObj>>
    var messageIndex: map<Id, Id>
    var feedback: map<Subject, map<Id, FeedbackObj>>
    ghost var view: State  // the abstract state the objects represent

    ghost predicate Represents()
      reads this, conversations.Values
    {
      && ConversationsMatch(conversations, view.convs)
      && MessagesMatch(messages, view.msgs)
      && messageIndex == view.index
      && FeedbackMatches(feedback, view.fb)
    }

    ghost predicate Valid()
      reads this, conversations.Values
    {
      Represents() && Inv(view)
    }

    constructor ()
      ensures Valid() && view == Empty && conversations == map[]
    {
      conversations, messages, messageIndex, feedback := map[], map[], map[], map[];
      view := Empty;
    }

    /** Heap separation: distinct keys hold distinct conversation objects, and no message object is stored twice,
        neither in one conversation nor in two. */
    lemma Separation(c: Id, i: nat, d: Id, j: nat)
      requires Valid() && c in conversations && d in conversations
      ensures c != d ==> conversations[c] != conversations[d]
      ensures i < |SliceOf(messages, c)| && j < |SliceOf(messages, d)| && SliceOf(messages, c)[i] == SliceOf(messages, d)[j] ==> c == d && i == j
    {
      var s := view;
      assert s.convs[c].id == c && s.convs[d].id == d;
      if i < |SliceOf(messages, c)| && j < |SliceOf(messages, d)| && SliceOf(messages, c)[i] == SliceOf(messages, d)[j] {
        assert s.msgs[c][i] == s.msgs[d][j];
        assert DistinctIds(s.msgs[c]);
      }
    }

    /** What a lookup by identifier finds is what the abstract state says. */
    lemma Resolve(id: Id)
      requires Valid()
      ensures id in conversations <==> id in view.convs
      ensures id in conversations ==>
        && conversations[id].Value() == view.convs[id]
        && conversations[id].id == id
        && id in view.msgs && Values(SliceOf(messages, id)) == view.msgs[id]
      ensures id !in conversations ==> id !in view.msgs && id !in messages
      ensures messageIndex == view.index
    {
    }

    lemma ResolveFresh(mint: Mint)
      requires Valid() && FreshFor(view, mint)
      ensures mint(0) !in conversations && mint(0) !in messages && mint(0) !in view.msgs
    {
      assert !Known(view, mint(0));
      Resolve(mint(0));
    }

    ghost predicate OnlyUnder(id: Id)
      requires id in conversations
      reads this
    {
      forall c :: c in conversations && c != id ==> conversations[c] != conversations[id]
    }

    lemma OneKey(id: Id)
      requires Valid() && id in conversations
      ensures OnlyUnder(id)
    {
      assert view.convs[id].id == id;
      forall c | c in conversations && c != id ensures conversations[c] != conversations[id] {
        assert view.convs[c].id == c;
      }
    }

    /** Returns the stored object itself, not a copy. */
    method CreateConversation(sub: Subject, title: string, now: Time, mint: Mint)
      returns (p: ConversationObj?, error: Option<StoreError>)
      requires Valid() && FreshFor(view, mint)
      modifies this
      ensures Valid()
      ensures (p == null) == error.Some?
      ensures Does(old(view), Call(sub, Op.CreateConversation(title), now, mint), view,
                   if p == null then Failed(error.value) else OneConversation(p.Value()))
      ensures p != null ==> fresh(p) && conversations == old(conversations)[p.id := p]
      ensures p == null ==> conversations == old(conversations)
    {
      hide Inv, FreshFor, Represents, Next, Allows, Does;
      ghost var e := Call(sub, Op.CreateConversation(title), now, mint);
      ResolveFresh(mint);
      if sub == "" {
        Refused(view, e);
        return null, Some(Forbidden);
      }
      CreatePreserves(view, e);
      Accepted(view, e);
      p := new ConversationObj(mint(0), sub, title, now);
      error := None;
      StoreConversation(p);
    }

    method ListConversations(sub: Subject) returns (r: Reply)
      requires Valid()
      ensures forall now, mint :: Allows(view, Call(sub, Op.ListConversations, now, mint), r)
    {
      hide Inv, Represents, Owned, Enumerates, NewestFirst;
      if sub == "" {
        return Failed(Forbidden);
      }
      var out := Collect(sub);
      var sorted := SortNewestFirst(out);
      EnumerationsPermute(out, sorted, Owned(view.convs, sub));
      r := Conversations(sorted);
    }

    /** The loop over the map, in any order. */
    method Collect(sub: Subject) returns (out: seq<Conversation>)
      requires Valid()
      ensures Enumerates(out, Owned(view.convs, sub))
    {
      hide Inv, Represents, Owned, Enumerates;
      out := [];
      var rest := conversations.Keys;
      ghost var done: map<Id, Conversation> := map[];
      NoneOwned(sub);
      while rest != {}
        invariant rest <= conversations.Keys
        invariant done.Keys == conversations.Keys - rest
        invariant forall c :: c in done ==> c in view.convs && done[c] == view.convs[c] && done[c].id == c
        invariant Enumerates(out, Owned(done, sub))
      {
        var c :| c in rest;
        Resolve(c);
        OwnedGrows(done, c, view.convs[c], sub, out);
        if conversations[c].sub == sub {
          out := out + [conversations[c].Value()];
        }
        done, rest := done[c := view.convs[c]], rest - {c};
      }
      forall c ensures c in view.convs <==> c in done {
        Resolve(c);
      }
      assert done == view.convs;
    }

    method GetConversation(sub: Subject, id: Id) returns (r: Reply)
      requires Valid()
      ensures forall now, mint :: Allows(view, Call(sub, Op.GetConversation(id), now, mint), r)
    {
      hide Inv, Represents;
      Resolve(id);
      if id !in conversations || conversations[id].sub != sub {
        return Failed(NotFound);
      }
      r := OneConversation(conversations[id].Value());
    }

    method RenameConversation(sub: Subject, id: Id, newTitle: string, now: Time, ghost mint: Mint) returns (r: Reply)
      requires Valid()
      modifies this`view, conversations.Values
      ensures Valid()
      ensures Does(old(view), Call(sub, Op.RenameConversation(id, newTitle), now, mint), view, r)
    {
      hide Inv, Represents, Next, Allows, Does;
      ghost var e := Call(sub, Op.RenameConversation(id, newTitle), now, mint);
      Resolve(id);
      if id !in conversations || conversations[id].sub != sub {
        Refused(view, e);
        return Failed(NotFound);
      }
      RenamePreserves(view, e);
      Accepted(view, e);
      OneKey(id);
      Retitle(id, newTitle, now);
      r := OneConversation(conversations[id].Value());
    }

    method DeleteConversation(sub: Subject, id: Id, ghost now: Time, ghost mint: Mint) returns (r: Reply)
      requires Valid()
      modifies this
      ensures Valid()
      ensures Does(old(view), Call(sub, Op.DeleteConversation(id), now, mint), view, r)
      ensures feedback == old(feedback)
    {
      hide Inv, Represents, Next, Allows, Does;
      ghost var e := Call(sub, Op.DeleteConversation(id), now, mint);
      Resolve(id);
      if id !in conversations || conversations[id].sub != sub {
        Refused(view, e);
        return Failed(NotFound);
      }
      DeletePreserves(view, e);
      Accepted(view, e);
      Remove(id);
      r := Deleted;
    }

    method AppendMessage(sub: Subject, conversationId: Id, role: string, content: string, now: Time, mint: Mint) returns (r: Reply)
      requires Valid() && FreshFor(view, mint)
      modifies this, conversations.Values
      ensures Valid()
      ensures Does(old(view), Call(sub, Op.AppendMessage(conversationId, role, content), now, mint), view, r)
      ensures conversations == old(conversations)
      ensures forall c :: old(SliceOf(messages, c)) <= SliceOf(messages, c)
    {
      hide Inv, FreshFor, Represents, Next, Allows, Does;
      ghost var e := Call(sub, Op.AppendMessage(conversationId, role, content), now, mint);
      Resolve(conversationId);
      if conversationId !in conversations || conversations[conversationId].sub != sub {
        Refused(view, e);
        return Failed(NotFound);
      }
      AppendPreserves(view, e);
      Accepted(view, e);
      OneKey(conversationId);
      var m := new MessageObj(Message(mint(0), conversationId, role, content, now));
      Append(m);
      r := OneMessage(m.value);
    }

    method ListMessages(sub: Subject, conversationId: Id) returns (r: Reply)
      requires Valid()
      ensures forall now, mint :: Allows(view, Call(sub, Op.ListMessages(conversationId), now, mint), r)
    {
      hide Inv, Represents;
      Resolve(conversationId);
      if conversationId !in conversations || conversations[conversationId].sub != sub {
        return Failed(NotFound);
      }
      var src := if conversationId in messages then messages[conversationId] else [];
      var out := CopyOut(src);
      r := Messages(out);
    }

    method UpsertFeedback(sub: Subject, messageId: Id, rating: string, comment: string, now: Time, ghost mint: Mint) returns (r: Reply)
      requires Valid()
      modifies this
      ensures Valid()
      ensures Does(old(view), Call(sub, Op.UpsertFeedback(messageId, rating, comment), now, mint), view, r)
    {
      hide Inv, Represents, Next, Allows, Does;
      ghost var e := Call(sub, Op.UpsertFeedback(messageId, rating, comment), now, mint);
      Resolve(if messageId in messageIndex then messageIndex[messageId] else messageId);
      if rating != "good" && rating != "bad" {
        Refused(view, e);
        return Failed(InvalidRating);
      }
      if messageId !in messageIndex {
        Refused(view, e);
        return Failed(NotFound);
      }
      var convId := messageIndex[messageId];
      if convId !in conversations || conversations[convId].sub != sub {
        Refused(view, e);
        return Failed(NotFound);
      }
      UpsertPreserves(view, e);
      Accepted(view, e);
      var f := new FeedbackObj(Feedback(messageId, sub, rating, comment, now));
      StoreFeedback(sub, messageId, f);
      r := OneFeedback(f.value);
    }

    method GetFeedback(sub: Subject, messageId: Id) returns (r: Reply)
      requires Valid()
      ensures forall now, mint :: Allows(view, Call(sub, Op.GetFeedback(messageId), now, mint), r)
    {
      hide Inv, ConversationsMatch, MessagesMatch;
      assert FeedbackKey(sub, messageId) in view.fb <==> sub in feedback && messageId in feedback[sub];
      if sub !in feedback {
        return Failed(NotFound);
      }
      if messageId !in feedback[sub] {
        return Failed(NotFound);
      }
      r := OneFeedback(feedback[sub][messageId].value);
    }

    method BranchFromMessage(sub: Subject, messageId: Id, title: string, now: Time, mint: Mint) returns (r: Reply)
      requires Valid() && FreshFor(view, mint)
      modifies this
      ensures Valid()
      ensures Does(old(view), Call(sub, Op.BranchFromMessage(messageId, title), now, mint), view, r)
      ensures forall c :: c in old(conversations) ==>
        c in conversations && conversations[c] == old(conversations[c]) && SliceOf(messages, c) == old(SliceOf(messages, c))
      ensures r.OneConversation? ==> forall i :: 0 <= i < |SliceOf(messages, mint(0))| ==> fresh(SliceOf(messages, mint(0))[i])
    {
      hide Inv, FreshFor, Represents, Next, Allows, Does, Copies, AfterBranch;
      ghost var e := Call(sub, Op.BranchFromMessage(messageId, title), now, mint);
      ResolveFresh(mint);
      Resolve(if messageId in messageIndex then messageIndex[messageId] else messageId);
      if sub == "" {
        Refused(view, e);
        return Failed(Forbidden);
      }
      if messageId !in messageIndex {
        Refused(view, e);
        return Failed(NotFound);
      }
      var convId := messageIndex[messageId];
      if convId !in conversations || conversations[convId].sub != sub {
        Refused(view, e);
        return Failed(NotFound);
      }
      var src := conversations[convId];
      var srcMsgs := if convId in messages then messages[convId] else [];
      var cut := Find(srcMsgs, messageId);
      if cut < 0 {
        Refused(view, e);
        return Failed(NotFound);
      }
      BranchPreserves(view, e);
      Accepted(view, e);
      var newTitle := title;
      if newTitle == "" {
        newTitle := src.title + " (branch)";
      }
      var dst := new ConversationObj(mint(0), sub, newTitle, now);
      assert dst.Value() == BranchHead(view, e);
      assert Values(srcMsgs[..cut + 1]) == Prefix(view, messageId);
      Graft(dst, srcMsgs[..cut + 1], now, mint);
      r := OneConversation(dst.Value());
    }

    // The writes to the four maps, one method each, with what they do to the abstract state.

    method Append(m: MessageObj)
      requires Represents() && m.value.conversationId in conversations && OnlyUnder(m.value.conversationId)
      requires Values(SliceOf(messages, m.value.conversationId)) == MessagesOf(view, m.value.conversationId)
      modifies this`messages, this`messageIndex, this`view, conversations[m.value.conversationId]
      ensures Represents() && view == AfterAppend(old(view), m.value)
      ensures forall c :: old(SliceOf(messages, c)) <= SliceOf(messages, c)
    {
      hide Represents;
      var c := m.value.conversationId;
      var slice := if c in messages then messages[c] else [];
      ValuesSnoc(slice, m);
      StoreMessages(c, slice + [m]);
      IndexMessage(m.value.id, c);
      Touch(c, m.value.createdAt);
    }

    method Graft(dst: ConversationObj, srcMsgs: seq<MessageObj>, now: Time, mint: Mint)
      requires Represents() && dst.id !in conversations && dst.id !in view.msgs && dst.id !in messages
      modifies this
      ensures Represents()
      ensures view == AfterBranch(old(view), old(dst.Value()), Copies(Values(srcMsgs), dst.id, now, mint))
      ensures conversations == old(conversations)[dst.id := dst]
      ensures dst.id in messages && messages == old(messages)[dst.id := messages[dst.id]]
      ensures forall i :: 0 <= i < |messages[dst.id]| ==> fresh(messages[dst.id][i])
    {
      hide Represents;
      StoreConversation(dst);
      var copied := CopyMessages(srcMsgs, dst.id, now, mint);
      StoreMessages(dst.id, copied);
    }

    method StoreConversation(c: ConversationObj)
      requires Represents() && c.id !in conversations && c.id !in view.msgs
      modifies this`conversations, this`view
      ensures Represents() && view == AfterCreate(old(view), c.Value())
      ensures conversations == old(conversations)[c.id := c]
    {
      hide ConversationsMatch, MessagesMatch, FeedbackMatches;
      PutObject(conversations, view.convs, c);
      PutSlice(messages, view.msgs, c.id, []);
      conversations, view := conversations[c.id := c], AfterCreate(view, c.Value());
    }

    method StoreMessages(c: Id, ms: seq<MessageObj>)
      requires Represents() && c in conversations
      modifies this`messages, this`view
      ensures Represents()
      ensures view == old(view).(msgs := old(view).msgs[c := Values(ms)])
      ensures messages == old(messages)[c := ms]
    {
      hide ConversationsMatch, MessagesMatch, FeedbackMatches;
      PutSlice(messages, view.msgs, c, ms);
      messages, view := messages[c := ms], view.(msgs := view.msgs[c := Values(ms)]);
    }

    method IndexMessage(m: Id, c: Id)
      requires Represents()
      modifies this`messageIndex, this`view
      ensures Represents() && view == old(view).(index := old(view).index[m := c])
    {
      hide ConversationsMatch, MessagesMatch, FeedbackMatches;
      messageIndex, view := messageIndex[m := c], view.(index := view.index[m := c]);
    }

    method StoreFeedback(sub: Subject, messageId: Id, f: FeedbackObj)
      requires Represents()
      modifies this`feedback, this`view
      ensures Represents() && view == old(view).(fb := old(view).fb[FeedbackKey(sub, messageId) := f.value])
    {
      hide ConversationsMatch, MessagesMatch, FeedbackMatches;
      PutFeedback(feedback, view.fb, FeedbackKey(sub, messageId), f);
      if sub !in feedback {
        feedback := feedback[sub := map[]];
      }
      feedback := feedback[sub := feedback[sub][messageId := f]];
      assert feedback == old(feedback)[sub := feedback[sub]];
      view := view.(fb := view.fb[FeedbackKey(sub, messageId) := f.value]);
    }

    method Touch(c: Id, now: Time)
      requires Represents() && c in conversations
      requires OnlyUnder(c)
      modifies conversations[c], this`view
      ensures Represents()
      ensures view == old(view).(convs := old(view).convs[c := old(view).convs[c].(updatedAt := now)])
    {
      hide MessagesMatch, FeedbackMatches;
      var obj := conversations[c];
      obj.updatedAt := now;
      view := view.(convs := view.convs[c := view.convs[c].(updatedAt := now)]);
      assert obj.Value() == view.convs[c];
    }

    method Retitle(c: Id, title: string, now: Time)
      requires Represents() && c in conversations
      requires OnlyUnder(c)
      modifies conversations[c], this`view
      ensures Represents() && view == AfterRename(old(view), c, title, now)
      ensures conversations[c].Value() == view.convs[c]
    {
      var obj := conversations[c];
      obj.title := title;
      obj.updatedAt := now;
      view := AfterRename(view, c, title, now);
      forall k | k in conversations ensures k in view.convs && conversations[k].Value() == view.convs[k] {
        assert k != c ==> conversations[k] != obj;
      }
    }

    /** Removes the conversation, then the index entry of each of its messages, then its slice. */
    method Remove(id: Id)
      requires Represents() && id in conversations && conversations[id].id == id
      requires Values(SliceOf(messages, id)) == MessagesOf(view, id)
      modifies this
      ensures Represents() && view == AfterDelete(old(view), id) && feedback == old(feedback)
    {
      hide ConversationsMatch, MessagesMatch, FeedbackMatches, Unfiled, Values;
      PutObject(conversations, view.convs, conversations[id]);
      PutSlice(messages, view.msgs, id, []);
      FiledNone(messageIndex, id);
      conversations := conversations - {id};
      var doomed := if id in messages then messages[id] else [];
      for i := 0 to |doomed|
        invariant messageIndex == Unfiled(old(messageIndex), Values(doomed[..i]))
        invariant conversations == old(conversations) - {id}
        invariant messages == old(messages) && feedback == old(feedback) && view == old(view)
      {
        assert doomed[..i + 1] == doomed[..i] + [doomed[i]];
        ValuesSnoc(doomed[..i], doomed[i]);
        FiledSnoc(old(messageIndex), Values(doomed[..i]), doomed[i].value, id);
        messageIndex := messageIndex - {doomed[i].value.id};
      }
      assert doomed[..|doomed|] == doomed;
      messages, view := messages - {id}, AfterDelete(view, id);
    }

    /** The copy loop of BranchFromMessage: fresh objects, fresh identifiers, one shared time, each one indexed. */
    method CopyMessages(srcMsgs: seq<MessageObj>, dst: Id, now: Time, mint: Mint) returns (copied: seq<MessageObj>)
      requires Represents()
      modifies this`messageIndex, this`view
      ensures Represents()
      ensures Values(copied) == Copies(Values(srcMsgs), dst, now, mint)
      ensures forall k :: 0 <= k < |copied| ==> fresh(copied[k])
      ensures view == old(view).(index := Filed(old(view).index, Values(copied), dst))
    {
      hide Represents, Filed;
      FiledNone(view.index, dst);
      copied := [];
      for i := 0 to |srcMsgs|
        invariant |copied| == i && Represents()
        invariant forall k :: 0 <= k < i ==> fresh(copied[k])
        invariant forall k :: 0 <= k < i ==>
          copied[k].value == Message(mint(k + 1), dst, srcMsgs[k].value.role, srcMsgs[k].value.content, now)
        invariant view == old(view).(index := Filed(old(view).index, Values(copied), dst))
      {
        var m := srcMsgs[i].value;
        var nm := new MessageObj(Message(mint(i + 1), dst, m.role, m.content, now));
        ValuesSnoc(copied, nm);
        FiledSnoc(old(view).index, Values(copied), nm.value, dst);
        copied := copied + [nm];
        IndexMessage(nm.value.id, dst);
      }
    }
  }

  /** The loop of ListMessages. */
  method CopyOut(src: seq<MessageObj>) returns (out: seq<Message>)
    ensures out == Values(src)
  {
    out := [];
    for i := 0 to |src|
      invariant |out| == i && forall k :: 0 <= k < i ==> out[k] == src[k].value
    {
      out := out + [src[i].value];
    }
  }

  /** The search loop of BranchFromMessage. */
  method Find(ms: seq<MessageObj>, id: Id) returns (cut: int)
    ensures cut == Position(Values(ms), id)
  {
    cut := -1;
    for i := 0 to |ms|
      invariant cut == -1
      invariant forall k :: 0 <= k < i ==> ms[k].value.id != id
    {
      if ms[i].value.id == id {
        return i;
      }
    }
  }

  /** A comparison sort by descending update time that leaves the order of equal times open. */
  method SortNewestFirst(cs: seq<Conversation>) returns (out: seq<Conversation>)
    ensures multiset(out) == multiset(cs) && NewestFirst(out)
  {
    out := [];
    var rest := cs;
    while rest != []
      invariant multiset(out) + multiset(rest) == multiset(cs)
      invariant NewestFirst(out)
      invariant forall i, j :: 0 <= i < |out| && 0 <= j < |rest| ==> out[i].updatedAt >= rest[j].updatedAt
      decreases |rest|
    {
      NewestExists(rest);
      var k: nat :| IsNewest(rest, k);
      TakeOut(rest, k);
      out, rest := out + [rest[k]], rest[..k] + rest[k + 1..];
    }
  }

  lemma TakeOut(cs: seq<Conversation>, k: nat)
    requires k < |cs|
    ensures multiset(cs[..k] + cs[k + 1..]) + multiset{cs[k]} == multiset(cs)
    ensures var rest := cs[..k] + cs[k + 1..]; forall j :: 0 <= j < |rest| ==> rest[j] == cs[if j < k then j else j + 1]
  {
    assert cs == cs[..k] + [cs[k]] + cs[k + 1..];
  }

  predicate IsNewest(cs: seq<Conversation>, k: nat) {
    k < |cs| && forall j :: 0 <= j < |cs| ==> cs[k].updatedAt >= cs[j].updatedAt
  }

  lemma {:induction false} NewestExists(cs: seq<Conversation>)
    requires cs != []
    ensures exists k: nat :: IsNewest(cs, k)
  {
    var n := |cs| - 1;
    if n == 0 {
      assert IsNewest(cs, 0);
    } else {
      NewestExists(cs[..n]);
      var k: nat :| IsNewest(cs[..n], k);
      assert IsNewest(cs, if cs[n].updatedAt >= cs[k].updatedAt then n else k);
    }
  }

  lemma NoneOwned(sub: Subject)
    ensures Enumerates([], Owned(map[], sub))
  {
  }

  /** Visiting one more conversation: it joins the listing just when it is the subject's. */
  lemma OwnedGrows(convs: map<Id, Conversation>, c: Id, v: Conversation, sub: Subject, out: seq<Conversation>)
    requires c !in convs && v.id == c && (forall d :: d in convs ==> convs[d].id == d)
    requires Enumerates(out, Owned(convs, sub))
    ensures Enumerates(if v.sub == sub then out + [v] else out, Owned(convs[c := v], sub))
  {
    var next := convs[c := v];
    forall x | x in Owned(convs, sub) ensures x in Owned(next, sub) && x != v {
      var d :| d in convs && convs[d].sub == sub && convs[d] == x;
      assert next[d] == x;
    }
    if v.sub == sub {
      assert next[c] == v;
      assert (out + [v])[|out|] == v;
      forall x | x in out ensures x in out + [v] {
      }
    }
  }

  lemma IdsOfSnoc(ms: seq<Message>, m: Message)
    ensures IdsOf(ms + [m]) == IdsOf(ms) + {m.id}
  {
    var all := ms + [m];
    forall i | 0 <= i < |ms| ensures all[i].id in IdsOf(all) {
    }
    assert all[|ms|] == m;
    forall x | x in IdsOf(ms) ensures x in IdsOf(all) {
      var i :| 0 <= i < |ms| && ms[i].id == x;
      assert all[i].id == x;
    }
  }

  lemma ValuesSnoc(ms: seq<MessageObj>, m: MessageObj)
    ensures Values(ms + [m]) == Values(ms) + [m.value]
  {
  }

  lemma FiledNone(index: map<Id, Id>, c: Id)
    ensures Filed(index, [], c) == index && Unfiled(index, Values([])) == index
  {
  }

  lemma FiledSnoc(index: map<Id, Id>, ms: seq<Message>, m: Message, c: Id)
    ensures Filed(index, ms + [m], c) == Filed(index, ms, c)[m.id := c]
    ensures Unfiled(index, ms + [m]) == Unfiled(index, ms) - {m.id}
  {
    IdsOfSnoc(ms, m);
  }

  /** The object CreateConversation hands out stays the stored one: a caller that keeps it sees later renames,
      which a caller holding the copy of GetConversation does not. */
  method CreateReturnsAnAlias(store: InMemoryStore, sub: Subject, title: string, newTitle: string, now: Time, later: Time, mint: Mint)
    returns (kept: ConversationObj, copy: Reply)
    requires store.Valid() && FreshFor(store.view, mint) && sub != ""
    modifies store, store.conversations.Values
    ensures fresh(kept) && kept.Value() == Conversation(mint(0), sub, newTitle, now, later)
    ensures copy == OneConversation(Conversation(mint(0), sub, title, now, now))
  {
    hide Inv, FreshFor, InMemoryStore.Represents;
    var p, error := store.CreateConversation(sub, title, now, mint);
    kept := p;
    store.Resolve(kept.id);
    copy := store.GetConversation(sub, kept.id);
    assert Allows(store.view, Call(sub, Op.GetConversation(kept.id), now, mint), copy);
    var renamed := store.RenameConversation(sub, kept.id, newTitle, later, mint);
    store.Resolve(kept.id);
  }
}
