/**
  Worked traces, stated as contracts over concrete inputs: one contact's
  conversation from the greeting to the answer that mentions the guide and
  the reminder that is then not sent, and the pacer's plan over a feed that
  outlasts one day's quota.
 */
module Scenarios {
  import opened Wrappers
  import Text
  import Store
  import Completion
  import Conversation
  import Pacer

  const Alice := "alice"
  const Question := Completion.Msg(Conversation.UserRole, "Which guide?")
  const Detail := Completion.Msg(Conversation.UserRole, "The one about filters")

  /** A completion service that answers with the guide keyword exactly the
      request made of Alice's two messages in the order she sent them, and
      rejects every other request. */
  function GuideService(request: seq<Completion.Msg>, k: nat): Completion.Outcome {
    if request == [Question, Detail] then Completion.Content(Conversation.GuideKeyword)
    else Completion.InvalidRequestError
  }

  /** A fresh engine greets Alice with a template that is just her name;
      the greeting is delivered and recorded, and her reminder is armed as
      task 0. */
  method GreetAlice() returns (engine: Conversation.Engine)
    ensures fresh(engine) && fresh(engine.db)
    ensures engine.Valid() && engine.prompt == []
    ensures engine.outbox == [Conversation.Outgoing(Alice, Conversation.Greeting, "Alice")]
    ensures Alice in engine.stats && !engine.stats[Alice].userReplied
    ensures Conversation.Task(0, Alice) in engine.pendingReminders
    ensures engine.BufferOf(Alice) == [] && engine.HistoryOf(Alice) == []
  {
    var db := new Store.Database(map[], map[]);
    engine := new Conversation.Engine(db, []);
    assert Conversation.Personalize(Conversation.Placeholder, "Alice") == "Alice";
    engine.SendInitial(Alice, "Alice", Conversation.Placeholder, true, Store.Committed);
  }

  /** Alice answers the greeting with a text question: she is marked as
      having replied, and the question waits in her buffer under a debounce
      timer. */
  method AliceAsks(engine: Conversation.Engine)
    requires engine.Valid()
    requires Alice in engine.stats
    requires engine.BufferOf(Alice) == [] && engine.HistoryOf(Alice) == []
    modifies engine, engine.db
    ensures engine.Valid()
    ensures engine.outbox == old(engine.outbox)
    ensures Alice in engine.stats && engine.stats[Alice].userReplied
    ensures engine.pendingReminders == old(engine.pendingReminders)
    ensures engine.BufferOf(Alice) == [Question] && engine.HistoryOf(Alice) == []
    ensures Alice in engine.timers && Conversation.Task(engine.timers[Alice], Alice) in engine.pendingDebounce
  {
    assert Conversation.SenderKey(Some(Alice)) == Alice;
    engine.OnMessage(Some(Alice), Conversation.TextMessage("Which guide?"), Store.Committed, true);
  }

  /** Alice adds a second text message before her debounce timer fires: it
      joins the first in her buffer, in arrival order, and the earlier timer
      is replaced by a new one, so the two messages are flushed together. */
  method AliceAddsDetail(engine: Conversation.Engine)
    requires engine.Valid()
    requires Alice in engine.stats
    requires engine.BufferOf(Alice) == [Question] && engine.HistoryOf(Alice) == []
    requires Alice in engine.timers
    modifies engine, engine.db
    ensures engine.Valid()
    ensures engine.outbox == old(engine.outbox)
    ensures Alice in engine.stats && engine.stats[Alice].userReplied
    ensures engine.pendingReminders == old(engine.pendingReminders)
    ensures engine.BufferOf(Alice) == [Question, Detail] && engine.HistoryOf(Alice) == []
    ensures Conversation.Task(old(engine.timers[Alice]), Alice) !in engine.pendingDebounce
    ensures Alice in engine.timers && Conversation.Task(engine.timers[Alice], Alice) in engine.pendingDebounce
  {
    assert Conversation.SenderKey(Some(Alice)) == Alice;
    engine.OnMessage(Some(Alice), Conversation.TextMessage(Detail.content), Store.Committed, true);
  }

  /** The answer to Alice's two messages: the first request succeeds and its
      text needs no stripping. */
  lemma GuideReply()
    ensures Completion.Attempts([] + [Question, Detail], Completion.DefaultMaxRetries, GuideService, 0)
            == Completion.Answer(Conversation.GuideKeyword, 1)
  {
    Text.StripKeepsTrimmed(Conversation.GuideKeyword);
  }

  /** The guide keyword passes the lower-cased keyword test. */
  lemma GuideMentioned()
    ensures Conversation.MentionsGuide(Conversation.GuideKeyword)
  {
    assert Text.Lower(Conversation.GuideKeyword) == Conversation.GuideKeyword;
    assert Text.Contains(Conversation.GuideKeyword, Conversation.GuideKeyword);
    Text.ContainsSurvivesLower(Conversation.GuideKeyword, Conversation.GuideKeyword);
  }

  /** The guide keyword carries no webinar link: the link is the longer string. */
  lemma GuideNotSensitive()
    ensures !Text.Contains(Conversation.GuideKeyword, Conversation.SensitiveMarker)
  {
    assert |Conversation.GuideKeyword| < |Conversation.SensitiveMarker|;
  }

  /** Alice's debounce timer fires: her two messages are sent to the
      completion service as one request, whose reply mentions the guide, so
      the reply and then the invitation are delivered; the reply does not
      carry the webinar link. */
  method AliceAnswered(engine: Conversation.Engine)
    requires engine.Valid() && engine.prompt == []
    requires Alice in engine.stats && engine.stats[Alice].userReplied
    requires engine.BufferOf(Alice) == [Question, Detail] && engine.HistoryOf(Alice) == []
    requires Alice in engine.timers && Conversation.Task(engine.timers[Alice], Alice) in engine.pendingDebounce
    modifies engine, engine.db
    ensures engine.Valid()
    ensures engine.outbox == old(engine.outbox)
                             + [Conversation.Outgoing(Alice, Conversation.Reply, Conversation.GuideKeyword)]
                             + [Conversation.Outgoing(Alice, Conversation.GuideInvitation, Conversation.GuideInvitationText)]
    ensures Alice in engine.histories
    ensures engine.histories[Alice] == [Question, Detail, Completion.Msg(Conversation.AssistantRole, Conversation.GuideKeyword)]
    ensures engine.BufferOf(Alice) == []
    ensures Alice in engine.db.userStats && engine.db.userStats[Alice] == Store.Snapshot(true, 1, false, true)
    ensures Alice in engine.stats && engine.stats[Alice].userReplied
    ensures engine.pendingReminders == old(engine.pendingReminders)
  {
    ghost var history := engine.HistoryOf(Alice) + engine.BufferOf(Alice);
    assert engine.prompt + history == [] + [Question, Detail];
    GuideReply();
    GuideMentioned();
    GuideNotSensitive();
    ghost var reply := Completion.Attempts(engine.prompt + history, Completion.DefaultMaxRetries, GuideService, 0).text;
    assert reply == Conversation.GuideKeyword;
    engine.DebounceFired(Alice, GuideService, true, Store.Committed, true);
  }

  /** The whole trace: Alice's two messages are answered together with a
      reply that mentions the guide, so the invitation follows; the webinar
      link was not sent, and her reminder stays silent because she replied. */
  method AliceConversation() returns (outbox: seq<Conversation.Outgoing>, history: seq<Completion.Msg>,
                                      row: Option<Store.StatsRow>)
    ensures outbox == [Conversation.Outgoing(Alice, Conversation.Greeting, "Alice"),
                       Conversation.Outgoing(Alice, Conversation.Reply, Conversation.GuideKeyword),
                       Conversation.Outgoing(Alice, Conversation.GuideInvitation, Conversation.GuideInvitationText)]
    ensures history == [Question, Detail, Completion.Msg(Conversation.AssistantRole, Conversation.GuideKeyword)]
    ensures row == Some(Store.Snapshot(true, 1, false, true))
  {
    var engine := GreetAlice();
    AliceAsks(engine);
    AliceAddsDetail(engine);
    AliceAnswered(engine);
    engine.ReminderFired(Conversation.Task(0, Alice), true, Store.Committed);
    outbox := engine.outbox;
    history := engine.histories[Alice];
    row := if Alice in engine.db.userStats then Some(engine.db.userStats[Alice]) else None;
  }

  const Feed5: seq<string> := ["a", "b", "c", "d", "e"]

  /** Five usable contacts from a fresh cursor: four are greeted, with the
      hour's pause after each but the fourth; the loop waits for the next
      day; the fifth is greeted; and the loop ends at position 5. */
  lemma FiveContactsPlan()
    ensures Pacer.Plan(Feed5, Feed5, 0, 0)
            == Pacer.Run([Pacer.Contacted("a", "a", 1, 1, true), Pacer.Contacted("b", "b", 2, 2, true),
                          Pacer.Contacted("c", "c", 3, 3, true), Pacer.Contacted("d", "d", 4, 4, false),
                          Pacer.QuotaWaited, Pacer.Contacted("e", "e", 5, 1, true)],
                         Pacer.OutOfContacts(5))
  {
    var tail := Pacer.Run([], Pacer.OutOfContacts(5));
    assert Pacer.Plan(Feed5, Feed5, 5, 1) == tail;
    assert Pacer.Plan(Feed5, Feed5, 4, 0) == Pacer.Prepend(Pacer.Contacted("e", "e", 5, 1, true), tail);
    assert Pacer.Plan(Feed5, Feed5, 4, 4) == Pacer.Prepend(Pacer.QuotaWaited, Pacer.Plan(Feed5, Feed5, 4, 0));
    assert Pacer.Plan(Feed5, Feed5, 3, 3) == Pacer.Prepend(Pacer.Contacted("d", "d", 4, 4, false), Pacer.Plan(Feed5, Feed5, 4, 4));
    assert Pacer.Plan(Feed5, Feed5, 2, 2) == Pacer.Prepend(Pacer.Contacted("c", "c", 3, 3, true), Pacer.Plan(Feed5, Feed5, 3, 3));
    assert Pacer.Plan(Feed5, Feed5, 1, 1) == Pacer.Prepend(Pacer.Contacted("b", "b", 2, 2, true), Pacer.Plan(Feed5, Feed5, 2, 2));
    assert Pacer.Plan(Feed5, Feed5, 0, 0) == Pacer.Prepend(Pacer.Contacted("a", "a", 1, 1, true), Pacer.Plan(Feed5, Feed5, 1, 1));
  }

  /** A name column with fewer filled cells than the username column: the
      first contact is greeted, and the lookup at position 1 raises
      `IndexError`, which ends the loop there. */
  lemma ShortNameColumnPlan()
    ensures Pacer.Plan(["a", "b"], ["a"], 0, 0)
            == Pacer.Run([Pacer.Contacted("a", "a", 1, 1, true)], Pacer.Crashed(1))
  {
    assert Pacer.Plan(["a", "b"], ["a"], 1, 1) == Pacer.Run([], Pacer.Crashed(1));
  }
}
