/**
  The per-contact conversation engine of the outreach worker, as a
  sequential event model. The asynchronous tasks of the worker become
  explicit events, each a method of `Engine`:
  - `SendInitial`     — `send_message`: the greeting to a new contact;
  - `OnMessage`       — the `on_message` handler: an inbound message arrives;
  - `ResetTimer`      — `reset_timer`: (re)arm the user's debounce timer;
  - `DebounceFired`   — the body of `start_timer` once its 15-second sleep ends;
  - `ReminderFired`   — the body of `reminder_timer` once its 2-hour sleep ends.
  A timer task is "pending" from its creation until it is cancelled or
  fires; the environment may fire any pending task at any point of the
  trace. Sending a message, writing the database and asking the completion
  service are oracles passed in by the caller.
 */
module Conversation {
  import opened Wrappers
  import Text
  import Store
  import Completion

  /** `context['stats'][username]`: what the engine remembers of a contact. */
  datatype SessionStats = SessionStats(
    userReplied: bool,
    messageCount: int,
    sensitiveInfoSent: bool,
    initialMessageSent: bool,
    reminderSent: bool)

  /** The entry `send_message` and `start_timer` create for an unseen contact. */
  const FreshStats := SessionStats(false, 0, false, true, false)

  /** What an inbound message carries, as far as `on_message` tells apart. */
  datatype MessageKind = TextMessage(text: string) | Voice | VideoNote | Sticker

  /** Why the engine sent a message. */
  datatype OutKind = Greeting | Apology | Reply | GuideInvitation | Reminder

  /** A message the engine handed to the messaging client and that was delivered. */
  datatype Outgoing = Outgoing(to: string, kind: OutKind, text: string)

  /** An asyncio task sleeping on behalf of a user: a debounce or a reminder timer. */
  datatype Task = Task(id: nat, user: string)

  const UnknownUser := "unknown_user"
  const UserRole := "user"
  const AssistantRole := "assistant"

  /** The placeholder replaced by the contact's name in a greeting template. */
  const Placeholder := "Script1name"

  /** A reply containing this link counts as having shared the webinar page. */
  const SensitiveMarker := "https://pvvk.ru/veb"

  /** A reply whose lower-cased text contains this is followed by the guide invitation. */
  const GuideKeyword := "прочитать наш гайд"

  const VoiceApology := "Извините, мне сейчас неудобно слушать ваше сообщение в таком формате. Можете написать текстом?"
  const StickerApology := "Извините, мне сейчас неудобно обрабатывать стикеры. Можете написать текстом?"
  const ReminderText := "Хотелось бы задать вам буквально пару вопросов. Это не займет много времени\nБуду рада вашему ответу!"
  const GuideInvitationText :=
    "Конечно сложно уместить в гайд всю важность употребления качественной воды для нашего организма, "
    + "поэтому предлагаю посетить наш бесплатный вебинар, чтобы узнать больше информации о нашей компании, "
    + "а также об отличиях разных фильтров и принципов работы.\n\n"
    + "Подскажите, вам было бы интересно посетить наш вебинар?"

  /** The key `on_message` files a message under: the chat's username, or
      `"unknown_user"` when the chat has none (`None` or empty). */
  function SenderKey(chatUsername: Option<string>): (u: string)
    ensures chatUsername.Some? && chatUsername.value != "" ==> u == chatUsername.value
    ensures chatUsername.None? || chatUsername.value == "" ==> u == UnknownUser
  {
    if chatUsername.Some? && chatUsername.value != "" then chatUsername.value else UnknownUser
  }

  /** `template.replace('Script1name', client_name)`. */
  function Personalize(template: string, clientName: string): string {
    Text.ReplaceAll(template, Placeholder, clientName)
  }

  /** A template holding the placeholder greets the contact by name. */
  lemma PersonalizeNames(template: string, clientName: string)
    requires Text.Contains(template, Placeholder)
    ensures Text.Contains(Personalize(template, clientName), clientName)
  {
    Text.ReplaceAllInserts(template, Placeholder, clientName);
  }

  /** A template without the placeholder is sent as it is. */
  lemma PersonalizeFixed(template: string, clientName: string)
    requires !Text.Contains(template, Placeholder)
    ensures Personalize(template, clientName) == template
  {
    Text.ReplaceAllAbsent(template, Placeholder, clientName);
  }

  /** The fixed answer to a message kind the engine does not process. */
  function ApologyFor(kind: MessageKind): (r: string)
    requires !kind.TextMessage?
    ensures r == StickerApology <==> kind.Sticker?
    ensures r == VoiceApology <==> kind.Voice? || kind.VideoNote?
  {
    if kind.Sticker? then StickerApology else VoiceApology
  }

  /** Whether a reply is followed by the guide invitation. */
  predicate MentionsGuide(reply: string) {
    Text.Contains(Text.Lower(reply), GuideKeyword)
  }

  /** The keyword test already ignores case: a lower-cased reply mentions
      the guide exactly when the reply does. */
  lemma MentionsGuideLowered(reply: string)
    ensures MentionsGuide(Text.Lower(reply)) <==> MentionsGuide(reply)
  {
    Text.LowerIdempotent(reply);
  }

  /** A pending debounce task is the one `timers` holds for its user, and
      the ids in `timers` are taken. */
  ghost predicate DebounceValid(timers: map<string, nat>, pendingDebounce: set<Task>, nextTask: nat) {
    && (forall t :: t in pendingDebounce ==> t.user in timers && timers[t.user] == t.id)
    && (forall u :: u in timers ==> timers[u] < nextTask)
  }

  /** A reminder only sleeps for a user the stats table knows, under a taken id. */
  ghost predicate RemindersValid(pendingReminders: set<Task>, stats: map<string, SessionStats>, nextTask: nat) {
    forall t :: t in pendingReminders ==> t.user in stats && t.id < nextTask
  }

  /** No handler writes `message_count` back to the session table, and every
      entry is created with `initial_message_sent` set. */
  ghost predicate EntriesValid(stats: map<string, SessionStats>) {
    forall u :: u in stats ==> stats[u].messageCount == 0 && stats[u].initialMessageSent
  }

  /** No user is delivered two reminders. */
  ghost predicate RemindersUnique(outbox: seq<Outgoing>) {
    forall i, j :: 0 <= i < j < |outbox| && outbox[i].kind == Reminder && outbox[j].kind == Reminder
                   ==> outbox[i].to != outbox[j].to
  }

  /** Every delivered reminder went to a user whose `reminder_sent` flag is set. */
  ghost predicate RemindersFlagged(outbox: seq<Outgoing>, stats: map<string, SessionStats>) {
    forall i :: 0 <= i < |outbox| && outbox[i].kind == Reminder
                ==> outbox[i].to in stats && stats[outbox[i].to].reminderSent
  }

  /** Delivering anything but a reminder keeps the reminder invariants. */
  lemma OtherKeepsReminders(outbox: seq<Outgoing>, stats: map<string, SessionStats>, o: Outgoing)
    requires RemindersUnique(outbox) && RemindersFlagged(outbox, stats)
    requires o.kind != Reminder
    ensures RemindersUnique(outbox + [o]) && RemindersFlagged(outbox + [o], stats)
  {
  }

  /** Setting flags or adding entries keeps every delivered reminder flagged. */
  lemma FlagsKept(outbox: seq<Outgoing>, stats: map<string, SessionStats>, stats': map<string, SessionStats>)
    requires RemindersFlagged(outbox, stats)
    requires forall v :: v in stats ==> v in stats' && (stats[v].reminderSent ==> stats'[v].reminderSent)
    ensures RemindersFlagged(outbox, stats')
  {
  }

  /** The stats table once `start_timer` has made sure `u` has an entry; an
      existing entry is rebuilt from its own fields and so keeps its values. */
  function WithEntry(stats: map<string, SessionStats>, u: string): (s: map<string, SessionStats>)
    ensures u in s && s.Keys == stats.Keys + {u}
    ensures u in stats ==> s == stats
    ensures u !in stats ==> s[u] == FreshStats
    ensures forall v :: v in stats ==> s[v] == stats[v]
  {
    if u in stats then stats else stats[u := FreshStats]
  }

  /** The pending debounce tasks once `u`'s task, if any, is cancelled. */
  ghost function Cancelled(pending: set<Task>, u: string): set<Task> {
    set t | t in pending && t.user != u
  }

  /**
    The engine's in-memory state and its database connection.

    The source keeps two different `context` dictionaries: `main` passes a
    local one to `send_message`, `on_message` and `reminder_timer`, while
    `start_timer` reads a module-level one, so the stats entry that the flush
    reads and updates is not the one the other handlers see. This model keeps
    a single session table, `stats`, shared by all handlers.
   */
  class Engine {
    const db: Store.Database
    /** `prompt_template_1`: the system prompt placed before every history. */
    const prompt: seq<Completion.Msg>

    var stats: map<string, SessionStats>                 // context['stats']
    var histories: map<string, seq<Completion.Msg>>      // context[username]["messages"]
    var buffers: map<string, seq<Completion.Msg>>        // user_messages
    var timers: map<string, nat>                         // timers: the user's latest debounce task
    var pendingDebounce: set<Task>                       // debounce tasks still sleeping
    var pendingReminders: set<Task>                      // reminder tasks still sleeping
    var nextTask: nat                                    // the id of the next task created
    var outbox: seq<Outgoing>                            // messages delivered, in order

    /** The invariant every event keeps:
        - a pending debounce task is the one `timers` holds for its user, so
          each user has at most one pending debounce timer;
        - a reminder only sleeps for a user the stats table knows;
        - task ids below `nextTask` are taken;
        - no handler ever writes `message_count` back to the session table, and
          every entry is created with `initial_message_sent` set;
        - at most one reminder is ever delivered to a user, and only to a user
          whose `reminder_sent` flag is set. */
    ghost predicate Valid()
      reads this
    {
      && DebounceValid(timers, pendingDebounce, nextTask)
      && RemindersValid(pendingReminders, stats, nextTask)
      && EntriesValid(stats)
      && RemindersUnique(outbox)
      && RemindersFlagged(outbox, stats)
    }

    /** The buffer of `u` (`user_messages` is a `defaultdict(list)`). */
    function BufferOf(u: string): seq<Completion.Msg>
      reads this
    {
      if u in buffers then buffers[u] else []
    }

    /** The history of `u`, empty before the first flush. */
    ghost function HistoryOf(u: string): seq<Completion.Msg>
      reads this
    {
      if u in histories then histories[u] else []
    }

    constructor (db: Store.Database, prompt: seq<Completion.Msg>)
      ensures Valid()
      ensures this.db == db && this.prompt == prompt
      ensures stats == map[] && histories == map[] && buffers == map[] && timers == map[]
      ensures pendingDebounce == {} && pendingReminders == {} && nextTask == 0 && outbox == []
    {
      this.db := db;
      this.prompt := prompt;
      stats, histories, buffers, timers := map[], map[], map[], map[];
      pendingDebounce, pendingReminders, nextTask, outbox := {}, {}, 0, [];
    }

    /** `send_message`: registers the contact, sends the personalised
        greeting and, once it is delivered, records the send and starts the
        reminder timer. Every exception is caught: a failed delivery skips
        the rest, and so does a database failure other than `PostgresError`. */
    method SendInitial(username: string, clientName: string, template: string,
                       delivered: bool, dbOutcome: Store.WriteOutcome)
      requires Valid()
      modifies this, db
      ensures Valid()
      ensures stats == WithEntry(old(stats), username)
      ensures outbox == old(outbox)
                        + (if delivered then [Outgoing(username, Greeting, Personalize(template, clientName))] else [])
      ensures db.userStats == (if delivered && dbOutcome == Store.Committed
                               then Store.Upsert(old(db.userStats), username, Store.Snapshot(false, 1, false, true))
                               else old(db.userStats))
      ensures var armed := delivered && dbOutcome != Store.OtherFailure;
              && pendingReminders == old(pendingReminders) + (if armed then {Task(old(nextTask), username)} else {})
              && nextTask == old(nextTask) + (if armed then 1 else 0)
      ensures db.cursors == old(db.cursors)
      ensures histories == old(histories) && buffers == old(buffers)
      ensures timers == old(timers) && pendingDebounce == old(pendingDebounce)
    {
      if username !in stats {
        FlagsKept(outbox, stats, stats[username := FreshStats]);
        stats := stats[username := FreshStats];
      }
      var greeting := Personalize(template, clientName);
      if !delivered {
        return;
      }
      OtherKeepsReminders(outbox, stats, Outgoing(username, Greeting, greeting));
      outbox := outbox + [Outgoing(username, Greeting, greeting)];
      var raised := db.LogAndUpdateStats(username, Store.Snapshot(false, stats[username].messageCount + 1, false, true), dbOutcome);
      if raised {
        return;
      }
      pendingReminders := pendingReminders + {Task(nextTask, username)};
      nextTask := nextTask + 1;
    }

    /** The `on_message` handler. It marks the sender as having replied,
        cancels and forgets the sender's debounce timer, and records the
        reply; then a voice message, video note or sticker is answered with
        an apology and goes no further, while a text message is appended to
        the sender's buffer and re-arms the debounce timer. A database
        failure other than `PostgresError` ends the handler after the record
        step. The source reads the sender's stats entry without checking
        that it exists, hence the precondition. */
    method OnMessage(chatUsername: Option<string>, kind: MessageKind,
                     dbOutcome: Store.WriteOutcome, apologyDelivered: bool)
      requires Valid()
      requires SenderKey(chatUsername) in stats
      modifies this, db
      ensures Valid()
      ensures var u := SenderKey(chatUsername);
              && stats == old(stats)[u := old(stats)[u].(userReplied := true)]
              && db.userStats == (if dbOutcome == Store.Committed
                                  then Store.Upsert(old(db.userStats), u, Store.Snapshot(true, 1, false, true))
                                  else old(db.userStats))
      ensures var u := SenderKey(chatUsername);
              dbOutcome == Store.OtherFailure || !kind.TextMessage? ==>
                && timers == old(timers) - {u}
                && pendingDebounce == Cancelled(old(pendingDebounce), u)
                && buffers == old(buffers)
                && nextTask == old(nextTask)
                && outbox == old(outbox)
                             + (if dbOutcome != Store.OtherFailure && apologyDelivered
                                then [Outgoing(u, Apology, ApologyFor(kind))] else [])
      ensures var u := SenderKey(chatUsername);
              dbOutcome != Store.OtherFailure && kind.TextMessage? ==>
                && buffers == old(buffers)[u := old(BufferOf(u)) + [Completion.Msg(UserRole, kind.text)]]
                && timers == old(timers)[u := old(nextTask)]
                && pendingDebounce == Cancelled(old(pendingDebounce), u) + {Task(old(nextTask), u)}
                && nextTask == old(nextTask) + 1
                && outbox == old(outbox)
      ensures histories == old(histories) && pendingReminders == old(pendingReminders)
      ensures db.cursors == old(db.cursors)
    {
      var u := SenderKey(chatUsername);
      ghost var before := stats;
      stats := stats[u := stats[u].(userReplied := true)];
      FlagsKept(outbox, before, stats);
      CancelDebounce(u);
      var raised := db.LogAndUpdateStats(u, Store.Snapshot(true, stats[u].messageCount + 1, false, stats[u].initialMessageSent), dbOutcome);
      if raised {
        return;
      }
      if !kind.TextMessage? {
        if apologyDelivered {
          OtherKeepsReminders(outbox, stats, Outgoing(u, Apology, ApologyFor(kind)));
          outbox := outbox + [Outgoing(u, Apology, ApologyFor(kind))];
        }
        return;
      }
      buffers := buffers[u := BufferOf(u) + [Completion.Msg(UserRole, kind.text)]];
      ResetTimer(u);
    }

    /** `timers[username].cancel()` followed by `del timers[username]`, when
        the user has an entry. Only a task that is still sleeping is
        cancelled here: a flush runs to its end in one event, so the
        cancellation of a flush that is awaiting the completion service or
        a send is not modelled. */
    method CancelDebounce(u: string)
      requires Valid()
      modifies this
      ensures Valid()
      ensures timers == old(timers) - {u}
      ensures pendingDebounce == Cancelled(old(pendingDebounce), u)
      ensures stats == old(stats) && histories == old(histories) && buffers == old(buffers)
      ensures pendingReminders == old(pendingReminders) && nextTask == old(nextTask) && outbox == old(outbox)
    {
      if u in timers {
        assert pendingDebounce - {Task(timers[u], u)} == Cancelled(pendingDebounce, u);
        pendingDebounce := pendingDebounce - {Task(timers[u], u)};
        timers := timers - {u};
      } else {
        assert pendingDebounce == Cancelled(pendingDebounce, u);
      }
    }

    /** `reset_timer`: cancels the user's current debounce task, if any, and
        stores a fresh one in its place, so that only the newest timer can fire. */
    method ResetTimer(u: string)
      requires Valid()
      modifies this
      ensures Valid()
      ensures timers == old(timers)[u := old(nextTask)]
      ensures pendingDebounce == Cancelled(old(pendingDebounce), u) + {Task(old(nextTask), u)}
      ensures nextTask == old(nextTask) + 1
      ensures stats == old(stats) && histories == old(histories) && buffers == old(buffers)
      ensures pendingReminders == old(pendingReminders) && outbox == old(outbox)
    {
      if u in timers {
        assert pendingDebounce - {Task(timers[u], u)} == Cancelled(pendingDebounce, u);
        pendingDebounce := pendingDebounce - {Task(timers[u], u)};
      } else {
        assert pendingDebounce == Cancelled(pendingDebounce, u);
      }
      timers := timers[u := nextTask];
      pendingDebounce := pendingDebounce + {Task(nextTask, u)};
      nextTask := nextTask + 1;
    }

    /** The body of `start_timer` after its sleep: the user's pending debounce
        task fires, the user gets a stats entry if it had none, and a
        non-empty buffer is flushed (`Flush`). An empty buffer issues no
        request. */
    method DebounceFired(u: string, service: (seq<Completion.Msg>, nat) -> Completion.Outcome,
                         replyDelivered: bool, dbOutcome: Store.WriteOutcome, invitationDelivered: bool)
      requires Valid()
      requires u in timers && Task(timers[u], u) in pendingDebounce
      modifies this, db
      ensures Valid()
      ensures pendingDebounce == old(pendingDebounce) - {Task(old(timers)[u], u)}
      ensures timers == old(timers) && pendingReminders == old(pendingReminders) && nextTask == old(nextTask)
      ensures db.cursors == old(db.cursors)
      ensures old(BufferOf(u)) == [] ==>
                && stats == WithEntry(old(stats), u)
                && histories == old(histories) && buffers == old(buffers)
                && outbox == old(outbox) && db.userStats == old(db.userStats)
      ensures old(BufferOf(u)) != [] ==>
                var history := old(HistoryOf(u)) + old(BufferOf(u));
                var reply := Completion.Attempts(prompt + history, Completion.DefaultMaxRetries, service, 0).text;
                var sent := reply != [] && replyDelivered;
                var proceeds := reply == [] || replyDelivered;
                var sensitive := Text.Contains(reply, SensitiveMarker);
                && buffers == old(buffers)[u := []]
                && histories == old(histories)[u := if sent then history + [Completion.Msg(AssistantRole, reply)] else history]
                && stats == (if proceeds then WithEntry(old(stats), u)[u := FreshOr(old(stats), u).(sensitiveInfoSent := sensitive)]
                             else WithEntry(old(stats), u))
                && db.userStats == (if proceeds && dbOutcome == Store.Committed
                                    then Store.Upsert(old(db.userStats), u, Store.Snapshot(true, 1, sensitive, true))
                                    else old(db.userStats))
                && outbox == old(outbox)
                             + (if sent then [Outgoing(u, Reply, reply)] else [])
                             + (if proceeds && dbOutcome != Store.OtherFailure && MentionsGuide(reply) && invitationDelivered
                                then [Outgoing(u, GuideInvitation, GuideInvitationText)] else [])
    {
      pendingDebounce := pendingDebounce - {Task(timers[u], u)};
      stats := WithEntry(stats, u);
      if u in buffers && buffers[u] != [] {
        Flush(u, service, replyDelivered, dbOutcome, invitationDelivered);
      }
    }

    /** The flush of a non-empty buffer: its messages are moved, in order, to
        the end of the history and the buffer is emptied; the history is sent
        to the completion service; and the reply is handled by `Respond`. */
    method Flush(u: string, service: (seq<Completion.Msg>, nat) -> Completion.Outcome,
                 replyDelivered: bool, dbOutcome: Store.WriteOutcome, invitationDelivered: bool)
      requires Valid()
      requires u in stats && BufferOf(u) != []
      modifies this, db
      ensures Valid()
      ensures var history := old(HistoryOf(u)) + old(BufferOf(u));
              var reply := Completion.Attempts(prompt + history, Completion.DefaultMaxRetries, service, 0).text;
              var sent := reply != [] && replyDelivered;
              var proceeds := reply == [] || replyDelivered;
              var sensitive := Text.Contains(reply, SensitiveMarker);
              && histories == old(histories)[u := if sent then history + [Completion.Msg(AssistantRole, reply)] else history]
              && stats == (if proceeds then old(stats)[u := old(stats)[u].(sensitiveInfoSent := sensitive)] else old(stats))
              && db.userStats == (if proceeds && dbOutcome == Store.Committed
                                  then Store.Upsert(old(db.userStats), u, Store.Snapshot(true, 1, sensitive, true))
                                  else old(db.userStats))
              && outbox == old(outbox)
                           + (if sent then [Outgoing(u, Reply, reply)] else [])
                           + (if proceeds && dbOutcome != Store.OtherFailure && MentionsGuide(reply) && invitationDelivered
                              then [Outgoing(u, GuideInvitation, GuideInvitationText)] else [])
      ensures buffers == old(buffers)[u := []]
      ensures pendingDebounce == old(pendingDebounce) && timers == old(timers)
      ensures pendingReminders == old(pendingReminders) && nextTask == old(nextTask)
      ensures db.cursors == old(db.cursors)
    {
      var history := (if u in histories then histories[u] else []) + buffers[u];
      histories := histories[u := history];
      buffers := buffers[u := []];
      var reply, _ := Completion.GetAnswer(prompt, history, Completion.DefaultMaxRetries, service);
      Respond(u, history, reply, replyDelivered, dbOutcome, invitationDelivered);
    }

    /** What the flush does with the completion's reply: a non-empty reply is
        delivered and appended to the history as an assistant turn, and the
        flush ends with `Record`. A failed delivery of the reply ends the
        flush at that point. `history` is what was sent; it becomes `u`'s
        history. */
    method Respond(u: string, history: seq<Completion.Msg>, reply: string,
                   replyDelivered: bool, dbOutcome: Store.WriteOutcome, invitationDelivered: bool)
      requires Valid()
      requires u in stats
      modifies this, db
      ensures Valid()
      ensures var sent := reply != [] && replyDelivered;
              var proceeds := reply == [] || replyDelivered;
              var sensitive := Text.Contains(reply, SensitiveMarker);
              && histories == old(histories)[u := if sent then history + [Completion.Msg(AssistantRole, reply)] else history]
              && stats == (if proceeds then old(stats)[u := old(stats)[u].(sensitiveInfoSent := sensitive)] else old(stats))
              && db.userStats == (if proceeds && dbOutcome == Store.Committed
                                  then Store.Upsert(old(db.userStats), u, Store.Snapshot(true, 1, sensitive, true))
                                  else old(db.userStats))
              && outbox == old(outbox)
                           + (if sent then [Outgoing(u, Reply, reply)] else [])
                           + (if proceeds && dbOutcome != Store.OtherFailure && MentionsGuide(reply) && invitationDelivered
                              then [Outgoing(u, GuideInvitation, GuideInvitationText)] else [])
      ensures buffers == old(buffers) && pendingDebounce == old(pendingDebounce) && timers == old(timers)
      ensures pendingReminders == old(pendingReminders) && nextTask == old(nextTask)
      ensures db.cursors == old(db.cursors)
    {
      histories := histories[u := history];
      if reply != [] {
        if !replyDelivered {
          return;
        }
        OtherKeepsReminders(outbox, stats, Outgoing(u, Reply, reply));
        outbox := outbox + [Outgoing(u, Reply, reply)];
        histories := histories[u := history + [Completion.Msg(AssistantRole, reply)]];
      }
      Record(u, reply, dbOutcome, invitationDelivered);
    }

    /** The end of the flush once the reply, if any, is delivered: the stats
        entry records whether the reply carries the webinar link, the
        database row is written, and unless that raised an error other than
        `PostgresError`, a reply that mentions the guide is followed by the
        invitation. */
    method Record(u: string, reply: string, dbOutcome: Store.WriteOutcome, invitationDelivered: bool)
      requires Valid()
      requires u in stats
      modifies this, db
      ensures Valid()
      ensures var sensitive := Text.Contains(reply, SensitiveMarker);
              && stats == old(stats)[u := old(stats)[u].(sensitiveInfoSent := sensitive)]
              && db.userStats == (if dbOutcome == Store.Committed
                                  then Store.Upsert(old(db.userStats), u, Store.Snapshot(true, 1, sensitive, true))
                                  else old(db.userStats))
              && outbox == old(outbox)
                           + (if dbOutcome != Store.OtherFailure && MentionsGuide(reply) && invitationDelivered
                              then [Outgoing(u, GuideInvitation, GuideInvitationText)] else [])
      ensures histories == old(histories) && buffers == old(buffers)
      ensures pendingDebounce == old(pendingDebounce) && timers == old(timers)
      ensures pendingReminders == old(pendingReminders) && nextTask == old(nextTask)
      ensures db.cursors == old(db.cursors)
    {
      var sensitive := Text.Contains(reply, SensitiveMarker);
      ghost var before := stats;
      stats := stats[u := stats[u].(sensitiveInfoSent := sensitive)];
      FlagsKept(outbox, before, stats);
      var raised := db.LogAndUpdateStats(u, Store.Snapshot(true, stats[u].messageCount + 1, sensitive, stats[u].initialMessageSent), dbOutcome);
      if raised {
        return;
      }
      if MentionsGuide(reply) && invitationDelivered {
        OtherKeepsReminders(outbox, stats, Outgoing(u, GuideInvitation, GuideInvitationText));
        outbox := outbox + [Outgoing(u, GuideInvitation, GuideInvitationText)];
      }
    }

    /** The body of `reminder_timer` after its sleep: the reminder is sent
        only when the contact has neither replied nor already been reminded,
        and once delivered sets `reminder_sent` and writes the database row.
        A failed delivery ends the task with the flag unset. */
    method ReminderFired(t: Task, delivered: bool, dbOutcome: Store.WriteOutcome)
      requires Valid()
      requires t in pendingReminders
      modifies this, db
      ensures Valid()
      ensures pendingReminders == old(pendingReminders) - {t}
      ensures var s := old(stats)[t.user];
              var fires := !s.userReplied && !s.reminderSent && delivered;
              && outbox == old(outbox) + (if fires then [Outgoing(t.user, Reminder, ReminderText)] else [])
              && stats == (if fires then old(stats)[t.user := s.(reminderSent := true)] else old(stats))
              && db.userStats == (if fires && dbOutcome == Store.Committed
                                  then Store.Upsert(old(db.userStats), t.user, Store.Snapshot(false, 0, false, true))
                                  else old(db.userStats))
      ensures old(stats)[t.user].userReplied ==> outbox == old(outbox)
      ensures histories == old(histories) && buffers == old(buffers) && timers == old(timers)
      ensures pendingDebounce == old(pendingDebounce) && nextTask == old(nextTask)
      ensures db.cursors == old(db.cursors)
    {
      pendingReminders := pendingReminders - {t};
      var s := stats[t.user];
      if !s.userReplied && !s.reminderSent {
        if !delivered {
          return;
        }
        var o := Outgoing(t.user, Reminder, ReminderText);
        outbox := outbox + [o];
        stats := stats[t.user := s.(reminderSent := true)];
        var _ := db.LogAndUpdateStats(t.user, Store.Snapshot(false, s.messageCount, false, s.initialMessageSent), dbOutcome);
      }
    }
  }

  /** The stats entry of `u` once `start_timer` has made sure there is one. */
  function FreshOr(stats: map<string, SessionStats>, u: string): SessionStats {
    if u in stats then stats[u] else FreshStats
  }
}
