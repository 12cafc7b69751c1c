/**
  The outreach pacer: the `while True` loop of `main`. Below the daily quota
  it reads the campaign cursor, looks up the contact at that position and,
  when there is one, greets it and writes the following position back as
  the cursor; once the quota is used up it waits for the next day and
  resets its counter. The loop ends when the feed has no usable contact,
  or with the `IndexError` a lookup can raise.

  The control flow does not depend on whether a greeting is delivered or
  recorded (`send_message` catches every exception), so the sequence of
  steps is a function of the feed and the initial cursor, `Plan`, which
  `RunCampaign` is proved to follow.
 */
module Pacer {
  import Store
  import Feed
  import Conversation

  /** `max_users_per_day`. */
  const MaxUsersPerDay := 4

  /** One pass of the loop that did not end it: a contact was greeted, the
      cursor was set to `cursor`, the counter became `processed`, and the
      hour's pause followed exactly when `cooledDown` holds; or the quota
      was used up and the loop waited for the next day. */
  datatype Action =
    | Contacted(username: string, name: string, cursor: int, processed: nat, cooledDown: bool)
    | QuotaWaited

  /** How the loop ended: the feed had no usable contact at `cursor` (the
      `break`), or the lookup at `cursor` raised `IndexError`, which leaves
      `main` through its `finally`. */
  datatype End = OutOfContacts(cursor: int) | Crashed(cursor: int)

  /** The passes of the loop and how it ended. */
  datatype Run = Run(actions: seq<Action>, end: End)

  function Prepend(a: Action, r: Run): Run {
    Run([a] + r.actions, r.end)
  }

  /** The passes `done` followed by the run `r`. */
  function Continue(done: seq<Action>, r: Run): Run {
    Run(done + r.actions, r.end)
  }

  lemma ContinuePrepend(done: seq<Action>, a: Action, r: Run)
    ensures Continue(done, Prepend(a, r)) == Continue(done + [a], r)
  {
    assert done + ([a] + r.actions) == (done + [a]) + r.actions;
  }

  /** The contacts left before the cursor reaches the end of the username column. */
  function Remaining(usernames: seq<string>, cursor: int): nat {
    if cursor < |usernames| then |usernames| - cursor else 0
  }

  /** What one pass of the loop does: it carries on with `action`, or it
      ends the loop. */
  datatype Pass = Continued(action: Action) | Stopped(end: End)

  /** The pass made at cursor `cursor` with counter `processed`. Below the
      quota it greets the contact the lookup finds there when that contact
      has a username and a name, moving the cursor one position on; a lookup
      that is exhausted or finds an empty username or name ends the loop,
      and so does an `IndexError`. At the quota it waits for the next day. */
  function NextPass(usernames: seq<string>, names: seq<string>, cursor: int, processed: nat): (p: Pass)
    requires processed <= MaxUsersPerDay
    ensures p.Continued? && p.action.Contacted? ==> cursor < |usernames|
    ensures p == Continued(QuotaWaited) <==> processed == MaxUsersPerDay
  {
    if processed < MaxUsersPerDay then
      match Feed.LoadSingle(usernames, names, cursor)
      case Found(username, name, next) =>
        if username != "" && name != "" then
          Continued(Contacted(username, name, next, processed + 1, processed + 1 < MaxUsersPerDay))
        else Stopped(OutOfContacts(cursor))
      case Exhausted(_) => Stopped(OutOfContacts(cursor))
      case IndexError => Stopped(Crashed(cursor))
    else
      Continued(QuotaWaited)
  }

  /** The cases of a pass: at the quota it waits for the next day; below
      it, it carries on exactly with a greeting of the contact the lookup
      finds at the cursor, which has a non-empty username and name, writing
      the following position and counting one more contact; otherwise it
      stops at the cursor, as a crash exactly when the lookup raises
      `IndexError`, and else because the feed is exhausted there or has an
      empty username or name there. */
  lemma NextPassCases(usernames: seq<string>, names: seq<string>, cursor: int, processed: nat)
    requires processed <= MaxUsersPerDay
    ensures var p := NextPass(usernames, names, cursor, processed);
            && (processed == MaxUsersPerDay ==> p == Continued(QuotaWaited))
            && (processed < MaxUsersPerDay && p.Continued? ==>
                  && p.action.Contacted?
                  && Feed.LoadSingle(usernames, names, cursor) == Feed.Found(p.action.username, p.action.name, cursor + 1)
                  && p.action.username != "" && p.action.name != ""
                  && p.action == Contacted(p.action.username, p.action.name, cursor + 1, processed + 1,
                                           processed + 1 < MaxUsersPerDay))
            && (processed < MaxUsersPerDay && p.Stopped? ==>
                  var l := Feed.LoadSingle(usernames, names, cursor);
                  && p.end.cursor == cursor
                  && (p.end.Crashed? <==> l.IndexError?)
                  && (p.end.OutOfContacts? ==> l.Exhausted? || (l.Found? && (l.username == "" || l.name == ""))))
  {
  }

  /** The cursor after a pass that carried on. */
  function CursorAfter(cursor: int, a: Action): int {
    if a.Contacted? then cursor + 1 else cursor
  }

  /** `users_processed` after a pass that carried on: one more after a
      greeting, 0 after the wait for the next day. */
  function CounterAfter(processed: nat, a: Action): nat {
    if a.Contacted? then processed + 1 else 0
  }

  /** The loop from cursor `cursor` with counter `processed`. */
  function Plan(usernames: seq<string>, names: seq<string>, cursor: int, processed: nat): Run
    requires processed <= MaxUsersPerDay
    decreases Remaining(usernames, cursor), if processed < MaxUsersPerDay then 0 else 1
  {
    match NextPass(usernames, names, cursor, processed)
    case Continued(a) =>
      Prepend(a, Plan(usernames, names, CursorAfter(cursor, a), CounterAfter(processed, a)))
    case Stopped(e) => Run([], e)
  }

  /** `users_processed` after the passes `actions`, starting from `processed`. */
  function Counter(processed: nat, actions: seq<Action>): nat
    decreases |actions|
  {
    if actions == [] then processed else Counter(CounterAfter(processed, actions[0]), actions[1..])
  }

  /** The number of contacts greeted in `actions`. */
  function Contacts(actions: seq<Action>): nat {
    if actions == [] then 0 else (if actions[0].Contacted? then 1 else 0) + Contacts(actions[1..])
  }

  lemma ContactsAppend(actions: seq<Action>, a: Action)
    ensures Contacts(actions + [a]) == Contacts(actions) + (if a.Contacted? then 1 else 0)
  {
    if actions != [] {
      assert (actions + [a])[1..] == actions[1..] + [a];
      ContactsAppend(actions[1..], a);
    }
  }

  /** The counter and the contact count over a prefix of `[a] + rest`. */
  lemma PrefixCons(processed: nat, a: Action, rest: seq<Action>, i: nat)
    requires 0 < i <= |rest| + 1
    ensures ([a] + rest)[..i] == [a] + rest[..i - 1]
    ensures Counter(processed, ([a] + rest)[..i]) == Counter(CounterAfter(processed, a), rest[..i - 1])
    ensures Contacts(([a] + rest)[..i]) == (if a.Contacted? then 1 else 0) + Contacts(rest[..i - 1])
  {
    assert ([a] + rest)[..i] == [a] + rest[..i - 1];
    assert ([a] + rest[..i - 1])[1..] == rest[..i - 1];
  }

  lemma ContactsCons(a: Action, rest: seq<Action>)
    ensures Contacts([a] + rest) == (if a.Contacted? then 1 else 0) + Contacts(rest)
  {
    assert ([a] + rest)[1..] == rest;
  }

  /** Pass `i` of `actions`, started with counter `processed`, keeps the
      quota: the counter before it is at most `max_users_per_day`, the pass
      waits for the next day exactly when the counter has reached the quota,
      and a greeting raises the counter by one and is followed by the
      hour's pause exactly when the new counter is below the quota. */
  ghost predicate QuotaKept(processed: nat, actions: seq<Action>, i: nat)
    requires i < |actions|
  {
    var before := Counter(processed, actions[..i]);
    && before <= MaxUsersPerDay
    && (actions[i].QuotaWaited? <==> before == MaxUsersPerDay)
    && (actions[i].Contacted? ==> actions[i].processed == before + 1
                                  && actions[i].cooledDown == (actions[i].processed < MaxUsersPerDay))
  }

  /** Pass `i` of `actions`, started at cursor `start`, when it is a
      greeting, greets the contact the lookup finds at `start` plus the
      number of contacts greeted before it, with a non-empty username and
      name, and writes that position plus one as the cursor. */
  ghost predicate CursorKept(usernames: seq<string>, names: seq<string>, start: int, actions: seq<Action>, i: nat)
    requires i < |actions|
  {
    var at := start + Contacts(actions[..i]);
    actions[i].Contacted? ==>
      && Feed.LoadSingle(usernames, names, at) == Feed.Found(actions[i].username, actions[i].name, at + 1)
      && actions[i].username != "" && actions[i].name != ""
      && actions[i].cursor == at + 1
  }

  /** The quota counter: it goes up by exactly one per greeted contact and
      never exceeds `max_users_per_day`; the loop waits for the next day
      exactly when it has reached the quota, and only that wait resets it;
      the pause between contacts happens only while it is below the quota. */
  lemma {:induction false} PlanCounter(usernames: seq<string>, names: seq<string>, cursor: int, processed: nat)
    requires processed <= MaxUsersPerDay
    ensures forall i :: 0 <= i < |Plan(usernames, names, cursor, processed).actions| ==>
              QuotaKept(processed, Plan(usernames, names, cursor, processed).actions, i)
    decreases Remaining(usernames, cursor), if processed < MaxUsersPerDay then 0 else 1
  {
    var a := Plan(usernames, names, cursor, processed).actions;
    var p := NextPass(usernames, names, cursor, processed);
    NextPassCases(usernames, names, cursor, processed);
    if p.Continued? {
      var cursor', processed' := CursorAfter(cursor, p.action), CounterAfter(processed, p.action);
      var rest := Plan(usernames, names, cursor', processed').actions;
      assert a == [p.action] + rest;
      PlanCounter(usernames, names, cursor', processed');
      forall i | 0 <= i < |a|
        ensures QuotaKept(processed, a, i)
      {
        if i == 0 {
          assert a[..i] == [];
        } else {
          PrefixCons(processed, p.action, rest, i);
          assert QuotaKept(processed', rest, i - 1);
        }
      }
    }
  }

  /** The cursor: each greeted contact is the one the lookup finds at the
      initial cursor plus the number of contacts greeted before it, with a
      non-empty username and name, and the cursor is then written as that
      position plus one, whether or not the greeting was delivered. */
  lemma {:induction false} PlanCursor(usernames: seq<string>, names: seq<string>, cursor: int, processed: nat)
    requires processed <= MaxUsersPerDay
    ensures forall i :: 0 <= i < |Plan(usernames, names, cursor, processed).actions| ==>
              CursorKept(usernames, names, cursor, Plan(usernames, names, cursor, processed).actions, i)
    decreases Remaining(usernames, cursor), if processed < MaxUsersPerDay then 0 else 1
  {
    var a := Plan(usernames, names, cursor, processed).actions;
    var p := NextPass(usernames, names, cursor, processed);
    NextPassCases(usernames, names, cursor, processed);
    if p.Continued? {
      var cursor', processed' := CursorAfter(cursor, p.action), CounterAfter(processed, p.action);
      var rest := Plan(usernames, names, cursor', processed').actions;
      assert a == [p.action] + rest;
      PlanCursor(usernames, names, cursor', processed');
      forall i | 0 <= i < |a|
        ensures CursorKept(usernames, names, cursor, a, i)
      {
        if i == 0 {
          assert a[..i] == [];
        } else {
          PrefixCons(processed, p.action, rest, i);
          assert CursorKept(usernames, names, cursor', rest, i - 1);
        }
      }
    }
  }

  /** The loop ends at the position after the last contact: with
      `IndexError` exactly when the lookup there raises it, and otherwise
      because the feed is exhausted there or has an empty username or name
      there. */
  lemma {:induction false} PlanEnd(usernames: seq<string>, names: seq<string>, cursor: int, processed: nat)
    requires processed <= MaxUsersPerDay
    ensures var r := Plan(usernames, names, cursor, processed);
            var l := Feed.LoadSingle(usernames, names, r.end.cursor);
            && r.end.cursor == cursor + Contacts(r.actions)
            && (r.end.Crashed? <==> l.IndexError?)
            && (r.end.OutOfContacts? ==> l.Exhausted? || (l.Found? && (l.username == "" || l.name == "")))
    decreases Remaining(usernames, cursor), if processed < MaxUsersPerDay then 0 else 1
  {
    var p := NextPass(usernames, names, cursor, processed);
    NextPassCases(usernames, names, cursor, processed);
    if p.Continued? {
      var cursor', processed' := CursorAfter(cursor, p.action), CounterAfter(processed, p.action);
      PlanEnd(usernames, names, cursor', processed');
      ContactsCons(p.action, Plan(usernames, names, cursor', processed').actions);
    }
  }

  /** The passes `done`, made from cursor `start` with a fresh counter,
      follow `Plan`, and leave the cursor at `cursor` and the counter at
      `processed`. */
  ghost predicate Following(usernames: seq<string>, names: seq<string>, start: int, done: seq<Action>,
                            cursor: int, processed: nat)
  {
    && processed <= MaxUsersPerDay
    && cursor == start + Contacts(done)
    && Continue(done, Plan(usernames, names, cursor, processed)) == Plan(usernames, names, start, 0)
  }

  /** One more pass keeps the passes on the plan, and a pass that stops
      ends the plan. */
  lemma FollowStep(usernames: seq<string>, names: seq<string>, start: int, done: seq<Action>,
                   cursor: int, processed: nat, pass: Pass)
    requires Following(usernames, names, start, done, cursor, processed)
    requires pass == NextPass(usernames, names, cursor, processed)
    ensures pass.Continued? ==>
              && (pass.action.Contacted? <==> processed < MaxUsersPerDay)
              && Following(usernames, names, start, done + [pass.action], CursorAfter(cursor, pass.action), CounterAfter(processed, pass.action))
    ensures pass.Stopped? ==> Run(done, pass.end) == Plan(usernames, names, start, 0) && pass.end.cursor == cursor
  {
    NextPassCases(usernames, names, cursor, processed);
    if pass.Continued? {
      ContinuePrepend(done, pass.action, Plan(usernames, names, CursorAfter(cursor, pass.action), CounterAfter(processed, pass.action)));
      ContactsAppend(done, pass.action);
    } else {
      assert done + [] == done;
    }
  }

  /** The greeting a pass delivers: the template personalised with the
      contact's name, when the pass greeted a contact and the send was
      delivered. */
  function GreetingOf(a: Action, template: string, delivered: bool): (g: seq<Conversation.Outgoing>)
    ensures |g| <= 1
    ensures g != [] <==> a.Contacted? && delivered
    ensures g != [] ==> g[0].to == a.username && g[0].kind == Conversation.Greeting
  {
    if a.Contacted? && delivered
    then [Conversation.Outgoing(a.username, Conversation.Greeting, Conversation.Personalize(template, a.name))]
    else []
  }

  /** The `user_stats` table after a pass: a delivered greeting whose
      statement commits upserts the contact's row. */
  function RecordOf(table: map<string, Store.StatsRow>, a: Action, delivered: bool, dbOutcome: Store.WriteOutcome)
    : map<string, Store.StatsRow>
  {
    if a.Contacted? && delivered && dbOutcome == Store.Committed
    then Store.Upsert(table, a.username, Store.Snapshot(false, 1, false, true))
    else table
  }

  /** The greetings delivered by the passes `actions`, pass `k` using the
      template `greeting(k)` and the delivery outcome `delivered(k)`. */
  function Greetings(actions: seq<Action>, greeting: nat -> string, delivered: nat -> bool): seq<Conversation.Outgoing>
  {
    if actions == [] then []
    else
      var n := |actions| - 1;
      Greetings(actions[..n], greeting, delivered) + GreetingOf(actions[n], greeting(n), delivered(n))
  }

  /** The `user_stats` table after the passes `actions`. */
  function Recorded(table: map<string, Store.StatsRow>, actions: seq<Action>, delivered: nat -> bool,
                    dbOutcome: nat -> Store.WriteOutcome): map<string, Store.StatsRow>
  {
    if actions == [] then table
    else
      var n := |actions| - 1;
      RecordOf(Recorded(table, actions[..n], delivered, dbOutcome), actions[n], delivered(n), dbOutcome(n))
  }

  /** The outbox and the `user_stats` table account for the passes `done`
      made since they were `outbox0` and `table0`. */
  ghost predicate Accounted(outbox0: seq<Conversation.Outgoing>, outbox: seq<Conversation.Outgoing>,
                            table0: map<string, Store.StatsRow>, table: map<string, Store.StatsRow>,
                            done: seq<Action>, greeting: nat -> string, delivered: nat -> bool,
                            dbOutcome: nat -> Store.WriteOutcome)
  {
    && outbox == outbox0 + Greetings(done, greeting, delivered)
    && table == Recorded(table0, done, delivered, dbOutcome)
  }

  /** One more pass, numbered `|done|`, keeps the outbox and the table accounted for. */
  lemma AccountStep(outbox0: seq<Conversation.Outgoing>, outbox: seq<Conversation.Outgoing>, outbox': seq<Conversation.Outgoing>,
                    table0: map<string, Store.StatsRow>, table: map<string, Store.StatsRow>, table': map<string, Store.StatsRow>,
                    done: seq<Action>, a: Action, greeting: nat -> string, delivered: nat -> bool,
                    dbOutcome: nat -> Store.WriteOutcome)
    requires Accounted(outbox0, outbox, table0, table, done, greeting, delivered, dbOutcome)
    requires outbox' == outbox + GreetingOf(a, greeting(|done|), delivered(|done|))
    requires table' == RecordOf(table, a, delivered(|done|), dbOutcome(|done|))
    ensures Accounted(outbox0, outbox', table0, table', done + [a], greeting, delivered, dbOutcome)
  {
    assert (done + [a])[..|done|] == done;
    assert outbox' == outbox0 + (Greetings(done, greeting, delivered) + GreetingOf(a, greeting(|done|), delivered(|done|)));
  }

  /** Only a delivered greeting of a contact adds to the outbox: the run
      delivers at most one greeting per contact it made, each to that
      contact. */
  lemma {:induction false} GreetingsOfContacts(actions: seq<Action>, greeting: nat -> string, delivered: nat -> bool)
    ensures |Greetings(actions, greeting, delivered)| <= Contacts(actions)
    ensures forall o :: o in Greetings(actions, greeting, delivered) ==>
              o.kind == Conversation.Greeting && exists i :: 0 <= i < |actions| && actions[i].Contacted? && actions[i].username == o.to
    decreases |actions|
  {
    if actions != [] {
      var n := |actions| - 1;
      GreetingsOfContacts(actions[..n], greeting, delivered);
      assert actions == actions[..n] + [actions[n]];
      ContactsAppend(actions[..n], actions[n]);
      forall o | o in Greetings(actions, greeting, delivered)
        ensures o.kind == Conversation.Greeting && exists i :: 0 <= i < |actions| && actions[i].Contacted? && actions[i].username == o.to
      {
        if o in Greetings(actions[..n], greeting, delivered) {
          var i :| 0 <= i < n && actions[..n][i].Contacted? && actions[..n][i].username == o.to;
          assert actions[i] == actions[..n][i];
        } else {
          assert actions[n].Contacted? && actions[n].username == o.to;
        }
      }
    }
  }

  /** One pass of the loop below the quota: read the cursor, look up the
      contact there and, when it has a username and a name, greet it
      (`send_message` with the given greeting template and oracle outcomes),
      write the following position back as the cursor and count the contact.
      Any other lookup result ends the loop and leaves the cursor where it
      was (reading it stores 0 for a campaign that has no row yet). */
  method ContactNext(engine: Conversation.Engine, campaign: string, usernames: seq<string>, names: seq<string>,
                     processed: nat, greeting: string, delivered: bool, dbOutcome: Store.WriteOutcome)
    returns (pass: Pass)
    requires engine.Valid()
    requires processed < MaxUsersPerDay
    modifies engine, engine.db
    ensures engine.Valid()
    ensures var cursor := Store.CursorOf(old(engine.db.cursors), campaign);
            && pass == NextPass(usernames, names, cursor, processed)
            && engine.db.cursors == old(engine.db.cursors)[campaign := if pass.Continued? then cursor + 1 else cursor]
    ensures pass.Continued? ==>
              && pass.action.Contacted?
              && engine.stats == Conversation.WithEntry(old(engine.stats), pass.action.username)
              && engine.outbox == old(engine.outbox) + GreetingOf(pass.action, greeting, delivered)
              && engine.db.userStats == RecordOf(old(engine.db.userStats), pass.action, delivered, dbOutcome)
              && var armed := delivered && dbOutcome != Store.OtherFailure;
                 && engine.pendingReminders == old(engine.pendingReminders)
                                               + (if armed then {Conversation.Task(old(engine.nextTask), pass.action.username)} else {})
                 && engine.nextTask == old(engine.nextTask) + (if armed then 1 else 0)
    ensures pass.Stopped? ==>
              && engine.stats == old(engine.stats) && engine.outbox == old(engine.outbox)
              && engine.db.userStats == old(engine.db.userStats)
              && engine.pendingReminders == old(engine.pendingReminders) && engine.nextTask == old(engine.nextTask)
    ensures engine.histories == old(engine.histories) && engine.buffers == old(engine.buffers)
    ensures engine.timers == old(engine.timers) && engine.pendingDebounce == old(engine.pendingDebounce)
  {
    var db := engine.db;
    Store.ReadStores(db.cursors, campaign);
    Store.ReadThenUpdate(db.cursors, campaign, Store.CursorOf(db.cursors, campaign) + 1);
    var startIndex := db.GetCurrentIndex(campaign);
    match Feed.LoadSingle(usernames, names, startIndex)
    case Found(username, clientName, nextIndex) =>
      if username != "" && clientName != "" {
        engine.SendInitial(username, clientName, greeting, delivered, dbOutcome);
        db.UpdateCurrentIndex(nextIndex, campaign);
        pass := Continued(Contacted(username, clientName, nextIndex, processed + 1, processed + 1 < MaxUsersPerDay));
      } else {
        pass := Stopped(OutOfContacts(startIndex));
      }
    case Exhausted(_) =>
      pass := Stopped(OutOfContacts(startIndex));
    case IndexError =>
      pass := Stopped(Crashed(startIndex));
  }

  /** The cursor table after the passes `actions`: the campaign's cursor
      has moved on by one position per contact greeted. */
  function CursorsAfterRun(cursors: map<string, int>, campaign: string, actions: seq<Action>): (c: map<string, int>)
    ensures c.Keys == cursors.Keys + {campaign}
    ensures c[campaign] == Store.CursorOf(cursors, campaign) + Contacts(actions)
    ensures forall k :: k in cursors && k != campaign ==> c[k] == cursors[k]
  {
    cursors[campaign := Store.CursorOf(cursors, campaign) + Contacts(actions)]
  }

  /** Writing the campaign's cursor over a table that is `cursors0` with at
      most that cursor changed. */
  lemma CursorStep(cursors0: map<string, int>, before: map<string, int>, after: map<string, int>,
                   campaign: string, cursor: int)
    requires before.Keys <= cursors0.Keys + {campaign}
    requires forall k :: k in before && k != campaign ==> k in cursors0 && before[k] == cursors0[k]
    requires forall k :: k in cursors0 ==> k in before
    requires after == before[campaign := cursor]
    ensures after == cursors0[campaign := cursor]
  {
  }

  /** The state of `main`'s loop after the passes `done`, made from cursor
      `start` with a fresh counter: they follow the plan and leave the
      cursor at `cursor` and the counter at `processed`; the cursor table is
      the one the loop started from with the campaign at `cursor` (or is
      untouched before the first pass); and the outbox and the `user_stats`
      table account for the passes. */
  ghost predicate Progress(usernames: seq<string>, names: seq<string>, campaign: string, start: int,
                           done: seq<Action>, cursor: int, processed: nat,
                           cursors0: map<string, int>, cursors: map<string, int>,
                           outbox0: seq<Conversation.Outgoing>, outbox: seq<Conversation.Outgoing>,
                           table0: map<string, Store.StatsRow>, table: map<string, Store.StatsRow>,
                           greeting: nat -> string, delivered: nat -> bool, dbOutcome: nat -> Store.WriteOutcome)
  {
    && Store.CursorOf(cursors0, campaign) == start
    && Following(usernames, names, start, done, cursor, processed)
    && (cursors == cursors0[campaign := cursor] || (done == [] && processed == 0 && cursors == cursors0))
    && Accounted(outbox0, outbox, table0, table, done, greeting, delivered, dbOutcome)
  }

  /** One pass, with the effects a pass has on the cursor table, the outbox
      and the `user_stats` table, moves the loop state on, or ends the run
      with everything accounted for. */
  lemma ProgressStep(usernames: seq<string>, names: seq<string>, campaign: string, start: int,
                     done: seq<Action>, cursor: int, processed: nat,
                     cursors0: map<string, int>, cursors: map<string, int>, cursors': map<string, int>,
                     outbox0: seq<Conversation.Outgoing>, outbox: seq<Conversation.Outgoing>, outbox': seq<Conversation.Outgoing>,
                     table0: map<string, Store.StatsRow>, table: map<string, Store.StatsRow>, table': map<string, Store.StatsRow>,
                     greeting: nat -> string, delivered: nat -> bool, dbOutcome: nat -> Store.WriteOutcome, pass: Pass)
    requires Progress(usernames, names, campaign, start, done, cursor, processed, cursors0, cursors,
                      outbox0, outbox, table0, table, greeting, delivered, dbOutcome)
    requires pass == NextPass(usernames, names, cursor, processed)
    requires pass.Continued? ==>
               && outbox' == outbox + GreetingOf(pass.action, greeting(|done|), delivered(|done|))
               && table' == RecordOf(table, pass.action, delivered(|done|), dbOutcome(|done|))
               && cursors' == (if pass.action.Contacted? then cursors[campaign := cursor + 1] else cursors)
    requires pass.Stopped? ==> outbox' == outbox && table' == table && cursors' == cursors[campaign := cursor]
    ensures pass.Continued? ==>
              Progress(usernames, names, campaign, start, done + [pass.action], CursorAfter(cursor, pass.action),
                       CounterAfter(processed, pass.action), cursors0, cursors', outbox0, outbox', table0, table',
                       greeting, delivered, dbOutcome)
    ensures pass.Stopped? ==>
              && Run(done, pass.end) == Plan(usernames, names, Store.CursorOf(cursors0, campaign), 0)
              && cursors' == CursorsAfterRun(cursors0, campaign, done)
              && outbox' == outbox0 + Greetings(done, greeting, delivered)
              && table' == Recorded(table0, done, delivered, dbOutcome)
  {
    FollowStep(usernames, names, start, done, cursor, processed, pass);
    if pass.Continued? {
      if pass.action.Contacted? {
        CursorStep(cursors0, cursors, cursors', campaign, cursor + 1);
      }
      AccountStep(outbox0, outbox, outbox', table0, table, table', done, pass.action, greeting, delivered, dbOutcome);
    } else {
      CursorStep(cursors0, cursors, cursors', campaign, cursor);
      assert outbox + [] == outbox;
    }
  }

  /** Pass number `|done|` of `main`'s loop: below the quota, `ContactNext`
      with that pass's greeting template and oracle outcomes; at the quota,
      the wait for the next day, which resets the counter and touches
      nothing else. The pass is the next step of the plan, and the loop
      state moves on with it. */
  method CampaignPass(engine: Conversation.Engine, campaign: string, usernames: seq<string>, names: seq<string>,
                      processed: nat, greeting: nat -> string, delivered: nat -> bool, dbOutcome: nat -> Store.WriteOutcome,
                      done: seq<Action>, ghost start: int, ghost cursor: int, ghost cursors0: map<string, int>,
                      ghost outbox0: seq<Conversation.Outgoing>, ghost table0: map<string, Store.StatsRow>)
    returns (pass: Pass, processed': nat)
    requires engine.Valid()
    requires Progress(usernames, names, campaign, start, done, cursor, processed, cursors0, engine.db.cursors,
                      outbox0, engine.outbox, table0, engine.db.userStats, greeting, delivered, dbOutcome)
    modifies engine, engine.db
    ensures engine.Valid()
    ensures pass == NextPass(usernames, names, cursor, processed)
    ensures pass.Continued? ==>
              && processed' == CounterAfter(processed, pass.action)
              && Progress(usernames, names, campaign, start, done + [pass.action], CursorAfter(cursor, pass.action), processed',
                          cursors0, engine.db.cursors, outbox0, engine.outbox, table0, engine.db.userStats,
                          greeting, delivered, dbOutcome)
    ensures pass.Stopped? ==>
              && Run(done, pass.end) == Plan(usernames, names, Store.CursorOf(cursors0, campaign), 0)
              && engine.db.cursors == CursorsAfterRun(cursors0, campaign, done)
              && engine.outbox == outbox0 + Greetings(done, greeting, delivered)
              && engine.db.userStats == Recorded(table0, done, delivered, dbOutcome)
    ensures pass.Continued? ==>
              && engine.outbox == old(engine.outbox) + GreetingOf(pass.action, greeting(|done|), delivered(|done|))
              && engine.db.userStats == RecordOf(old(engine.db.userStats), pass.action, delivered(|done|), dbOutcome(|done|))
              && (pass.action.Contacted? ==> engine.stats == Conversation.WithEntry(old(engine.stats), pass.action.username))
              && (pass.action.Contacted? ==>
                    var armed := delivered(|done|) && dbOutcome(|done|) != Store.OtherFailure;
                    && engine.pendingReminders == old(engine.pendingReminders) + (if armed then {Conversation.Task(old(engine.nextTask), pass.action.username)} else {})
                    && engine.nextTask == old(engine.nextTask) + (if armed then 1 else 0))
              && (pass.action.QuotaWaited? ==>
                    && engine.stats == old(engine.stats)
                    && engine.pendingReminders == old(engine.pendingReminders) && engine.nextTask == old(engine.nextTask))
    ensures pass.Stopped? ==>
              && engine.stats == old(engine.stats) && engine.outbox == old(engine.outbox)
              && engine.db.userStats == old(engine.db.userStats)
              && engine.pendingReminders == old(engine.pendingReminders) && engine.nextTask == old(engine.nextTask)
    ensures engine.histories == old(engine.histories) && engine.buffers == old(engine.buffers)
    ensures engine.timers == old(engine.timers) && engine.pendingDebounce == old(engine.pendingDebounce)
  {
    var k := |done|;
    ghost var cursors, outbox, table := engine.db.cursors, engine.outbox, engine.db.userStats;
    if processed < MaxUsersPerDay {
      pass := ContactNext(engine, campaign, usernames, names, processed, greeting(k), delivered(k), dbOutcome(k));
      processed' := processed + 1;
    } else {
      pass := Continued(QuotaWaited);
      processed' := 0;
    }
    ProgressStep(usernames, names, campaign, start, done, cursor, processed, cursors0, cursors, engine.db.cursors,
                 outbox0, outbox, engine.outbox, table0, table, engine.db.userStats, greeting, delivered, dbOutcome, pass);
  }

  /** `main`'s loop driving the engine: pass `k` greets with the template
      `greeting(k)` (`random.choice(initial_messages)`), and the delivery
      and database outcomes of its `send_message` are `delivered(k)` and
      `dbOutcome(k)`. The passes run back to back: the handlers that the
      source runs during the loop's sleeps are events of the engine that
      can only come before or after a whole run. */
  method RunCampaign(engine: Conversation.Engine, campaign: string, usernames: seq<string>, names: seq<string>,
                     greeting: nat -> string, delivered: nat -> bool, dbOutcome: nat -> Store.WriteOutcome)
    returns (trace: seq<Action>, end: End)
    requires engine.Valid()
    modifies engine, engine.db
    ensures engine.Valid()
    ensures Run(trace, end) == Plan(usernames, names, Store.CursorOf(old(engine.db.cursors), campaign), 0)
    ensures engine.db.cursors == CursorsAfterRun(old(engine.db.cursors), campaign, trace)
    ensures engine.outbox == old(engine.outbox) + Greetings(trace, greeting, delivered)
    ensures engine.db.userStats == Recorded(old(engine.db.userStats), trace, delivered, dbOutcome)
    ensures engine.histories == old(engine.histories) && engine.buffers == old(engine.buffers)
    ensures engine.timers == old(engine.timers) && engine.pendingDebounce == old(engine.pendingDebounce)
  {
    var db := engine.db;
    ghost var start := Store.CursorOf(db.cursors, campaign);
    ghost var cursor := start;
    ghost var cursors0, outbox0, table0 := db.cursors, engine.outbox, db.userStats;
    ghost var histories0, buffers0, timers0, pending0 := engine.histories, engine.buffers, engine.timers, engine.pendingDebounce;
    var usersProcessed: nat := 0;
    trace := [];
    while true
      invariant engine.Valid()
      invariant Progress(usernames, names, campaign, start, trace, cursor, usersProcessed, cursors0, db.cursors,
                         outbox0, engine.outbox, table0, db.userStats, greeting, delivered, dbOutcome)
      invariant engine.histories == histories0 && engine.buffers == buffers0
      invariant engine.timers == timers0 && engine.pendingDebounce == pending0
      decreases Remaining(usernames, cursor), if usersProcessed < MaxUsersPerDay then 0 else 1
    {
      var pass;
      pass, usersProcessed := CampaignPass(engine, campaign, usernames, names, usersProcessed, greeting, delivered, dbOutcome,
                                           trace, start, cursor, cursors0, outbox0, table0);
      match pass
      case Continued(action) =>
        trace := trace + [action];
        cursor := CursorAfter(cursor, action);
      case Stopped(e) =>
        return trace, e;
    }
  }
}
