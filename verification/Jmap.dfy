/** JMAP acquisition: the paging fetch, the push trigger, and the two sources that share a cursor. */
module Jmap {
  import opened Model
  import opened Mailbox

  datatype Page = Page(created: seq<string>, newState: nat, hasMore: bool)

  datatype Email = Email(message: Message, inInbox: bool)

  /** Whether the message exists once the first `t` changes have happened. */
  predicate PresentAt(mail: Log, t: nat, id: string)
    requires t <= |mail|
  {
    if t == 0 then false
    else if Touches(mail[t - 1], id) then !mail[t - 1].Destroyed?
    else PresentAt(mail, t - 1, id)
  }

  function Ids(ms: seq<Message>): (r: seq<string>)
    ensures |r| == |ms| && forall i | 0 <= i < |r| :: r[i] == ms[i].id
  {
    if ms == [] then [] else [ms[0].id] + Ids(ms[1..])
  }

  predicate Announced(mail: Log, id: string) {
    exists i | 0 <= i < |mail| :: mail[i].Created? && mail[i].message.id == id
  }

  function MessageOf(mail: Log, id: string): (m: Message)
    requires Announced(mail, id)
    ensures m.id == id && exists i | 0 <= i < |mail| :: mail[i].Created? && mail[i].message == m
  {
    var last := mail[|mail| - 1];
    if last.Created? && last.message.id == id then last.message
    else
      assert forall i | 0 <= i < |mail| - 1 :: mail[i] == mail[..|mail| - 1][i];
      MessageOf(mail[..|mail| - 1], id)
  }

  /** The messages of `ids` that exist now, in the order asked for. */
  function Emails(mail: Log, ids: seq<string>): seq<Email>
    requires forall id | id in ids :: Announced(mail, id)
  {
    if ids == [] then []
    else
      (if PresentAt(mail, |mail|, ids[0])
       then [Email(MessageOf(mail, ids[0]), InboxAt(mail, |mail|, ids[0]))] else [])
      + Emails(mail, ids[1..])
  }

  /** A server to which mail keeps arriving. Before its k-th request `arrivals(k)` is appended to the
      log, up to request number `last`; requests may fail; and a change page may stop anywhere, as
      long as it makes progress when it says there is more. */
  class Server {
    var mail: Log
    var requests: nat
    const arrivals: nat -> Log
    const last: nat
    const fails: nat -> bool
    const pageSize: nat -> nat

    constructor (mail: Log, arrivals: nat -> Log, last: nat, fails: nat -> bool, pageSize: nat -> nat)
      requires ProperIds(mail)
      ensures this.mail == mail && Valid()
    {
      this.mail, this.requests := mail, 0;
      this.arrivals, this.last, this.fails, this.pageSize := arrivals, last, fails, pageSize;
    }

    ghost predicate Valid()
      reads this
    {
      ProperIds(mail)
    }

    /** Mail that would reuse an id, or has none, does not arrive. */
    method Tick() returns (failed: bool)
      requires Valid()
      modifies this
      ensures Valid() && old(mail) <= mail && requests == old(requests) + 1
      ensures old(requests) >= last ==> mail == old(mail)
      ensures failed == fails(old(requests))
    {
      if requests < last && AreProper(mail + arrivals(requests)) {
        mail := mail + arrivals(requests);
      }
      failed := fails(requests);
      requests := requests + 1;
    }

    /** Email/changes: the ids created since a state, up to a state of the server's choosing. */
    method Changes(since: nat) returns (r: Outcome<Page>)
      requires Valid()
      modifies this
      ensures Valid() && old(mail) <= mail && requests == old(requests) + 1
      ensures old(requests) >= last ==> mail == old(mail)
      ensures r.Raised? <==> fails(old(requests)) || since > |mail|
      ensures r.Raised? ==> r.exn == JmapError
      ensures r.Ok? ==> var p := r.value;
                && since <= p.newState <= |mail| && p.created == Ids(CreatedIn(mail, since, p.newState))
                && (p.hasMore <==> p.newState < |mail|) && (p.hasMore ==> since < p.newState)
    {
      var size := pageSize(requests);
      var failed := Tick();
      if failed || since > |mail| {
        return Raised(JmapError);
      }
      var upTo := if since + 1 + size < |mail| then since + 1 + size else |mail|;
      r := Ok(Page(Ids(CreatedIn(mail, since, upTo)), upTo, upTo < |mail|));
    }

    /** Email/get: the messages asked for that still exist, and the current state. */
    method Get(ids: seq<string>) returns (r: Outcome<(seq<Email>, nat)>)
      requires Valid() && forall id | id in ids :: Announced(mail, id)
      modifies this
      ensures Valid() && old(mail) <= mail && requests == old(requests) + 1
      ensures old(requests) >= last ==> mail == old(mail)
      ensures forall id | id in ids :: Announced(mail, id)
      ensures r.Raised? <==> fails(old(requests))
      ensures r.Raised? ==> r.exn == JmapError
      ensures r.Ok? ==> r.value.0 == Emails(mail, ids) && r.value.1 == |mail|
    {
      var failed := Tick();
      forall id | id in ids ensures Announced(mail, id) {
        var i :| 0 <= i < |old(mail)| && old(mail)[i].Created? && old(mail)[i].message.id == id;
        assert mail[i] == old(mail)[i];
      }
      r := if failed then Raised(JmapError) else Ok((Emails(mail, ids), |mail|));
    }
  }

  predicate AreProper(mail: Log) {
    && (forall i, j | 0 <= i < j < |mail| ::
          mail[i].Created? && mail[j].Created? ==> mail[i].message.id != mail[j].message.id)
    && (forall i | 0 <= i < |mail| :: mail[i].Created? ==> mail[i].message.id != "")
  }

  // ----- One page of the fetch -----

  /** The messages of `emails` that are in the Inbox. */
  function InboxOf(emails: seq<Email>): seq<Message> {
    if emails == [] then []
    else (if emails[0].inInbox then [emails[0].message] else []) + InboxOf(emails[1..])
  }

  lemma {:induction false} InboxImpliesPresent(mail: Log, t: nat, id: string)
    requires t <= |mail| && InboxAt(mail, t, id)
    ensures PresentAt(mail, t, id)
  {
    if !Touches(mail[t - 1], id) {
      InboxImpliesPresent(mail, t - 1, id);
    }
  }

  lemma {:induction false} FilteredPage(mail: Log, ms: seq<Message>)
    requires ProperIds(mail)
    requires forall m | m in ms :: exists i | 0 <= i < |mail| :: mail[i].Created? && mail[i].message == m
    ensures forall id | id in Ids(ms) :: Announced(mail, id)
    ensures InboxOf(Emails(mail, Ids(ms))) == StillInbox(mail, ms, |mail|)
  {
    forall id | id in Ids(ms) ensures Announced(mail, id) {
      var k :| 0 <= k < |ms| && Ids(ms)[k] == id;
      assert ms[k] in ms;
    }
    if ms != [] {
      var m := ms[0];
      assert m in ms;
      assert MessageOf(mail, m.id) == m;
      assert Ids(ms)[1..] == Ids(ms[1..]);
      assert forall x | x in ms[1..] :: x in ms;
      FilteredPage(mail, ms[1..]);
      var tail := Emails(mail, Ids(ms[1..]));
      if PresentAt(mail, |mail|, m.id) {
        var e := Email(m, InboxAt(mail, |mail|, m.id));
        assert Emails(mail, Ids(ms)) == [e] + tail;
        assert ([e] + tail)[1..] == tail;
      } else {
        if InboxAt(mail, |mail|, m.id) { InboxImpliesPresent(mail, |mail|, m.id); }
        assert Emails(mail, Ids(ms)) == tail;
      }
    }
  }

  lemma {:induction false} CreatedInFrom(mail: Log, a: nat, b: nat)
    requires a <= b <= |mail|
    ensures forall m | m in CreatedIn(mail, a, b) ::
              exists i | 0 <= i < |mail| :: mail[i].Created? && mail[i].message == m
    decreases b
  {
    if a < b {
      CreatedInFrom(mail, a, b - 1);
    }
  }

  lemma PageRead(was: Log, now: Log, a: nat, b: nat)
    requires was <= now && a <= b <= |was| && ProperIds(now)
    ensures var ids := Ids(CreatedIn(was, a, b));
            && (forall id | id in ids :: Announced(now, id))
            && ByPages(now, a, [Leg(b, |now|)], b, InboxOf(Emails(now, ids)))
  {
    CreatedInGrows(was, now[|was|..], a, b);
    assert was + now[|was|..] == now;
    CreatedInFrom(now, a, b);
    FilteredPage(now, CreatedIn(now, a, b));
    OnePage(now, a, b);
  }

  // ----- The fetch -----

  datatype Fetched = Fetched(messages: seq<Message>, cursor: Cursor)

  lemma EmptyPage(mail: Log, a: nat, b: nat)
    requires a <= b <= |mail| && Ids(CreatedIn(mail, a, b)) == []
    ensures ByPages(mail, a, [Leg(b, |mail|)], b, [])
  {
    assert CreatedIn(mail, a, b) == [];
    OnePage(mail, a, b);
  }

  /** Every page was read when the log was at least this long. */
  ghost predicate ReadSince(legs: seq<Leg>, t: nat) {
    forall k | 0 <= k < |legs| :: t <= legs[k].readAt
  }

  /** The last request failed, having been made since there had been `k`; */
  ghost predicate Failed(server: Server, k: nat)
    reads server
  {
    k < server.requests && server.fails(server.requests - 1)
  }

  /** all requests made since were answered. */
  ghost predicate Answered(server: Server, k: nat)
    reads server
  {
    forall j | k <= j < server.requests :: !server.fails(j)
  }

  lemma NoPages(mail: Log, a: nat)
    requires a <= |mail|
    ensures ByPages(mail, a, [], a, [])
  {}

  /** The pages read so far, and one more; the first may start at a change that had not happened before. */
  lemma PageAdded(
    was: Log, now: Log, a: nat, legs: seq<Leg>, b: nat, ms: seq<Message>, leg: Leg, c: nat, page: seq<Message>)
    requires was <= now && ByPages(now, b, [leg], c, page)
    requires if b <= |was| then ByPages(was, a, legs, b, ms) else b <= |now| && a == b && legs == [] && ms == []
    ensures ByPages(now, a, legs + [leg], c, ms + page)
  {
    if b <= |was| {
      ByPagesGrow(was, now, a, legs, b, ms);
    } else {
      NoPages(now, b);
    }
    hide ByPages;
    ByPagesJoin(now, a, legs, b, ms, [leg], c, page);
  }

  /** One page: its messages that are in the Inbox when they are read. */
  method ReadPage(server: Server, cursor: Cursor, page: Page) returns (r: Outcome<seq<Message>>, ghost leg: Leg)
    requires server.Valid() && cursor <= page.newState <= |server.mail|
    requires page.created == Ids(CreatedIn(server.mail, cursor, page.newState))
    modifies server
    ensures server.Valid() && old(server.mail) <= server.mail && server.requests >= old(server.requests)
    ensures old(server.requests) >= server.last ==> server.mail == old(server.mail)
    ensures r.Raised? ==> r.exn == JmapError && Failed(server, old(server.requests))
    ensures r.Ok? ==> Answered(server, old(server.requests))
    ensures leg == Leg(page.newState, |server.mail|)
    ensures r.Ok? ==> ByPages(server.mail, cursor, [leg], page.newState, r.value)
  {
    hide ByPages, InboxOf, InboxAt, CreatedIn;
    ghost var listed := server.mail;
    if page.created == [] {
      EmptyPage(listed, cursor, page.newState);
      r, leg := Ok([]), Leg(page.newState, |listed|);
      return;
    }
    PageRead(listed, listed, cursor, page.newState);
    var got := server.Get(page.created);
    leg := Leg(page.newState, |server.mail|);
    if got.Raised? {
      r := Raised(got.exn);
      return;
    }
    PageRead(listed, server.mail, cursor, page.newState);
    r := Ok(InboxOf(got.value.0));
  }

  /** No cursor: take the current state as the baseline and replay nothing. Otherwise page through
      the changes until the server has no more, however it splits them and while mail arrives, so that
      at the end no change is left that was there at the start. `legs` are the pages, as they were read
      in this fetch. It fails exactly when a request does, or when the cursor is none of the server's. */
  method FetchNewMessages(server: Server, since: Option<Cursor>) returns (r: Outcome<Fetched>, ghost legs: seq<Leg>)
    requires server.Valid()
    modifies server
    ensures server.Valid() && old(server.mail) <= server.mail && server.requests > old(server.requests)
    ensures r.Raised? ==>
              && r.exn == JmapError
              && (Failed(server, old(server.requests)) || (since.Some? && since.value > |server.mail|))
    ensures r.Ok? ==> Answered(server, old(server.requests)) && |old(server.mail)| <= r.value.cursor
    ensures r.Ok? && since.None? ==> r.value == Fetched([], |server.mail|)
    ensures r.Ok? && since.Some? ==>
              && since.value <= r.value.cursor && ReadSince(legs, |old(server.mail)|)
              && ByPages(server.mail, since.value, legs, r.value.cursor, r.value.messages)
              && NoneMissed(server.mail, since.value, legs, r.value.cursor, r.value.messages)
  {
    hide ByPages, NoneMissed, InboxOf, InboxAt, CreatedIn;
    legs := [];
    if since.None? {
      var baseline := server.Get([]);
      r := if baseline.Raised? then Raised(baseline.exn) else Ok(Fetched([], baseline.value.1));
      return;
    }
    var cursor := since.value;
    var messages: seq<Message> := [];
    var more := true;
    if since.value <= |server.mail| {
      NoPages(server.mail, since.value);
    }
    while more
      invariant server.Valid() && old(server.mail) <= server.mail && since.value <= cursor
      invariant ReadSince(legs, |old(server.mail)|) && Answered(server, old(server.requests))
      invariant server.requests >= old(server.requests)
      invariant more || (server.requests > old(server.requests) && |old(server.mail)| <= cursor)
      invariant cursor <= |server.mail| ==> ByPages(server.mail, since.value, legs, cursor, messages)
      invariant cursor > |server.mail| ==> more && cursor == since.value && messages == [] && legs == []
      decreases if server.requests < server.last then server.last - server.requests else 0,
                if cursor <= |server.mail| then |server.mail| - cursor else 0, more
    {
      ghost var before := server.mail;
      var changes := server.Changes(cursor);
      if changes.Raised? {
        r := Raised(changes.exn);
        return;
      }
      var read: Outcome<seq<Message>>;
      ghost var leg: Leg;
      read, leg := ReadPage(server, cursor, changes.value);
      if read.Raised? {
        r := Raised(read.exn);
        return;
      }
      PageAdded(before, server.mail, since.value, legs, cursor, messages, leg, changes.value.newState, read.value);
      messages, legs := messages + read.value, legs + [leg];
      cursor := changes.value.newState;
      more := changes.value.hasMore;
    }
    DeliveryMissesNone(server.mail, since.value, legs, cursor, messages);
    r := Ok(Fetched(messages, cursor));
  }

  // ----- Push, with reconnect backoff -----

  /** What has changed in an account. */
  datatype Changed = Changed(email: bool, emailDelivery: bool)

  /** An event of the push stream: what has changed, by account. */
  type PushEvent = Option<map<string, Changed>>

  predicate Relevant(account: string, e: PushEvent) {
    e.Some? && account in e.value && (e.value[account].email || e.value[account].emailDelivery)
  }

  /** The delay before retry number `attempt`: past its end the schedule stays at its last entry. */
  function NextDelay(schedule: seq<real>, attempt: nat): (d: real)
    requires schedule != []
    ensures d in schedule
    ensures attempt < |schedule| ==> d == schedule[attempt]
    ensures attempt >= |schedule| ==> d == schedule[|schedule| - 1]
  {
    schedule[if attempt < |schedule| then attempt else |schedule| - 1]
  }

  class PushTrigger {
    const account: string
    const schedule: seq<real>
    var attempt: nat
    ghost var slept: seq<real>

    constructor (account: string, schedule: seq<real>)
      ensures Valid() && attempt == 0 && this.schedule == schedule && this.account == account
    {
      this.account, this.schedule, attempt, slept := account, schedule, 0, [];
    }

    /** `slept` is what was slept since the last relevant event: the schedule from its start. */
    ghost predicate Valid()
      reads this
    {
      |slept| == attempt && (attempt > 0 ==> schedule != [])
      && forall i | 0 <= i < attempt :: slept[i] == NextDelay(schedule, i)
    }

    /** Waits for a relevant event. A stream that ends or breaks first costs one delay and is
        reported as a disconnect; an empty schedule makes it a disconnect without delay. */
    method Wait(events: seq<PushEvent>) returns (r: Outcome<()>)
      requires Valid()
      modifies this
      ensures Valid()
      ensures r.Ok? <==> exists e :: e in events && Relevant(account, e)
      ensures r.Ok? <==> exists e :: e in events && e.Some? && account in e.value
                                     && (e.value[account].email || e.value[account].emailDelivery)
      ensures r.Ok? ==> attempt == 0
      ensures r.Raised? ==> r.exn == PushDisconnected
      ensures r.Raised? ==> attempt == old(attempt) + if schedule == [] then 0 else 1
      ensures r.Raised? && schedule != [] ==> slept == old(slept) + [NextDelay(schedule, old(attempt))]
    {
      for i := 0 to |events|
        invariant forall j | 0 <= j < i :: !Relevant(account, events[j])
        invariant Valid() && attempt == old(attempt) && slept == old(slept)
      {
        if Relevant(account, events[i]) {
          attempt, slept := 0, [];
          return Ok(());
        }
      }
      if schedule != [] {
        slept := slept + [NextDelay(schedule, attempt)];
        attempt := attempt + 1;
      }
      r := Raised(PushDisconnected);
    }
  }

  // ----- Two sources, one cursor -----

  datatype Batch = Batch(messages: seq<Message>, checkpoint: Cursor)

  class CursorState {
    var value: Option<Cursor>

    constructor (value: Option<Cursor>)
      ensures this.value == value
    {
      this.value := value;
    }
  }

  /** The polling timer: `waits` counts the intervals slept. */
  class IntervalTimer {
    ghost var waits: nat

    constructor ()
      ensures waits == 0
    {
      waits := 0;
    }

    method Wait()
      modifies this
      ensures waits == old(waits) + 1
    {
      waits := waits + 1;
    }
  }

  /** Push first, timer when push is disconnected; both fetch from, and advance, the one cursor. */
  class FallbackSource {
    const server: Server
    const cursor: CursorState
    const push: PushTrigger
    const timer: IntervalTimer

    constructor (server: Server, push: PushTrigger, cursor: Option<Cursor>)
      requires server.Valid() && push.Valid()
      ensures this.server == server && this.push == push && fresh(this.cursor) && fresh(this.timer)
      ensures this.cursor.value == cursor && Valid()
    {
      this.server, this.push := server, push;
      this.cursor := new CursorState(cursor);
      this.timer := new IntervalTimer();
    }

    ghost predicate Valid()
      reads server, push
    {
      server.Valid() && push.Valid()
    }

    /** What a fetch from the cursor `from` has returned, now that the cursor is where it is: the mail
        of the pages `legs`, all read since the log had length `t`; and these pages cover all changes that
        were there then. */
    ghost predicate Returned(from: Option<Cursor>, b: Batch, legs: seq<Leg>, t: nat)
      reads server, cursor
    {
      && cursor.value == Some(b.checkpoint) && t <= b.checkpoint
      && (from.None? ==> b == Batch([], |server.mail|))
      && (from.Some? ==>
            && ByPages(server.mail, from.value, legs, b.checkpoint, b.messages) && ReadSince(legs, t)
            && NoneMissed(server.mail, from.value, legs, b.checkpoint, b.messages))
    }

    /** Why a fetch raises: its last request failed, of those made since there had been `k`, or its cursor is
        none of the server's. */
    ghost predicate Unanswered(k: nat)
      reads server, cursor
    {
      Failed(server, k) || (cursor.value.Some? && cursor.value.value > |server.mail|)
    }

    /** Fetch from the cursor and, only if that succeeds, move it. */
    method FetchAndAdvance() returns (r: Outcome<Batch>, ghost legs: seq<Leg>)
      requires Valid()
      modifies server, cursor
      ensures Valid() && old(server.mail) <= server.mail && server.requests > old(server.requests)
      ensures r.Raised? ==>
                r.exn == JmapError && cursor.value == old(cursor.value) && Unanswered(old(server.requests))
      ensures r.Ok? ==> Answered(server, old(server.requests))
      ensures r.Ok? ==> Returned(old(cursor.value), r.value, legs, |old(server.mail)|)
    {
      var fetched: Outcome<Fetched>;
      fetched, legs := FetchNewMessages(server, cursor.value);
      if fetched.Raised? {
        r := Raised(fetched.exn);
        return;
      }
      cursor.value := Some(fetched.value.cursor);
      r := Ok(Batch(fetched.value.messages, fetched.value.cursor));
    }

    /** One poll: wait for push, and only if that is disconnected for the timer, then fetch. A failed
        fetch is the caller's. */
    method PollBatch(events: seq<PushEvent>) returns (r: Outcome<Batch>, ghost legs: seq<Leg>)
      requires Valid()
      modifies server, cursor, push, timer
      ensures Valid() && old(server.mail) <= server.mail && server.requests > old(server.requests)
      ensures r.Raised? ==>
                r.exn == JmapError && cursor.value == old(cursor.value) && Unanswered(old(server.requests))
      ensures r.Ok? ==> Answered(server, old(server.requests))
      ensures r.Ok? ==> Returned(old(cursor.value), r.value, legs, |old(server.mail)|)
      ensures var woken := exists e :: e in events && Relevant(push.account, e);
              && push.attempt == (if woken then 0 else old(push.attempt) + if push.schedule == [] then 0 else 1)
              && timer.waits == old(timer.waits) + if woken then 0 else 1
    {
      r, legs := PollPrimary(events);
      if r.Raised? && r.exn == PushDisconnected {
        timer.Wait();
        r, legs := FetchAndAdvance();
      }
    }

    /** The push-triggered source: a disconnect leaves server and cursor alone. */
    method PollPrimary(events: seq<PushEvent>) returns (r: Outcome<Batch>, ghost legs: seq<Leg>)
      requires Valid()
      modifies server, cursor, push
      ensures Valid() && old(server.mail) <= server.mail
      ensures r.Raised? ==> cursor.value == old(cursor.value)
      ensures r.Raised? && r.exn == PushDisconnected ==>
                server.mail == old(server.mail) && server.requests == old(server.requests)
      ensures !(r.Raised? && r.exn == PushDisconnected) ==> server.requests > old(server.requests)
      ensures r.Raised? && r.exn != PushDisconnected ==> r.exn == JmapError && Unanswered(old(server.requests))
      ensures r.Ok? ==> Answered(server, old(server.requests))
      ensures r.Ok? ==> Returned(old(cursor.value), r.value, legs, |old(server.mail)|)
      ensures var woken := exists e :: e in events && Relevant(push.account, e);
              && (woken <==> !(r.Raised? && r.exn == PushDisconnected))
              && push.attempt == (if woken then 0 else old(push.attempt) + if push.schedule == [] then 0 else 1)
    {
      legs := [];
      var woken := push.Wait(events);
      if woken.Raised? {
        r := Raised(woken.exn);
        return;
      }
      r, legs := FetchAndAdvance();
    }

    /** Any sequence of polls, through push events, disconnects, timers and failed fetches, with mail
        arriving, moving and vanishing between and within them: all batches together are one delivery
        from the first cursor to the last. It is exactly the Inbox mail of the stretch if and only if
        each message created in it was, when its page was read, where it was created. `begun` are the
        lengths that the log had when the polls began that returned; a poll that raised had a request
        fail. The last poll that returned has left no change behind that was there when it began, nor any
        message untouched until its page was read. */
    method PollRepeatedly(streams: seq<seq<PushEvent>>)
      returns (all: seq<Message>, ghost legs: seq<Leg>, ghost begun: seq<nat>)
      requires Valid() && cursor.value.Some? && cursor.value.value <= |server.mail|
      modifies server, cursor, push, timer
      ensures Valid() && old(server.mail) <= server.mail && cursor.value.Some?
      ensures server.requests >= old(server.requests) + |streams| && |begun| <= |streams|
      ensures Answered(server, old(server.requests)) ==> |begun| == |streams|
      ensures forall k | 0 <= k < |begun| :: |old(server.mail)| <= begun[k] <= cursor.value.value
      ensures NoneMissed(server.mail, old(cursor.value).value, legs, cursor.value.value, all)
      ensures var mail, first, end := server.mail, old(cursor.value).value, cursor.value.value;
              && ByPages(mail, first, legs, end, all) && ReadSince(legs, |old(server.mail)|)
              && first <= end <= |mail| && Subsequence(all, CreatedIn(mail, first, end))
              && (all == InboxCreated(mail, first, end) <==> KeptPlaces(mail, first, legs, end))
    {
      all, legs, begun := [], [], [];
      ghost var first := cursor.value.value;
      NoPages(server.mail, first);
      for k := 0 to |streams|
        invariant Valid() && old(server.mail) <= server.mail && cursor.value.Some?
        invariant server.requests >= old(server.requests) + k && |begun| <= k
        invariant Answered(server, old(server.requests)) ==> |begun| == k
        invariant forall j | 0 <= j < |begun| :: |old(server.mail)| <= begun[j] <= cursor.value.value
        invariant ByPages(server.mail, first, legs, cursor.value.value, all) && ReadSince(legs, |old(server.mail)|)
      {
        hide ByPages, NoneMissed;
        ghost var mail, from := server.mail, cursor.value.value;
        ByPagesOrdered(mail, first, legs, from, all);
        var batch: Outcome<Batch>;
        ghost var pages: seq<Leg>;
        batch, pages := PollBatch(streams[k]);
        ByPagesGrow(mail, server.mail, first, legs, from, all);
        if batch.Ok? {
          ByPagesJoin(server.mail, first, legs, from, all, pages, batch.value.checkpoint, batch.value.messages);
          ByPagesOrdered(server.mail, from, pages, batch.value.checkpoint, batch.value.messages);
          begun := begun + [|mail|];
          all, legs := all + batch.value.messages, legs + pages;
        }
      }
      DeliveryMissesNone(server.mail, first, legs, cursor.value.value, all);
      CollectedInOrder(server.mail, first, legs, cursor.value.value);
      ExactlyWhenPlacesKept(server.mail, first, legs, cursor.value.value);
    }
  }
}
