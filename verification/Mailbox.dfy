/** The mail server as a change log, and what it means to deliver a stretch of it. */
module Mailbox {
  import opened Model

  /** One change to the account; an Email state is a position in the log of changes. */
  datatype Change =
    | Created(message: Message, inInbox: bool)
    | Moved(id: string, toInbox: bool)
    | Destroyed(id: string)
    | Other

  type Log = seq<Change>

  /** The server never reuses a message id, and none is empty. */
  ghost predicate ProperIds(mail: Log) {
    && (forall i, j | 0 <= i < j < |mail| && mail[i].Created? && mail[j].Created? ::
          mail[i].message.id != mail[j].message.id)
    && (forall i | 0 <= i < |mail| && mail[i].Created? :: mail[i].message.id != "")
  }

  predicate Touches(c: Change, id: string) {
    match c
    case Created(m, _) => m.id == id
    case Moved(x, _) => x == id
    case Destroyed(x) => x == id
    case Other => false
  }

  /** Whether message `id` exists and is in the Inbox once the first `t` changes have happened. */
  predicate InboxAt(mail: Log, t: nat, id: string)
    requires t <= |mail|
  {
    if t == 0 then false
    else if Touches(mail[t - 1], id) then
      match mail[t - 1]
      case Created(_, b) => b
      case Moved(_, b) => b
      case _ => false
    else InboxAt(mail, t - 1, id)
  }

  /** The messages created in the stretch from `a` to `b`, in order. */
  function CreatedIn(mail: Log, a: nat, b: nat): seq<Message>
    requires a <= b <= |mail|
  {
    if a == b then []
    else CreatedIn(mail, a, b - 1) + if mail[b - 1].Created? then [mail[b - 1].message] else []
  }

  /** Those of `ms` that are in the Inbox at `t`. */
  function StillInbox(mail: Log, ms: seq<Message>, t: nat): seq<Message>
    requires t <= |mail|
  {
    if ms == [] then []
    else (if InboxAt(mail, t, ms[0].id) then [ms[0]] else []) + StillInbox(mail, ms[1..], t)
  }

  /** One page of a fetch: changes up to `upTo`, contents read when the log had length `readAt`. */
  datatype Leg = Leg(upTo: nat, readAt: nat)

  ghost predicate Path(mail: Log, a: nat, legs: seq<Leg>, b: nat)
    decreases |legs|
  {
    if legs == [] then a == b <= |mail|
    else a <= legs[0].upTo <= legs[0].readAt <= |mail| && Path(mail, legs[0].upTo, legs[1..], b)
  }

  ghost function Collected(mail: Log, a: nat, legs: seq<Leg>, b: nat): seq<Message>
    requires Path(mail, a, legs, b)
    decreases |legs|
  {
    if legs == [] then []
    else
      StillInbox(mail, CreatedIn(mail, a, legs[0].upTo), legs[0].readAt)
      + Collected(mail, legs[0].upTo, legs[1..], b)
  }

  /** `ms` is a delivery of the stretch from `a` to `b`: page by page, the created messages that are
      in the Inbox when their page is read. */
  ghost predicate Delivery(mail: Log, a: nat, b: nat, ms: seq<Message>) {
    exists legs :: Path(mail, a, legs, b) && ms == Collected(mail, a, legs, b)
  }

  /** A delivery by these pages. */
  ghost predicate ByPages(mail: Log, a: nat, legs: seq<Leg>, b: nat, ms: seq<Message>) {
    Path(mail, a, legs, b) && ms == Collected(mail, a, legs, b)
  }

  // ----- Deliveries compose, and outlive new mail -----

  lemma {:induction false} PathsJoin(mail: Log, a: nat, x: seq<Leg>, b: nat, y: seq<Leg>, c: nat)
    requires Path(mail, a, x, b) && Path(mail, b, y, c)
    ensures Path(mail, a, x + y, c)
    ensures Collected(mail, a, x + y, c) == Collected(mail, a, x, b) + Collected(mail, b, y, c)
    decreases |x|
  {
    if x == [] {
      assert x + y == y;
    } else {
      assert (x + y)[0] == x[0] && (x + y)[1..] == x[1..] + y;
      PathsJoin(mail, x[0].upTo, x[1..], b, y, c);
    }
  }

  /** Fetching from `a` to `b` and then from `b` to `c` is one fetch from `a` to `c`. */
  lemma DeliveriesJoin(mail: Log, a: nat, b: nat, c: nat, x: seq<Message>, y: seq<Message>)
    requires Delivery(mail, a, b, x) && Delivery(mail, b, c, y)
    ensures Delivery(mail, a, c, x + y)
  {
    var p :| Path(mail, a, p, b) && x == Collected(mail, a, p, b);
    var q :| Path(mail, b, q, c) && y == Collected(mail, b, q, c);
    PathsJoin(mail, a, p, b, q, c);
  }

  lemma {:induction false} InboxAtGrows(mail: Log, more: Log, t: nat, id: string)
    requires t <= |mail|
    ensures InboxAt(mail + more, t, id) == InboxAt(mail, t, id)
  {
    if t > 0 {
      InboxAtGrows(mail, more, t - 1, id);
    }
  }

  lemma {:induction false} CreatedInGrows(mail: Log, more: Log, a: nat, b: nat)
    requires a <= b <= |mail|
    ensures CreatedIn(mail + more, a, b) == CreatedIn(mail, a, b)
    decreases b - a
  {
    if a < b {
      CreatedInGrows(mail, more, a, b - 1);
    }
  }

  lemma {:induction false} StillInboxGrows(mail: Log, more: Log, ms: seq<Message>, t: nat)
    requires t <= |mail|
    ensures StillInbox(mail + more, ms, t) == StillInbox(mail, ms, t)
  {
    if ms != [] {
      InboxAtGrows(mail, more, t, ms[0].id);
      StillInboxGrows(mail, more, ms[1..], t);
    }
  }

  lemma {:induction false} PathGrows(mail: Log, more: Log, a: nat, legs: seq<Leg>, b: nat)
    requires Path(mail, a, legs, b)
    ensures Path(mail + more, a, legs, b)
    ensures Collected(mail + more, a, legs, b) == Collected(mail, a, legs, b)
    decreases |legs|
  {
    if legs != [] {
      CreatedInGrows(mail, more, a, legs[0].upTo);
      StillInboxGrows(mail, more, CreatedIn(mail, a, legs[0].upTo), legs[0].readAt);
      PathGrows(mail, more, legs[0].upTo, legs[1..], b);
    }
  }

  lemma DeliveryGrows(mail: Log, more: Log, a: nat, b: nat, ms: seq<Message>)
    requires Delivery(mail, a, b, ms)
    ensures Delivery(mail + more, a, b, ms)
  {
    var legs :| Path(mail, a, legs, b) && ms == Collected(mail, a, legs, b);
    PathGrows(mail, more, a, legs, b);
  }

  lemma OnePage(mail: Log, a: nat, b: nat)
    requires a <= b <= |mail|
    ensures ByPages(mail, a, [Leg(b, |mail|)], b, StillInbox(mail, CreatedIn(mail, a, b), |mail|))
  {
    var legs := [Leg(b, |mail|)];
    assert legs[1..] == [];
    assert Path(mail, a, legs, b);
    assert Collected(mail, a, legs, b) == StillInbox(mail, CreatedIn(mail, a, b), |mail|) + [];
  }

  lemma ByPagesGrow(was: Log, now: Log, a: nat, legs: seq<Leg>, b: nat, ms: seq<Message>)
    requires was <= now && ByPages(was, a, legs, b, ms)
    ensures ByPages(now, a, legs, b, ms)
  {
    PathGrows(was, now[|was|..], a, legs, b);
    assert was + now[|was|..] == now;
  }

  lemma ByPagesJoin(
    mail: Log, a: nat, p: seq<Leg>, b: nat, x: seq<Message>, q: seq<Leg>, c: nat, y: seq<Message>)
    requires ByPages(mail, a, p, b, x) && ByPages(mail, b, q, c, y)
    ensures ByPages(mail, a, p + q, c, x + y)
  {
    PathsJoin(mail, a, p, b, q, c);
  }

  // ----- What a delivery contains -----

  /** Change `i` created an Inbox message that no later change has touched. */
  ghost predicate Steady(mail: Log, i: nat) {
    && i < |mail| && mail[i].Created? && mail[i].inInbox
    && forall j | i < j < |mail| :: !Touches(mail[j], mail[i].message.id)
  }

  lemma {:induction false} SteadyInInbox(mail: Log, i: nat, t: nat)
    requires Steady(mail, i) && i < t <= |mail|
    ensures InboxAt(mail, t, mail[i].message.id)
  {
    if i < t - 1 {
      SteadyInInbox(mail, i, t - 1);
    }
  }

  lemma {:induction false} CreatedInHas(mail: Log, a: nat, b: nat, i: nat)
    requires a <= i < b <= |mail| && mail[i].Created?
    ensures mail[i].message in CreatedIn(mail, a, b)
    decreases b
  {
    if i < b - 1 {
      CreatedInHas(mail, a, b - 1, i);
    }
  }

  lemma {:induction false} StillInboxHas(mail: Log, ms: seq<Message>, t: nat, m: Message)
    requires t <= |mail|
    ensures m in StillInbox(mail, ms, t) <==> m in ms && InboxAt(mail, t, m.id)
  {
    if ms != [] {
      StillInboxHas(mail, ms[1..], t, m);
    }
  }

  lemma {:induction false} SteadyCollected(mail: Log, a: nat, legs: seq<Leg>, b: nat, i: nat)
    requires Path(mail, a, legs, b) && Steady(mail, i) && a <= i < b
    ensures mail[i].message in Collected(mail, a, legs, b)
    decreases |legs|
  {
    if i < legs[0].upTo {
      CreatedInHas(mail, a, legs[0].upTo, i);
      SteadyInInbox(mail, i, legs[0].readAt);
      StillInboxHas(mail, CreatedIn(mail, a, legs[0].upTo), legs[0].readAt, mail[i].message);
    } else {
      SteadyCollected(mail, legs[0].upTo, legs[1..], b, i);
    }
  }

  /** Nothing is missed: every Inbox message created in the stretch and left alone is delivered. */
  lemma DeliveryIsComplete(mail: Log, a: nat, b: nat, ms: seq<Message>)
    requires Delivery(mail, a, b, ms)
    ensures forall i: nat | a <= i < b && Steady(mail, i) :: mail[i].message in ms
  {
    var legs :| Path(mail, a, legs, b) && ms == Collected(mail, a, legs, b);
    forall i: nat | a <= i < b && Steady(mail, i) ensures mail[i].message in ms {
      SteadyCollected(mail, a, legs, b, i);
    }
  }

  // ----- Each once and in order -----

  /** `xs` can be had from `ys` by dropping elements. */
  ghost predicate Subsequence(xs: seq<Message>, ys: seq<Message>) {
    if xs == [] then true
    else if ys == [] then false
    else (xs[0] == ys[0] && Subsequence(xs[1..], ys[1..])) || Subsequence(xs, ys[1..])
  }

  lemma {:induction false} SubsequencesJoin(a: seq<Message>, b: seq<Message>, c: seq<Message>, d: seq<Message>)
    requires Subsequence(a, b) && Subsequence(c, d)
    ensures Subsequence(a + c, b + d)
    decreases |b|
  {
    if b == [] {
      assert a + c == c && b + d == d;
    } else {
      assert (b + d)[1..] == b[1..] + d;
      if a != [] && a[0] == b[0] && Subsequence(a[1..], b[1..]) {
        SubsequencesJoin(a[1..], b[1..], c, d);
        assert (a + c)[1..] == a[1..] + c;
      } else {
        SubsequencesJoin(a, b[1..], c, d);
        if a == [] {
          assert a + c == c;
        }
      }
    }
  }

  lemma {:induction false} StillInboxSubsequence(mail: Log, ms: seq<Message>, t: nat)
    requires t <= |mail|
    ensures Subsequence(StillInbox(mail, ms, t), ms)
  {
    if ms != [] {
      StillInboxSubsequence(mail, ms[1..], t);
      var r := StillInbox(mail, ms, t);
      if InboxAt(mail, t, ms[0].id) {
        assert r[1..] == StillInbox(mail, ms[1..], t);
      } else {
        assert r == StillInbox(mail, ms[1..], t);
      }
    }
  }

  lemma {:induction false} CreatedInSplits(mail: Log, a: nat, b: nat, c: nat)
    requires a <= b <= c <= |mail|
    ensures CreatedIn(mail, a, c) == CreatedIn(mail, a, b) + CreatedIn(mail, b, c)
    decreases c - b
  {
    if b < c {
      CreatedInSplits(mail, a, b, c - 1);
    }
  }

  lemma {:induction false} PathIsOrdered(mail: Log, a: nat, legs: seq<Leg>, b: nat)
    requires Path(mail, a, legs, b)
    ensures a <= b <= |mail|
    decreases |legs|
  {
    if legs != [] {
      PathIsOrdered(mail, legs[0].upTo, legs[1..], b);
    }
  }

  lemma ByPagesOrdered(mail: Log, a: nat, legs: seq<Leg>, b: nat, ms: seq<Message>)
    requires ByPages(mail, a, legs, b, ms)
    ensures a <= b <= |mail|
  {
    PathIsOrdered(mail, a, legs, b);
  }

  lemma {:induction false} CollectedInOrder(mail: Log, a: nat, legs: seq<Leg>, b: nat)
    requires Path(mail, a, legs, b)
    ensures a <= b <= |mail| && Subsequence(Collected(mail, a, legs, b), CreatedIn(mail, a, b))
    decreases |legs|
  {
    PathIsOrdered(mail, a, legs, b);
    if legs != [] {
      var u := legs[0].upTo;
      CollectedInOrder(mail, u, legs[1..], b);
      StillInboxSubsequence(mail, CreatedIn(mail, a, u), legs[0].readAt);
      SubsequencesJoin(StillInbox(mail, CreatedIn(mail, a, u), legs[0].readAt), CreatedIn(mail, a, u),
        Collected(mail, u, legs[1..], b), CreatedIn(mail, u, b));
      CreatedInSplits(mail, a, u, b);
    }
  }

  /** A delivery is a subsequence of the messages created in the stretch: in creation order, and
      each creation delivered at most once. */
  lemma DeliveryIsInOrder(mail: Log, a: nat, b: nat, ms: seq<Message>)
    requires Delivery(mail, a, b, ms)
    ensures a <= b <= |mail| && Subsequence(ms, CreatedIn(mail, a, b))
  {
    var legs :| Path(mail, a, legs, b) && ms == Collected(mail, a, legs, b);
    CollectedInOrder(mail, a, legs, b);
  }

  // ----- Exactly what a delivery contains -----

  /** The length the log had when the page of change `i` was read. */
  function ReadIn(legs: seq<Leg>, i: nat): nat {
    if legs == [] then 0 else if i < legs[0].upTo then legs[0].readAt else ReadIn(legs[1..], i)
  }

  lemma {:induction false} ReadAfterChange(mail: Log, a: nat, legs: seq<Leg>, b: nat, i: nat)
    requires Path(mail, a, legs, b) && a <= i < b
    ensures i < ReadIn(legs, i) <= |mail|
    decreases |legs|
  {
    if i >= legs[0].upTo {
      ReadAfterChange(mail, legs[0].upTo, legs[1..], b, i);
    }
  }

  lemma {:induction false} CreatedInOnly(mail: Log, a: nat, b: nat, m: Message) returns (j: nat)
    requires a <= b <= |mail| && m in CreatedIn(mail, a, b)
    ensures a <= j < b && mail[j].Created? && mail[j].message == m
    decreases b
  {
    if mail[b - 1].Created? && mail[b - 1].message == m {
      j := b - 1;
    } else {
      j := CreatedInOnly(mail, a, b - 1, m);
    }
  }

  lemma {:induction false} CollectedOnly(mail: Log, a: nat, legs: seq<Leg>, b: nat, m: Message) returns (j: nat)
    requires Path(mail, a, legs, b) && m in Collected(mail, a, legs, b)
    ensures a <= j < b && b <= |mail| && mail[j].Created? && mail[j].message == m
    decreases |legs|
  {
    PathIsOrdered(mail, legs[0].upTo, legs[1..], b);
    var page := CreatedIn(mail, a, legs[0].upTo);
    if m in StillInbox(mail, page, legs[0].readAt) {
      StillInboxHas(mail, page, legs[0].readAt, m);
      j := CreatedInOnly(mail, a, legs[0].upTo, m);
    } else {
      j := CollectedOnly(mail, legs[0].upTo, legs[1..], b, m);
    }
  }

  /** A created message is delivered exactly if it is in the Inbox when its page is read. */
  lemma {:induction false} DeliveredIfInInbox(mail: Log, a: nat, legs: seq<Leg>, b: nat, i: nat)
    requires ProperIds(mail) && Path(mail, a, legs, b) && a <= i < b <= |mail| && mail[i].Created?
    ensures ReadIn(legs, i) <= |mail|
    ensures mail[i].message in Collected(mail, a, legs, b) <==> InboxAt(mail, ReadIn(legs, i), mail[i].message.id)
    decreases |legs|
  {
    var m, u := mail[i].message, legs[0].upTo;
    var page := CreatedIn(mail, a, u);
    StillInboxHas(mail, page, legs[0].readAt, m);
    if i < u {
      CreatedInHas(mail, a, u, i);
      if m in Collected(mail, u, legs[1..], b) {
        var j := CollectedOnly(mail, u, legs[1..], b, m);
      }
    } else {
      DeliveredIfInInbox(mail, u, legs[1..], b, i);
      if m in page {
        var j := CreatedInOnly(mail, a, u, m);
      }
    }
  }

  /** The Inbox messages created in the stretch, straight from the log. */
  function InboxCreated(mail: Log, a: nat, b: nat): seq<Message>
    requires a <= b <= |mail|
  {
    if a == b then []
    else
      InboxCreated(mail, a, b - 1)
      + if mail[b - 1].Created? && mail[b - 1].inInbox then [mail[b - 1].message] else []
  }

  lemma {:induction false} InboxCreatedSplits(mail: Log, a: nat, b: nat, c: nat)
    requires a <= b <= c <= |mail|
    ensures InboxCreated(mail, a, c) == InboxCreated(mail, a, b) + InboxCreated(mail, b, c)
    decreases c - b
  {
    if b < c {
      InboxCreatedSplits(mail, a, b, c - 1);
    }
  }

  lemma {:induction false} InboxCreatedHas(mail: Log, a: nat, b: nat, i: nat)
    requires ProperIds(mail) && a <= b <= |mail| && i < |mail| && mail[i].Created?
    ensures mail[i].message in InboxCreated(mail, a, b) <==> a <= i < b && mail[i].inInbox
    decreases b - a
  {
    if a < b {
      InboxCreatedHas(mail, a, b - 1, i);
    }
  }

  /** A message created in the stretch is in the Inbox when its page is read exactly if it was created
      there. */
  ghost predicate KeptPlaces(mail: Log, a: nat, legs: seq<Leg>, b: nat) {
    forall i: nat | a <= i < b <= |mail| && mail[i].Created? ::
      ReadIn(legs, i) <= |mail| && InboxAt(mail, ReadIn(legs, i), mail[i].message.id) == mail[i].inInbox
  }

  lemma {:induction false} StillInboxConcat(mail: Log, a: seq<Message>, b: seq<Message>, t: nat)
    requires t <= |mail|
    ensures StillInbox(mail, a + b, t) == StillInbox(mail, a, t) + StillInbox(mail, b, t)
  {
    hide InboxAt;
    if a == [] {
      assert a + b == b;
    } else {
      assert (a + b)[0] == a[0] && (a + b)[1..] == a[1..] + b;
      StillInboxConcat(mail, a[1..], b, t);
      var kept := if InboxAt(mail, t, a[0].id) then [a[0]] else [];
      assert StillInbox(mail, a + b, t) == kept + (StillInbox(mail, a[1..], t) + StillInbox(mail, b, t));
    }
  }

  lemma {:induction false} PageIsInboxCreated(mail: Log, a: nat, b: nat, t: nat)
    requires a <= b <= t <= |mail|
    requires forall i | a <= i < b && mail[i].Created? :: InboxAt(mail, t, mail[i].message.id) == mail[i].inInbox
    ensures StillInbox(mail, CreatedIn(mail, a, b), t) == InboxCreated(mail, a, b)
    decreases b - a
  {
    if a < b {
      PageIsInboxCreated(mail, a, b - 1, t);
      var last := if mail[b - 1].Created? then [mail[b - 1].message] else [];
      StillInboxConcat(mail, CreatedIn(mail, a, b - 1), last, t);
      if mail[b - 1].Created? {
        assert last[1..] == [];
      }
    }
  }

  lemma {:induction false} CollectedIsInboxCreated(mail: Log, a: nat, legs: seq<Leg>, b: nat)
    requires Path(mail, a, legs, b) && KeptPlaces(mail, a, legs, b)
    ensures a <= b <= |mail| && Collected(mail, a, legs, b) == InboxCreated(mail, a, b)
    decreases |legs|
  {
    PathIsOrdered(mail, a, legs, b);
    if legs != [] {
      var u := legs[0].upTo;
      PathIsOrdered(mail, u, legs[1..], b);
      assert forall i: nat | a <= i < u :: ReadIn(legs, i) == legs[0].readAt;
      PageIsInboxCreated(mail, a, u, legs[0].readAt);
      assert forall i: nat | u <= i < b :: ReadIn(legs, i) == ReadIn(legs[1..], i);
      CollectedIsInboxCreated(mail, u, legs[1..], b);
      InboxCreatedSplits(mail, a, u, b);
    }
  }

  /** A delivery by these pages is exactly the Inbox mail of the stretch if and only if each message
      created in it is, when its page is read, where it was created. */
  lemma ExactlyWhenPlacesKept(mail: Log, a: nat, legs: seq<Leg>, b: nat)
    requires ProperIds(mail) && Path(mail, a, legs, b)
    ensures a <= b <= |mail|
    ensures Collected(mail, a, legs, b) == InboxCreated(mail, a, b) <==> KeptPlaces(mail, a, legs, b)
  {
    PathIsOrdered(mail, a, legs, b);
    if KeptPlaces(mail, a, legs, b) {
      CollectedIsInboxCreated(mail, a, legs, b);
    } else {
      var i: nat :| a <= i < b <= |mail| && mail[i].Created?
                    && !(ReadIn(legs, i) <= |mail|
                         && InboxAt(mail, ReadIn(legs, i), mail[i].message.id) == mail[i].inInbox);
      DeliveredIfInInbox(mail, a, legs, b, i);
      InboxCreatedHas(mail, a, b, i);
    }
  }

  /** No message created in the stretch is touched after its creation. */
  ghost predicate LeftAlone(mail: Log, a: nat, b: nat) {
    forall i, j | a <= i < b && i < j < |mail| && i < |mail| && mail[i].Created? ::
      !Touches(mail[j], mail[i].message.id)
  }

  lemma {:induction false} UntouchedKeepsItsPlace(mail: Log, i: nat, t: nat)
    requires i < t <= |mail| && mail[i].Created?
    requires forall j | i < j < t :: !Touches(mail[j], mail[i].message.id)
    ensures InboxAt(mail, t, mail[i].message.id) == mail[i].inInbox
  {
    if i < t - 1 {
      UntouchedKeepsItsPlace(mail, i, t - 1);
    }
  }

  /** What happens to a message after its page has been read does not matter. */
  lemma UntouchedUntilRead(mail: Log, a: nat, legs: seq<Leg>, b: nat)
    requires Path(mail, a, legs, b)
    requires forall i: nat, j: nat | a <= i < b && i < j < ReadIn(legs, i) && j < |mail| && mail[i].Created? ::
               !Touches(mail[j], mail[i].message.id)
    ensures KeptPlaces(mail, a, legs, b)
  {
    PathIsOrdered(mail, a, legs, b);
    forall i: nat | a <= i < b && mail[i].Created?
      ensures ReadIn(legs, i) <= |mail| && InboxAt(mail, ReadIn(legs, i), mail[i].message.id) == mail[i].inInbox
    {
      ReadAfterChange(mail, a, legs, b, i);
      UntouchedKeepsItsPlace(mail, i, ReadIn(legs, i));
    }
  }

  /** Change `i` created a message in the Inbox that nobody touched before its page was read. */
  ghost predicate LeftUntilRead(mail: Log, legs: seq<Leg>, i: nat) {
    && i < |mail| && mail[i].Created? && mail[i].inInbox
    && forall j | i < j < ReadIn(legs, i) && j < |mail| :: !Touches(mail[j], mail[i].message.id)
  }

  /** No such message created between `a` and `b` is missing from `ms`. */
  ghost predicate NoneMissed(mail: Log, a: nat, legs: seq<Leg>, b: nat, ms: seq<Message>) {
    forall i: nat | a <= i < b && LeftUntilRead(mail, legs, i) :: mail[i].message in ms
  }

  lemma {:induction false} LeftUntilReadIsCollected(mail: Log, a: nat, legs: seq<Leg>, b: nat, i: nat)
    requires Path(mail, a, legs, b) && a <= i < b && LeftUntilRead(mail, legs, i)
    ensures mail[i].message in Collected(mail, a, legs, b)
    decreases |legs|
  {
    if i < legs[0].upTo {
      CreatedInHas(mail, a, legs[0].upTo, i);
      UntouchedKeepsItsPlace(mail, i, legs[0].readAt);
      StillInboxHas(mail, CreatedIn(mail, a, legs[0].upTo), legs[0].readAt, mail[i].message);
    } else {
      LeftUntilReadIsCollected(mail, legs[0].upTo, legs[1..], b, i);
    }
  }

  /** A delivery misses no message of its stretch that is left alone until its page is read. */
  lemma DeliveryMissesNone(mail: Log, a: nat, legs: seq<Leg>, b: nat, ms: seq<Message>)
    requires ByPages(mail, a, legs, b, ms)
    ensures NoneMissed(mail, a, legs, b, ms)
  {
    forall i: nat | a <= i < b && LeftUntilRead(mail, legs, i) ensures mail[i].message in ms {
      LeftUntilReadIsCollected(mail, a, legs, b, i);
    }
  }

  /** When the messages of the stretch are left alone, whatever happens to others, a delivery is exactly
      the Inbox mail of the stretch, however the server split it into pages and whenever they were
      read. */
  lemma DeliveryIsExact(mail: Log, a: nat, b: nat, ms: seq<Message>)
    requires Delivery(mail, a, b, ms) && LeftAlone(mail, a, b)
    ensures a <= b <= |mail| && ms == InboxCreated(mail, a, b)
  {
    var legs :| Path(mail, a, legs, b) && ms == Collected(mail, a, legs, b);
    PathIsOrdered(mail, a, legs, b);
    forall i: nat | a <= i < b && mail[i].Created?
      ensures ReadIn(legs, i) <= |mail| && InboxAt(mail, ReadIn(legs, i), mail[i].message.id) == mail[i].inInbox
    {
      ReadAfterChange(mail, a, legs, b, i);
      UntouchedKeepsItsPlace(mail, i, ReadIn(legs, i));
    }
    CollectedIsInboxCreated(mail, a, legs, b);
  }
}
