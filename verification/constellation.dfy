/**
  Mailbox routing between ground stations and CubeSats.

  A ground station posts messages into a shared mailbox; a satellite asks the
  mailbox for the first pending message addressed to its id, which is removed
  and handed over. `Route` is the reference definition of one delivery; the
  mailbox's `Deliver` loop is proved to compute exactly it, and the lemmas
  below state what a delivery promises (first match wins, order of the rest
  kept, a miss changes nothing, post and deliver cancel, FIFO per recipient).
*/
module Constellation {

  /** Satellite ids are unsigned 64-bit integers. */
  type U64 = x: int | 0 <= x < 0x1_0000_0000_0000_0000

  datatype Option<T> = None | Some(value: T)

  /** A message addressed to the satellite whose id is `to`. */
  datatype Message = Message(to: U64, content: string)

  /** The outcome of one delivery: the message handed over, if any, and the
      messages left in the mailbox. */
  datatype Routed = Routed(msg: Option<Message>, rest: seq<Message>)

  /** No pending message in `s` is addressed to `id`. */
  predicate NoneFor(s: seq<Message>, id: U64)
  {
    forall j :: 0 <= j < |s| ==> s[j].to != id
  }

  /** Reference definition of a delivery for recipient `id`: the earliest
      message addressed to `id` is taken out, everything else stays in order. */
  function Route(s: seq<Message>, id: U64): (r: Routed)
    ensures r.msg.None? <==> NoneFor(s, id)
    ensures r.msg.None? ==> r.rest == s
    ensures r.msg.Some? ==> r.msg.value.to == id && |r.rest| == |s| - 1
    ensures multiset(s) == multiset(r.rest) + (if r.msg.Some? then multiset{r.msg.value} else multiset{})
    decreases |s|
  {
    if s == [] then Routed(None, [])
    else
      assert s == [s[0]] + s[1..];
      if s[0].to == id then Routed(Some(s[0]), s[1..])
      else
        var t := Route(s[1..], id);
        Routed(t.msg, [s[0]] + t.rest)
  }

  /** When index `i` holds the earliest message for `id`, delivery hands over
      exactly that message and removes exactly that element. */
  lemma {:induction false} RouteAt(s: seq<Message>, id: U64, i: nat)
    requires i < |s| && s[i].to == id
    requires NoneFor(s[..i], id)
    ensures Route(s, id) == Routed(Some(s[i]), s[..i] + s[i + 1..])
  {
    if i > 0 {
      assert s[0] == s[..i][0];
      assert s[1..][..i - 1] == s[1..i];
      RouteAt(s[1..], id, i - 1);
      assert [s[0]] + (s[1..][..i - 1] + s[1..][i..]) == s[..i] + s[i + 1..];
    }
  }

  /** Messages for other recipients that sit in front of the mailbox are
      skipped over and kept in front. */
  lemma {:induction false} RouteSkips(s: seq<Message>, t: seq<Message>, id: U64)
    requires NoneFor(s, id)
    ensures Route(s + t, id) == Routed(Route(t, id).msg, s + Route(t, id).rest)
  {
    if s != [] {
      var st := s + t;
      assert st[0] == s[0] && st[0].to != id;
      assert st[1..] == s[1..] + t;
      RouteSkips(s[1..], t, id);
      var u := Route(t, id);
      assert Route(st, id) == Routed(u.msg, [s[0]] + (s[1..] + u.rest));
      assert [s[0]] + (s[1..] + u.rest) == s + u.rest;
    } else {
      assert s + t == t;
    }
  }

  /** Posting a message to a recipient that has nothing pending, then
      delivering for it, hands back that message and restores the mailbox. */
  lemma {:induction false} PostThenDeliver(s: seq<Message>, m: Message)
    requires NoneFor(s, m.to)
    ensures Route(s + [m], m.to) == Routed(Some(m), s)
  {
    RouteSkips(s, [m], m.to);
  }

  /** Delivery for `m.to` passes over a front part with nothing for it and
      takes `m`, leaving what was before and after `m` in order. */
  lemma {:induction false} SkipThenHit(s: seq<Message>, m: Message, u: seq<Message>)
    requires NoneFor(s, m.to)
    ensures Route(s + [m] + u, m.to) == Routed(Some(m), s + u)
  {
    var head := [m] + u;
    assert head[0] == m && head[1..] == u;
    RouteSkips(s, head, m.to);
    assert s + [m] + u == s + head;
  }

  /** Two stretches with no message for `id` make one. */
  lemma NoneForJoin(s: seq<Message>, t: seq<Message>, id: U64)
    requires NoneFor(s, id) && NoneFor(t, id)
    ensures NoneFor(s + t, id)
  {
    forall j | 0 <= j < |s + t| ensures (s + t)[j].to != id {
      if j >= |s| { assert (s + t)[j] == t[j - |s|]; }
    }
  }

  /** FIFO per recipient: two messages posted to the same id in order come
      out in that order, whatever messages for other ids were posted between
      them, and a third delivery finds nothing. */
  lemma {:induction false} FifoPerRecipient(s: seq<Message>, m1: Message, t: seq<Message>, m2: Message)
    requires m1.to == m2.to && NoneFor(s, m1.to) && NoneFor(t, m1.to)
    ensures Route(s + [m1] + t + [m2], m1.to) == Routed(Some(m1), s + t + [m2])
    ensures Route(s + t + [m2], m1.to) == Routed(Some(m2), s + t)
    ensures Route(s + t, m1.to) == Routed(None, s + t)
  {
    var k := m1.to;
    SkipThenHit(s, m1, t + [m2]);
    assert s + [m1] + t + [m2] == s + [m1] + (t + [m2]);
    assert s + (t + [m2]) == s + t + [m2];
    NoneForJoin(s, t, k);
    PostThenDeliver(s + t, m2);
  }

  /** The shared store of pending messages, in the order they were posted. */
  class Mailbox {
    var messages: seq<Message>

    constructor (messages: seq<Message>)
      ensures this.messages == messages
    {
      this.messages := messages;
    }

    /** Appends `msg` behind every pending message. */
    method Post(msg: Message)
      modifies this
      ensures messages == old(messages) + [msg]
    {
      messages := messages + [msg];
    }

    /** Scans from the front for the first message addressed to the
        recipient; removes and returns it, or returns None. */
    method Deliver(recipient: CubeSat) returns (r: Option<Message>)
      modifies this
      ensures Routed(r, messages) == Route(old(messages), recipient.id)
    {
      for i := 0 to |messages|
        invariant messages == old(messages)
        invariant NoneFor(messages[..i], recipient.id)
      {
        if messages[i].to == recipient.id {
          RouteAt(messages, recipient.id, i);
          var msg := messages[i];
          messages := messages[..i] + messages[i + 1..];
          return Some(msg);
        }
      }
      assert messages[..|messages|] == messages;
      return None;
    }
  }

  /** A satellite is a copyable identity token. */
  datatype CubeSat = CubeSat(id: U64)
  {
    /** Receiving is delivery from the given mailbox for this satellite. */
    method Recv(mailbox: Mailbox) returns (r: Option<Message>)
      modifies mailbox
      ensures Routed(r, mailbox.messages) == Route(old(mailbox.messages), id)
    {
      r := mailbox.Deliver(this);
    }
  }

  /** A ground station produces satellites by id and posts messages. */
  class GroundStation {
    var radioFreq: real

    constructor (radioFreq: real)
      ensures this.radioFreq == radioFreq
    {
      this.radioFreq := radioFreq;
    }

    /** A handle on the satellite with the given id. */
    function Connect(satId: U64): (sat: CubeSat)
      ensures sat.id == satId
    {
      CubeSat(satId)
    }

    /** Sending is posting to the mailbox; the station itself is untouched. */
    method Send(mailbox: Mailbox, msg: Message)
      modifies mailbox
      ensures mailbox.messages == old(mailbox.messages) + [msg]
      ensures unchanged(this)
    {
      mailbox.Post(msg);
    }
  }

  /** A station sends "hello" to satellites 1, 2 and 3 in turn through an
      empty mailbox; each satellite then receives its own greeting. A final
      receive for satellite 1, beyond those of the program's driver, finds
      nothing. */
  method HelloRound() returns (received: seq<Option<Message>>, again: Option<Message>)
    ensures received == [Some(Message(1, "hello")), Some(Message(2, "hello")), Some(Message(3, "hello"))]
    ensures again == None
  {
    var mail := new Mailbox([]);
    var base := new GroundStation(87.65);
    var m1, m2, m3 := Message(1, "hello"), Message(2, "hello"), Message(3, "hello");
    base.Send(mail, m1);
    base.Send(mail, m2);
    base.Send(mail, m3);
    assert mail.messages == [m1, m2, m3];

    RouteAt([m1, m2, m3], 1, 0);
    var r1 := base.Connect(1).Recv(mail);
    RouteAt([m2, m3], 2, 0);
    var r2 := base.Connect(2).Recv(mail);
    RouteAt([m3], 3, 0);
    var r3 := base.Connect(3).Recv(mail);
    received := [r1, r2, r3];
    again := base.Connect(1).Recv(mail);
  }
}
