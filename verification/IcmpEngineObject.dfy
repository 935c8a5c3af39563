/** The engine object: its maps and channels on the heap, and one method per
    critical section, each proved against its function in IcmpEngine.  A channel
    may be closed once only; that is the precondition of Close, so closing one
    twice cannot happen here. */
module IcmpEngineObject {
  import opened Text
  import opened Words
  import opened IcmpEngine

  /** The channel one call waits on, named by that call. */
  class Channel {
    const call: nat
    var closed: bool

    constructor (call: nat)
      ensures this.call == call && !closed
    {
      this.call, closed := call, false;
    }

    method Close()
      requires !closed
      modifies this
      ensures closed
    {
      closed := true;
    }
  }

  class MtrIcmpEngine {
    const timeout: int
    var seqCounter: nat
    var roundID: nat
    var knownFinal: int
    var sentAt: map<nat, ProbeMeta>
    var replied: map<nat, Reply>
    var notify: map<nat, Channel>
    ghost var closed: set<nat>

    /** Every channel that may still be closed is open, and kept once. */
    ghost predicate Valid()
      reads this, notify.Values
    {
      && (forall num :: num in notify ==> !notify[num].closed)
      && (forall a, b :: a in notify && b in notify && notify[a] == notify[b] ==> a == b)
    }

    ghost function Abs(): Engine
      reads this, notify.Values
    {
      Engine(seqCounter, roundID, knownFinal, sentAt, replied, map num | num in notify :: notify[num].call, closed)
    }

    constructor (timeout: int)
      ensures Valid() && Abs() == FRESH && this.timeout == timeout
    {
      this.timeout := timeout;
      seqCounter, roundID, knownFinal := 0, 0, -1;
      sentAt, replied, notify := map[], map[], map[];
      closed := {};
    }

    method TakeNumber() returns (num: nat)
      modifies this`seqCounter
      ensures Abs() == old(Abs()).(seqCounter := NextCounter(old(seqCounter)))
      ensures num == seqCounter % 0x10000
    {
      seqCounter := (seqCounter + 1) % WORD;
      num := seqCounter % 0x10000;
    }

    method CloseProbeNotify(num: nat)
      requires Valid()
      modifies this`notify, this`closed, notify.Values
      ensures Valid() && notify == old(notify) - {num}
      ensures Abs() == CloseNotify(old(Abs()), num)
    {
      if num in notify {
        notify[num].Close();
        closed := closed + {notify[num].call};
        notify := notify - {num};
      }
    }

    method DiscardProbe(num: nat)
      requires Valid()
      modifies this`sentAt, this`notify, this`closed, notify.Values
      ensures Valid() && notify == old(notify) - {num}
      ensures Abs() == Discard(old(Abs()), num)
    {
      sentAt := sentAt - {num};
      CloseProbeNotify(num);
    }

    method StoreProbeReply(num: nat, reply: Reply)
      requires Valid()
      modifies this`sentAt, this`replied, this`notify, this`closed, notify.Values
      ensures Valid() && notify == old(notify) - {num}
      ensures Abs() == StoreReply(old(Abs()), num, reply)
    {
      replied := replied[num := reply];
      sentAt := sentAt - {num};
      CloseProbeNotify(num);
    }

    method OnIcmpReply(num: nat, peer: string, finish: int, mpls: seq<string>)
      requires Valid()
      modifies this`sentAt, this`replied, this`notify, this`closed, notify.Values
      ensures Valid()
      ensures Abs() == OnIcmp(old(Abs()), num, peer, finish, mpls, timeout)
    {
      if num !in sentAt { return; }
      var meta := sentAt[num];
      if meta.round != roundID {
        DiscardProbe(num);
        return;
      }
      var rtt := finish - meta.start;
      if !ValidProbeRtt(rtt, timeout) {
        DiscardProbe(num);
        return;
      }
      StoreProbeReply(num, Reply(peer, rtt, mpls, meta));
    }

    /** What a call does before it sends; its number must not be in use by an
        open channel of its own, which is new. */
    method RegisterProbe(num: nat, meta: ProbeMeta) returns (done: Channel)
      requires Valid()
      modifies this`sentAt, this`notify
      ensures Valid() && fresh(done) && num in notify && notify[num] == done
      ensures Abs() == Register(old(Abs()), num, meta)
    {
      done := new Channel(meta.owner);
      sentAt := sentAt[num := meta];
      notify := notify[num := done];
    }

    method MarkSent(num: nat, start: int, owner: nat)
      modifies this`sentAt
      ensures Abs() == SetStart(old(Abs()), num, start, owner)
    {
      if num in sentAt {
        sentAt := sentAt[num := sentAt[num].(start := start, timedBy := owner)];
      }
    }

    method TakeProbeReply(num: nat) returns (reply: Option<Reply>)
      modifies this`replied
      ensures Abs() == TakeReply(old(Abs()), num)
      ensures reply == if num in old(replied) then Some(old(replied)[num]) else None
    {
      reply := None;
      if num in replied {
        reply := Some(replied[num]);
      }
      replied := replied - {num};
    }

    /** The timer or the context ended the wait: the channel stays open. */
    method ForgetProbe(num: nat)
      requires Valid()
      modifies this`sentAt, this`notify
      ensures Valid() && Abs() == Forget(old(Abs()), num)
    {
      sentAt := sentAt - {num};
      notify := notify - {num};
    }

    /** Wakes up every waiting call and empties the maps. */
    method WakeAll()
      requires Valid()
      modifies this`sentAt, this`replied, this`notify, this`closed, notify.Values
      ensures Valid() && Abs() == ClearAll(old(Abs()))
    {
      ghost var all, was := notify, closed;
      NoneClosed(all);
      while notify != map[]
        invariant Valid() && notify.Keys <= all.Keys && forall num :: num in notify ==> notify[num] == all[num]
        invariant closed == was + CallsOf(all, notify.Keys)
        invariant sentAt == old(sentAt) && replied == old(replied)
        decreases notify.Keys
      {
        KeysOf(notify);
        var num :| num in notify;
        OneMoreClosed(all, notify.Keys, num);
        closed := closed + {notify[num].call};
        CloseAndDrop(num);
      }
      sentAt, replied := map[], map[];
      AllClosed(all);
      assert notify.Keys == {};
      assert Abs().notify == map[];
      assert closed == old(closed) + old(Abs().notify.Values);
    }

    method CloseAndDrop(num: nat)
      requires Valid() && num in notify
      modifies this`notify, notify[num]
      ensures Valid() && notify == old(notify) - {num}
    {
      notify[num].Close();
      notify := notify - {num};
    }

    method RequestReset()
      modifies this`knownFinal, this`roundID
      ensures Abs() == old(Abs()).(knownFinal := -1, roundID := (old(roundID) + 1) % WORD)
    {
      knownFinal := -1;
      roundID := (roundID + 1) % WORD;
    }
  }

  /** The calls whose channel is kept in all but not in rest. */
  ghost function CallsOf(all: map<nat, Channel>, rest: set<nat>): set<nat> {
    set num | num in all && num !in rest :: all[num].call
  }

  lemma NoneClosed(all: map<nat, Channel>)
    ensures CallsOf(all, all.Keys) == {}
  {
  }

  lemma OneMoreClosed(all: map<nat, Channel>, rest: set<nat>, num: nat)
    requires num in rest && num in all
    ensures CallsOf(all, rest - {num}) == CallsOf(all, rest) + {all[num].call}
  {
  }

  lemma AllClosed(all: map<nat, Channel>)
    ensures CallsOf(all, {}) == (map num | num in all :: all[num].call).Values
  {
    var names := map num | num in all :: all[num].call;
    forall c | c in CallsOf(all, {}) ensures c in names.Values {
      var num :| num in all && all[num].call == c;
      assert names[num] == c;
    }
  }

  lemma KeysOf(m: map<nat, Channel>)
    requires m != map[]
    ensures exists k :: k in m
  {
    assert (forall k :: k !in m) ==> m == map[];
  }
}
