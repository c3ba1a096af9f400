/** What one `Notifier.send` call does (snotify/core.py, lines 92-132), as functions
    of the registry, the fallback order, the arguments and the channels' outcomes.
    With an empty fallback order every registered channel is called in registration
    order and the first failure is re-raised (broadcast); otherwise the named channels
    are tried in the order given until one succeeds (fallback). */
module Dispatch {
  import opened Wrappers
  import opened Channels

  /** One element of `Notifier.channels`: `{"name": name, "channel": channel}`. */
  datatype Entry = Entry(name: string, channel: Channel)

  /** How `send` ends: it returns; it re-raises a channel's exception unchanged
      (broadcast mode only); or it raises RuntimeError(AllChannelsFailedMessage)
      (fallback mode only). */
  datatype Outcome = Sent | Raised(error: string) | AllChannelsFailed

  const AllChannelsFailedMessage: string := "All notification channels failed."

  /** The outcome of one `send` call together with the `channel.send` calls it made,
      in the order it made them. */
  datatype Campaign = Campaign(outcome: Outcome, trace: seq<Invocation>)

  /** The registered names, in registration order. */
  function Names(entries: seq<Entry>): seq<string>
  {
    seq(|entries|, i requires 0 <= i < |entries| => entries[i].name)
  }

  /** `next((ch for ch in self.channels if ch["name"] == name), None)`, as an index:
      the first entry carrying the name, or None when no entry does. */
  function FirstMatch(entries: seq<Entry>, name: string): (r: Option<nat>)
    ensures r.None? <==> forall i :: 0 <= i < |entries| ==> entries[i].name != name
    ensures r.Some? ==> r.value < |entries| && entries[r.value].name == name
    ensures r.Some? ==> forall i :: 0 <= i < r.value ==> entries[i].name != name
  {
    if entries == [] then None
    else if entries[0].name == name then Some(0)
    else match FirstMatch(entries[1..], name)
      case None => None
      case Some(i) => Some(i + 1)
  }

  /** The call `channel.send(message=message, recipients=recipients or channel.recipients)`. */
  function Invoke(entry: Entry, message: string, recipients: Option<seq<Recipient>>): Invocation
  {
    Invocation(entry.channel, message, ResolveRecipients(recipients, entry.channel))
  }

  /** The calls made to a run of entries, one each, in order. */
  function Invocations(entries: seq<Entry>, message: string, recipients: Option<seq<Recipient>>): seq<Invocation>
  {
    seq(|entries|, i requires 0 <= i < |entries| => Invoke(entries[i], message, recipients))
  }

  /** The campaign `c` preceded by the calls in `done`. */
  function Then(done: seq<Invocation>, c: Campaign): Campaign
  {
    Campaign(c.outcome, done + c.trace)
  }

  /** Broadcast mode over `entries`, `calls` being the number of `channel.send` calls
      already made in this campaign. */
  function Broadcast(entries: seq<Entry>, calls: nat, message: string,
                     recipients: Option<seq<Recipient>>, oracle: Oracle): (c: Campaign)
    ensures !c.outcome.AllChannelsFailed?
    ensures |c.trace| <= |entries|
    decreases |entries|
  {
    if entries == [] then Campaign(Sent, [])
    else
      var inv := Invoke(entries[0], message, recipients);
      match oracle(calls, inv)
      case Failed(e) => Campaign(Raised(e), [inv])
      case Delivered => Then([inv], Broadcast(entries[1..], calls + 1, message, recipients, oracle))
  }

  /** The channels a fallback order designates: each name resolved to its first
      registry entry, unregistered names dropped, order kept. */
  function ResolveOrder(entries: seq<Entry>, order: seq<string>): seq<Entry>
  {
    if order == [] then []
    else
      (match FirstMatch(entries, order[0])
       case None => []
       case Some(i) => [entries[i]])
      + ResolveOrder(entries, order[1..])
  }

  /** Fallback mode over the resolved candidates: stop at the first success, fail with
      AllChannelsFailed when they are exhausted. */
  function Fallback(candidates: seq<Entry>, calls: nat, message: string,
                    recipients: Option<seq<Recipient>>, oracle: Oracle): (c: Campaign)
    ensures !c.outcome.Raised?
    ensures |c.trace| <= |candidates|
    decreases |candidates|
  {
    if candidates == [] then Campaign(AllChannelsFailed, [])
    else
      var inv := Invoke(candidates[0], message, recipients);
      match oracle(calls, inv)
      case Delivered => Campaign(Sent, [inv])
      case Failed(_) => Then([inv], Fallback(candidates[1..], calls + 1, message, recipients, oracle))
  }

  /** One `send` call: broadcast when the fallback order is empty, fallback otherwise. */
  function Run(entries: seq<Entry>, order: seq<string>, message: string,
               recipients: Option<seq<Recipient>>, oracle: Oracle): (c: Campaign)
    ensures order == [] ==> !c.outcome.AllChannelsFailed?
    ensures order != [] ==> !c.outcome.Raised?
  {
    if order == [] then Broadcast(entries, 0, message, recipients, oracle)
    else Fallback(ResolveOrder(entries, order), 0, message, recipients, oracle)
  }

  /** The call to entries[i], made as the (calls + i)-th of the campaign, succeeds. */
  predicate DeliversAt(entries: seq<Entry>, calls: nat, i: nat, message: string,
                       recipients: Option<seq<Recipient>>, oracle: Oracle)
    requires i < |entries|
  {
    oracle(calls + i, Invoke(entries[i], message, recipients)) == Delivered
  }

  /** The i-th call of a trace, made as the (calls + i)-th of the campaign, failed. */
  predicate FailedAt(trace: seq<Invocation>, calls: nat, i: nat, oracle: Oracle)
    requires i < |trace|
  {
    oracle(calls + i, trace[i]).Failed?
  }

  lemma FailedAtShift(inv: Invocation, trace: seq<Invocation>, calls: nat, i: nat, oracle: Oracle)
    requires 0 < i < |trace| + 1
    ensures FailedAt([inv] + trace, calls, i, oracle) == FailedAt(trace, calls + 1, i - 1, oracle)
  {
    assert ([inv] + trace)[i] == trace[i - 1];
  }

  lemma InvocationsPrefix(entries: seq<Entry>, k: nat, message: string, recipients: Option<seq<Recipient>>)
    requires 1 <= k <= |entries|
    ensures [Invoke(entries[0], message, recipients)] + Invocations(entries[1..][..k - 1], message, recipients)
            == Invocations(entries[..k], message, recipients)
  {
  }

  /** Broadcast calls registered channels in registration order, each at most once:
      its calls are those of the first |trace| entries. */
  lemma {:induction false} BroadcastTrace(entries: seq<Entry>, calls: nat, message: string,
                                          recipients: Option<seq<Recipient>>, oracle: Oracle)
    ensures var c := Broadcast(entries, calls, message, recipients, oracle);
      |c.trace| <= |entries| && c.trace == Invocations(entries[..|c.trace|], message, recipients)
    decreases |entries|
  {
    if entries != [] {
      var c := Broadcast(entries, calls, message, recipients, oracle);
      if oracle(calls, Invoke(entries[0], message, recipients)).Failed? {
        assert c.trace == Invocations(entries[..1], message, recipients);
      } else {
        BroadcastTrace(entries[1..], calls + 1, message, recipients, oracle);
        InvocationsPrefix(entries, |c.trace|, message, recipients);
      }
    }
  }

  /** Broadcast succeeds exactly when every registered channel does (trivially with
      none registered), and then it has called every one; it never reports
      AllChannelsFailed. */
  lemma {:induction false} BroadcastSucceedsIffAllDeliver(entries: seq<Entry>, calls: nat, message: string,
                                                          recipients: Option<seq<Recipient>>, oracle: Oracle)
    ensures var c := Broadcast(entries, calls, message, recipients, oracle);
      && !c.outcome.AllChannelsFailed?
      && (c.outcome == Sent <==>
            forall i :: 0 <= i < |entries| ==> DeliversAt(entries, calls, i, message, recipients, oracle))
      && (c.outcome == Sent ==> |c.trace| == |entries|)
    decreases |entries|
  {
    if entries != [] && DeliversAt(entries, calls, 0, message, recipients, oracle) {
      var rest, next := entries[1..], calls + 1;
      assert oracle(calls, Invoke(entries[0], message, recipients)) == Delivered;
      assert Broadcast(entries, calls, message, recipients, oracle).outcome
             == Broadcast(rest, next, message, recipients, oracle).outcome;
      BroadcastSucceedsIffAllDeliver(rest, next, message, recipients, oracle);
      forall j | 0 <= j < |rest|
        ensures DeliversAt(rest, next, j, message, recipients, oracle)
                == DeliversAt(entries, calls, j + 1, message, recipients, oracle)
      {
        assert rest[j] == entries[j + 1];
      }
      if !forall i :: 0 <= i < |entries| ==> DeliversAt(entries, calls, i, message, recipients, oracle) {
        var i :| 0 <= i < |entries| && !DeliversAt(entries, calls, i, message, recipients, oracle);
        assert !DeliversAt(rest, next, i - 1, message, recipients, oracle);
      }
    }
  }

  /** A failing broadcast stops at the first failure: the last call it made failed
      with the very error it raises, and every call before it succeeded. */
  lemma {:induction false} BroadcastFailsFast(entries: seq<Entry>, calls: nat, message: string,
                                              recipients: Option<seq<Recipient>>, oracle: Oracle)
    ensures var c := Broadcast(entries, calls, message, recipients, oracle);
      c.outcome.Raised? ==>
        && |c.trace| >= 1
        && oracle(calls + |c.trace| - 1, c.trace[|c.trace| - 1]) == Failed(c.outcome.error)
        && forall i :: 0 <= i < |c.trace| - 1 ==> !FailedAt(c.trace, calls, i, oracle)
    decreases |entries|
  {
    if entries != [] && oracle(calls, Invoke(entries[0], message, recipients)) == Delivered {
      var inv := Invoke(entries[0], message, recipients);
      var next := calls + 1;
      var c' := Broadcast(entries[1..], next, message, recipients, oracle);
      BroadcastFailsFast(entries[1..], next, message, recipients, oracle);
      var c := Broadcast(entries, calls, message, recipients, oracle);
      assert c.trace == [inv] + c'.trace;
      forall i | 0 < i < |c.trace|
        ensures FailedAt(c.trace, calls, i, oracle) == FailedAt(c'.trace, next, i - 1, oracle)
      {
        FailedAtShift(inv, c'.trace, calls, i, oracle);
      }
    }
  }

  /** Fallback calls the resolved candidates in order, each at most once: its calls
      are those of the first |trace| candidates. */
  lemma {:induction false} FallbackTrace(candidates: seq<Entry>, calls: nat, message: string,
                                         recipients: Option<seq<Recipient>>, oracle: Oracle)
    ensures var c := Fallback(candidates, calls, message, recipients, oracle);
      |c.trace| <= |candidates| && c.trace == Invocations(candidates[..|c.trace|], message, recipients)
    decreases |candidates|
  {
    if candidates != [] {
      var c := Fallback(candidates, calls, message, recipients, oracle);
      if oracle(calls, Invoke(candidates[0], message, recipients)) == Delivered {
        assert c.trace == Invocations(candidates[..1], message, recipients);
      } else {
        FallbackTrace(candidates[1..], calls + 1, message, recipients, oracle);
        InvocationsPrefix(candidates, |c.trace|, message, recipients);
      }
    }
  }

  /** Fallback stops at the first success: every call but the last failed; it
      succeeds exactly when its last call succeeded; when it fails, it has called
      every candidate and each of them failed; it never re-raises a channel's error. */
  lemma {:induction false} FallbackStopsAtFirstSuccess(candidates: seq<Entry>, calls: nat, message: string,
                                                       recipients: Option<seq<Recipient>>, oracle: Oracle)
    ensures var c := Fallback(candidates, calls, message, recipients, oracle);
      && !c.outcome.Raised?
      && (forall i :: 0 <= i < |c.trace| - 1 ==> FailedAt(c.trace, calls, i, oracle))
      && (c.outcome == Sent <==> |c.trace| >= 1 && !FailedAt(c.trace, calls, |c.trace| - 1, oracle))
      && (c.outcome == AllChannelsFailed ==>
            |c.trace| == |candidates| && forall i :: 0 <= i < |c.trace| ==> FailedAt(c.trace, calls, i, oracle))
    decreases |candidates|
  {
    if candidates != [] && oracle(calls, Invoke(candidates[0], message, recipients)).Failed? {
      var inv := Invoke(candidates[0], message, recipients);
      var next := calls + 1;
      var c' := Fallback(candidates[1..], next, message, recipients, oracle);
      FallbackStopsAtFirstSuccess(candidates[1..], next, message, recipients, oracle);
      var c := Fallback(candidates, calls, message, recipients, oracle);
      assert c.trace == [inv] + c'.trace;
      forall i | 0 < i < |c.trace|
        ensures FailedAt(c.trace, calls, i, oracle) == FailedAt(c'.trace, next, i - 1, oracle)
      {
        FailedAtShift(inv, c'.trace, calls, i, oracle);
      }
      assert FailedAt(c.trace, calls, 0, oracle);
      if c.outcome == AllChannelsFailed {
        FallbackTrace(candidates[1..], next, message, recipients, oracle);
      }
    }
  }

  /** Fallback succeeds exactly when some candidate's call would succeed at its turn. */
  lemma {:induction false} FallbackSucceedsIffSomeDelivers(candidates: seq<Entry>, calls: nat, message: string,
                                                           recipients: Option<seq<Recipient>>, oracle: Oracle)
    ensures Fallback(candidates, calls, message, recipients, oracle).outcome == Sent <==>
            exists i :: 0 <= i < |candidates| && DeliversAt(candidates, calls, i, message, recipients, oracle)
    decreases |candidates|
  {
    if candidates != [] {
      var rest, next := candidates[1..], calls + 1;
      FallbackSucceedsIffSomeDelivers(rest, next, message, recipients, oracle);
      forall i | 0 < i < |candidates|
        ensures DeliversAt(candidates, calls, i, message, recipients, oracle)
                == DeliversAt(rest, next, i - 1, message, recipients, oracle)
      {
        assert candidates[i] == rest[i - 1];
      }
      if DeliversAt(candidates, calls, 0, message, recipients, oracle) {
        assert Fallback(candidates, calls, message, recipients, oracle).outcome == Sent;
      } else if exists j :: 0 <= j < |rest| && DeliversAt(rest, next, j, message, recipients, oracle) {
        var j :| 0 <= j < |rest| && DeliversAt(rest, next, j, message, recipients, oracle);
        assert DeliversAt(candidates, calls, j + 1, message, recipients, oracle);
      }
    }
  }

  /** Resolving a concatenated order resolves each part on its own: names are handled
      one at a time and in order. */
  lemma {:induction false} ResolveOrderAppend(entries: seq<Entry>, first: seq<string>, second: seq<string>)
    ensures ResolveOrder(entries, first + second) == ResolveOrder(entries, first) + ResolveOrder(entries, second)
    decreases |first|
  {
    if first == [] {
      assert first + second == second;
    } else {
      assert (first + second)[0] == first[0];
      assert (first + second)[1..] == first[1..] + second;
      ResolveOrderAppend(entries, first[1..], second);
    }
  }

  /** Every resolved candidate is the first registry entry bearing a name of the order;
      there are no more candidates than names; an order none of whose names is
      registered resolves to nothing; an order whose names are all registered resolves
      name by name, in order. */
  lemma {:induction false} ResolveOrderFirstMatches(entries: seq<Entry>, order: seq<string>)
    ensures var r := ResolveOrder(entries, order);
      && |r| <= |order|
      && (forall k :: 0 <= k < |r| ==>
            r[k].name in order && FirstMatch(entries, r[k].name).Some?
            && r[k] == entries[FirstMatch(entries, r[k].name).value])
      && ((forall k :: 0 <= k < |order| ==> FirstMatch(entries, order[k]).None?) ==> r == [])
      && ((forall k :: 0 <= k < |order| ==> FirstMatch(entries, order[k]).Some?) ==>
            |r| == |order| && forall k :: 0 <= k < |order| ==> r[k].name == order[k])
    decreases |order|
  {
    if order != [] {
      var r := ResolveOrder(entries, order);
      var tail := ResolveOrder(entries, order[1..]);
      ResolveOrderFirstMatches(entries, order[1..]);
      var head := match FirstMatch(entries, order[0]) case None => [] case Some(i) => [entries[i]];
      assert r == head + tail;
      forall k | 0 <= k < |tail|
        ensures tail[k].name in order
      {
        assert tail[k].name in order[1..];
      }
      if forall k :: 0 <= k < |order| ==> FirstMatch(entries, order[k]).None? {
        assert FirstMatch(entries, order[0]).None?;
        forall k | 0 <= k < |order[1..]|
          ensures FirstMatch(entries, order[1..][k]).None?
        {
          assert order[1..][k] == order[k + 1];
        }
      }
      if forall k :: 0 <= k < |order| ==> FirstMatch(entries, order[k]).Some? {
        assert FirstMatch(entries, order[0]).Some?;
        forall k | 0 <= k < |order[1..]|
          ensures FirstMatch(entries, order[1..][k]).Some?
        {
          assert order[1..][k] == order[k + 1];
        }
        assert |head| == 1 && head[0].name == order[0];
        forall k | 0 <= k < |order|
          ensures r[k].name == order[k]
        {
          if k > 0 {
            assert r[k] == tail[k - 1] && order[k] == order[1..][k - 1];
          }
        }
      }
    }
  }

  /** Every call a campaign makes passes the message unchanged, and passes the
      explicit recipient list when it is non-empty, the called channel's own default
      list otherwise (an omitted or an empty list alike). */
  lemma RunPassesMessageAndRecipients(entries: seq<Entry>, order: seq<string>, message: string,
                                      recipients: Option<seq<Recipient>>, oracle: Oracle)
    ensures var c := Run(entries, order, message, recipients, oracle);
      forall k :: 0 <= k < |c.trace| ==>
        && c.trace[k].message == message
        && (recipients.Some? && recipients.value != [] ==> c.trace[k].recipients == recipients.value)
        && (recipients.None? || recipients.value == [] ==> c.trace[k].recipients == c.trace[k].channel.recipients)
  {
    if order == [] {
      BroadcastTrace(entries, 0, message, recipients, oracle);
    } else {
      FallbackTrace(ResolveOrder(entries, order), 0, message, recipients, oracle);
    }
  }

  /** In fallback mode every called channel is the first registered entry bearing a
      name of the order. */
  lemma RunFallbackCallsFirstMatches(entries: seq<Entry>, order: seq<string>, message: string,
                                     recipients: Option<seq<Recipient>>, oracle: Oracle)
    requires order != []
    ensures var c := Run(entries, order, message, recipients, oracle);
      forall k :: 0 <= k < |c.trace| ==>
        exists name :: name in order && FirstMatch(entries, name).Some?
                       && c.trace[k].channel == entries[FirstMatch(entries, name).value].channel
  {
    var candidates := ResolveOrder(entries, order);
    var c := Run(entries, order, message, recipients, oracle);
    FallbackTrace(candidates, 0, message, recipients, oracle);
    ResolveOrderFirstMatches(entries, order);
    forall k | 0 <= k < |c.trace|
      ensures exists name :: name in order && FirstMatch(entries, name).Some?
                             && c.trace[k].channel == entries[FirstMatch(entries, name).value].channel
    {
      var name := candidates[k].name;
      assert c.trace[k].channel == candidates[k].channel;
      assert name in order && FirstMatch(entries, name).Some?;
    }
  }

  /** A non-empty fallback order none of whose names is registered makes `send` fail
      with AllChannelsFailed without calling any channel. */
  lemma UnresolvableOrderFails(entries: seq<Entry>, order: seq<string>, message: string,
                               recipients: Option<seq<Recipient>>, oracle: Oracle)
    requires order != []
    requires forall k :: 0 <= k < |order| ==> FirstMatch(entries, order[k]).None?
    ensures Run(entries, order, message, recipients, oracle) == Campaign(AllChannelsFailed, [])
  {
    ResolveOrderFirstMatches(entries, order);
  }

  /** Resolving the suffix of an order that starts at position j: the name at j
      contributes its first match, if any, ahead of the rest. */
  lemma ResolveOrderStep(entries: seq<Entry>, order: seq<string>, j: nat)
    requires j < |order|
    ensures ResolveOrder(entries, order[j..])
            == (match FirstMatch(entries, order[j]) case None => [] case Some(i) => [entries[i]])
               + ResolveOrder(entries, order[j + 1..])
  {
    assert order[j..][0] == order[j] && order[j..][1..] == order[j + 1..];
  }

  /** After the calls in `done`, fallback over the order from position j completes the
      campaign `goal`: the loop invariant of the fallback branch of `send`. */
  ghost predicate FallbackResumes(goal: Campaign, entries: seq<Entry>, order: seq<string>, j: nat,
                                  done: seq<Invocation>, message: string,
                                  recipients: Option<seq<Recipient>>, oracle: Oracle)
    requires j <= |order|
  {
    goal == Then(done, Fallback(ResolveOrder(entries, order[j..]), |done|, message, recipients, oracle))
  }

  /** Fallback over the order from position j skips an unregistered name at j. */
  lemma FallbackSkipsUnregistered(goal: Campaign, entries: seq<Entry>, order: seq<string>, j: nat,
                                  done: seq<Invocation>, message: string,
                                  recipients: Option<seq<Recipient>>, oracle: Oracle)
    requires j < |order| && FirstMatch(entries, order[j]).None?
    requires FallbackResumes(goal, entries, order, j, done, message, recipients, oracle)
    ensures FallbackResumes(goal, entries, order, j + 1, done, message, recipients, oracle)
  {
    ResolveOrderStep(entries, order, j);
    assert [] + ResolveOrder(entries, order[j + 1..]) == ResolveOrder(entries, order[j + 1..]);
  }

  /** Fallback over the order from position j ends with the call to the first match of
      the name at j when that call succeeds. */
  lemma FallbackStopsAtSuccess(goal: Campaign, entries: seq<Entry>, order: seq<string>, j: nat,
                               done: seq<Invocation>, message: string,
                               recipients: Option<seq<Recipient>>, oracle: Oracle)
    requires j < |order| && FirstMatch(entries, order[j]).Some?
    requires oracle(|done|, Invoke(entries[FirstMatch(entries, order[j]).value], message, recipients)) == Delivered
    requires FallbackResumes(goal, entries, order, j, done, message, recipients, oracle)
    ensures goal == Campaign(Sent, done + [Invoke(entries[FirstMatch(entries, order[j]).value], message, recipients)])
  {
    ResolveOrderStep(entries, order, j);
  }

  /** Fallback over the order from position j goes on with the names after j once the
      call to the first match of the name at j has failed. */
  lemma FallbackContinuesAfterFailure(goal: Campaign, entries: seq<Entry>, order: seq<string>, j: nat,
                                      done: seq<Invocation>, message: string,
                                      recipients: Option<seq<Recipient>>, oracle: Oracle)
    requires j < |order| && FirstMatch(entries, order[j]).Some?
    requires oracle(|done|, Invoke(entries[FirstMatch(entries, order[j]).value], message, recipients)).Failed?
    requires FallbackResumes(goal, entries, order, j, done, message, recipients, oracle)
    ensures FallbackResumes(goal, entries, order, j + 1,
                            done + [Invoke(entries[FirstMatch(entries, order[j]).value], message, recipients)],
                            message, recipients, oracle)
  {
    var e := entries[FirstMatch(entries, order[j]).value];
    var call := Invoke(e, message, recipients);
    var rest := ResolveOrder(entries, order[j + 1..]);
    ResolveOrderStep(entries, order, j);
    assert ResolveOrder(entries, order[j..]) == [e] + rest;
    assert ([e] + rest)[1..] == rest;
    var tail := Fallback(rest, |done| + 1, message, recipients, oracle);
    assert Fallback([e] + rest, |done|, message, recipients, oracle) == Then([call], tail);
    assert |done + [call]| == |done| + 1;
    assert done + [call] + tail.trace == done + ([call] + tail.trace);
  }

  /** A successful call in broadcast mode leaves the rest of the campaign to the
      remaining entries. */
  lemma BroadcastStep(done: seq<Invocation>, entries: seq<Entry>, calls: nat, message: string,
                      recipients: Option<seq<Recipient>>, oracle: Oracle)
    requires entries != []
    requires oracle(calls, Invoke(entries[0], message, recipients)) == Delivered
    ensures Then(done, Broadcast(entries, calls, message, recipients, oracle))
            == Then(done + [Invoke(entries[0], message, recipients)],
                    Broadcast(entries[1..], calls + 1, message, recipients, oracle))
  {
    var call := Invoke(entries[0], message, recipients);
    var rest := Broadcast(entries[1..], calls + 1, message, recipients, oracle);
    assert done + [call] + rest.trace == done + ([call] + rest.trace);
  }
}
