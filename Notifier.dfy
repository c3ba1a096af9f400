/** The dispatch engine `Notifier` (snotify/core.py, lines 30-132): a registry of
    named channels and a fallback order, both updated in place, and the `send`
    algorithm that walks them. */
module Core {
  import opened Wrappers
  import opened Channels
  import opened Naming
  import opened Dispatch

  /** The exception `validate_config()` raised, which `add_channel` lets through. */
  datatype ConfigurationError = ConfigurationError(message: string)

  /** The name `add_channel` registers: the explicit one verbatim, else a derived one. */
  function ChosenName(registered: seq<Entry>, channel: Channel, name: Option<string>): (r: string)
    ensures name.Some? ==> r == name.value
    ensures name.None? ==> StartsWith(r, BaseName(channel.typeName))
  {
    if name.Some? then name.value else DerivedName(Names(registered), channel.typeName)
  }

  class Notifier {
    /** `self.channels`: the registry, in registration order. */
    var channels: seq<Entry>
    /** `self.fallback_order`: empty means broadcast. */
    var fallbackOrder: seq<string>

    constructor ()
      ensures channels == [] && fallbackOrder == []
    {
      channels := [];
      fallbackOrder := [];
    }

    /** `add_channel(channel, name=None)`: validate first; on success append exactly one
        entry, named as given or by derivation; on failure change nothing. */
    method AddChannel(channel: Channel, name: Option<string>) returns (error: Option<ConfigurationError>)
      modifies this
      ensures fallbackOrder == old(fallbackOrder)
      ensures channel.configError.Some? ==>
                error == Some(ConfigurationError(channel.configError.value)) && channels == old(channels)
      ensures channel.configError.None? ==>
                error == None && channels == old(channels) + [Entry(ChosenName(old(channels), channel, name), channel)]
    {
      if channel.configError.Some? {
        return Some(ConfigurationError(channel.configError.value));
      }
      var chosen: string;
      if name.None? {
        chosen := DerivedName(Names(channels), channel.typeName);
      } else {
        chosen := name.value;
      }
      channels := channels + [Entry(chosen, channel)];
      return None;
    }

    /** `set_fallback_order(order)`: replace the order wholesale. */
    method SetFallbackOrder(order: seq<string>)
      modifies this
      ensures fallbackOrder == order && channels == old(channels)
    {
      fallbackOrder := order;
    }

    /** `send(message, recipients=None)`: the k-th `channel.send` call of this campaign
        ends as `oracle(k, call)` says. Returns how the call ends and the calls made. */
    method Send(message: string, recipients: Option<seq<Recipient>>, oracle: Oracle)
      returns (outcome: Outcome, trace: seq<Invocation>)
      ensures Campaign(outcome, trace) == Run(channels, fallbackOrder, message, recipients, oracle)
    {
      if fallbackOrder == [] {
        outcome, trace := SendToAll(message, recipients, oracle);
      } else {
        outcome, trace := SendWithFallback(message, recipients, oracle);
      }
    }

    /** The broadcast branch of `send`: every registered channel in turn, re-raising
        the first failure. */
    method SendToAll(message: string, recipients: Option<seq<Recipient>>, oracle: Oracle)
      returns (outcome: Outcome, trace: seq<Invocation>)
      ensures Campaign(outcome, trace) == Broadcast(channels, 0, message, recipients, oracle)
    {
      trace := [];
      var i := 0;
      while i < |channels|
        invariant 0 <= i <= |channels| && |trace| == i
        invariant Broadcast(channels, 0, message, recipients, oracle)
                  == Then(trace, Broadcast(channels[i..], i, message, recipients, oracle))
      {
        var call := Invoke(channels[i], message, recipients);
        var delivery := oracle(i, call);
        if delivery.Failed? {
          // `except Exception: raise`
          return Raised(delivery.error), trace + [call];
        }
        BroadcastStep(trace, channels[i..], i, message, recipients, oracle);
        assert channels[i..][1..] == channels[i + 1..];
        trace := trace + [call];
        i := i + 1;
      }
      assert trace + [] == trace;
      return Sent, trace;
    }

    /** The fallback branch of `send`: the names of the order in turn, skipping
        unregistered ones, until a channel succeeds. */
    method SendWithFallback(message: string, recipients: Option<seq<Recipient>>, oracle: Oracle)
      returns (outcome: Outcome, trace: seq<Invocation>)
      ensures Campaign(outcome, trace)
              == Fallback(ResolveOrder(channels, fallbackOrder), 0, message, recipients, oracle)
    {
      ghost var goal := Fallback(ResolveOrder(channels, fallbackOrder), 0, message, recipients, oracle);
      trace := [];
      var j := 0;
      assert fallbackOrder[0..] == fallbackOrder;
      while j < |fallbackOrder|
        invariant 0 <= j <= |fallbackOrder|
        invariant FallbackResumes(goal, channels, fallbackOrder, j, trace, message, recipients, oracle)
      {
        var found := FirstMatch(channels, fallbackOrder[j]);
        if found.None? {
          // the name is not registered: skip it
          FallbackSkipsUnregistered(goal, channels, fallbackOrder, j, trace, message, recipients, oracle);
        } else {
          var call := Invoke(channels[found.value], message, recipients);
          var delivery := oracle(|trace|, call);
          if delivery == Delivered {
            // `break`: the first success ends the campaign
            FallbackStopsAtSuccess(goal, channels, fallbackOrder, j, trace, message, recipients, oracle);
            return Sent, trace + [call];
          }
          FallbackContinuesAfterFailure(goal, channels, fallbackOrder, j, trace, message, recipients, oracle);
          trace := trace + [call];
        }
        j := j + 1;
      }
      // the `for ... else` branch: RuntimeError(AllChannelsFailedMessage)
      assert fallbackOrder[j..] == [];
      assert trace + [] == trace;
      return AllChannelsFailed, trace;
    }
  }
}
