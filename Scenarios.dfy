/** The engine's test cases (tests/test_core.py) and further `send` scenarios,
    replayed against the Notifier class through its contracts alone. */
module Scenarios {
  import opened Wrappers
  import opened Channels
  import opened Naming
  import opened Dispatch
  import opened Core

  /** test_fallback_with_auto_named_channels, for channels of any one class (for the
      test's MockChannel the base is "mock", see Naming.MockBaseName): two unnamed
      channels are named base and base_1; with the order [base, base_1] and the first
      one failing, each is called once, in that order, with its own default
      recipients, and the send succeeds. */
  method AutoNamedFallback(first: Channel, second: Channel) returns (outcome: Outcome, trace: seq<Invocation>)
    requires first.typeName == second.typeName
    requires first.configError.None? && second.configError.None?
    requires first != second
    ensures outcome == Sent
    ensures trace == [Invocation(first, "Test message", first.recipients),
                      Invocation(second, "Test message", second.recipients)]
  {
    var base := BaseName(first.typeName);
    var notifier := new Notifier();
    var error := notifier.AddChannel(first, None);
    UnnamedRunIsNumbered([], first.typeName, 0);
    assert [] + AutoSeries(base, 0) == Names([]);
    assert notifier.channels == [Entry(base, first)];
    error := notifier.AddChannel(second, None);
    UnnamedRunIsNumbered([], first.typeName, 1);
    assert [] + AutoSeries(base, 1) == Names([Entry(base, first)]);
    assert Decimal(1) == "1" && Suffixed(base, 1) == base + "_1";
    ghost var entries := [Entry(base, first), Entry(base + "_1", second)];
    assert notifier.channels == entries;
    var order: seq<string> := [base, base + "_1"];
    notifier.SetFallbackOrder(order);
    var oracle := (k: nat, call: Invocation) => if call.channel == first then Failed("Send failed") else Delivered;
    outcome, trace := notifier.Send("Test message", None, oracle);
    assert order[1..] == [base + "_1"] && order[1..][1..] == [];
    assert FirstMatch(entries, base) == Some(0);
    assert |base + "_1"| != |base|;
    assert FirstMatch(entries, base + "_1") == Some(1);
    assert ResolveOrder(entries, order[1..]) == [Entry(base + "_1", second)];
    assert ResolveOrder(entries, order) == entries;
    assert entries[1..] == [Entry(base + "_1", second)];
    assert Fallback(entries[1..], 1, "Test message", None, oracle)
           == Campaign(Sent, [Invocation(second, "Test message", second.recipients)]);
  }

  /** test_send_failure_without_fallback and the broadcast promise: with no order,
      channels are called in registration order; the first failure is re-raised as
      it is and the channel registered after it is never called. */
  method FailingBroadcast(a: Channel, b: Channel, c: Channel) returns (outcome: Outcome, trace: seq<Invocation>)
    requires a.configError.None? && b.configError.None? && c.configError.None?
    requires a != b
    ensures outcome == Raised("Send failed")
    ensures trace == [Invocation(a, "Test message", a.recipients),
                      Invocation(b, "Test message", b.recipients)]
  {
    var notifier := new Notifier();
    var error := notifier.AddChannel(a, Some("a"));
    error := notifier.AddChannel(b, Some("b"));
    error := notifier.AddChannel(c, Some("c"));
    var oracle := (k: nat, call: Invocation) => if call.channel == b then Failed("Send failed") else Delivered;
    outcome, trace := notifier.Send("Test message", None, oracle);
    ghost var entries := [Entry("a", a), Entry("b", b), Entry("c", c)];
    assert notifier.channels == entries && entries[1..] == [Entry("b", b), Entry("c", c)];
    assert Broadcast(entries[1..], 1, "Test message", None, oracle)
           == Campaign(Raised("Send failed"), [Invocation(b, "Test message", b.recipients)]);
  }

  /** An unregistered name in the order is skipped: with the order ["missing", "y"]
      and "y" succeeding, only "y" is called, with the explicit recipients, and the
      send succeeds. */
  method MissingNameSkipped(y: Channel, to: Recipient) returns (outcome: Outcome, trace: seq<Invocation>)
    requires y.configError.None?
    ensures outcome == Sent
    ensures trace == [Invocation(y, "Test message", [to])]
  {
    var notifier := new Notifier();
    var error := notifier.AddChannel(y, Some("y"));
    notifier.SetFallbackOrder(["missing", "y"]);
    var oracle := (k: nat, call: Invocation) => Delivered;
    outcome, trace := notifier.Send("Test message", Some([to]), oracle);
    ghost var order: seq<string> := ["missing", "y"];
    assert order[1..] == ["y"] && order[1..][1..] == [];
    assert FirstMatch(notifier.channels, "missing") == None;
    assert FirstMatch(notifier.channels, "y") == Some(0);
    assert ResolveOrder(notifier.channels, order[1..]) == notifier.channels;
    assert ResolveOrder(notifier.channels, order) == notifier.channels;
  }

  /** A channel whose `validate_config` raises is not registered, and its error
      reaches the caller. */
  method InvalidChannelRejected(bad: Channel) returns (error: Option<ConfigurationError>, registered: nat)
    requires bad.configError == Some("Telegram bot_token is required")
    ensures error == Some(ConfigurationError("Telegram bot_token is required"))
    ensures registered == 0
  {
    var notifier := new Notifier();
    error := notifier.AddChannel(bad, None);
    registered := |notifier.channels|;
  }
}
