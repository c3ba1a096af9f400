# snotify dispatch engine, modelled in Dafny

This project models `Notifier`, the dispatch engine of snotify, a Python library
that sends one message through several notification channels (Telegram, SMTP
e-mail, HTTP webhook, or custom channels). The engine does three things:

- It keeps a registry of named channels. `add_channel` validates each channel
  and registers it under an explicit name or a name derived from its class.
- It keeps an optional fallback order of channel names (`set_fallback_order`).
- It runs `send`:
  - With an empty order it broadcasts. Every channel is called in registration
    order, and the first failure is re-raised unchanged.
  - Otherwise it tries the named channels in turn, skipping names that are not
    registered, until one succeeds. If none succeeds it raises
    `RuntimeError("All notification channels failed.")`.

Files:

- `Wrappers.dfy`: `Option` and `Result`.
- `Channels.dfy`: the channel capability as the engine sees it. A `Channel` has an
  identity, a class name, its default recipients and the result of its
  `validate_config`. An `Invocation` is one `channel.send` call. An `Oracle` says
  how the k-th call of a campaign ends.
- `Naming.dfy`: the auto-name derivation of `add_channel`, as pure functions, with
  lemmas about it.
- `Dispatch.dfy`: what one `send` call does, as functions of the registry, the
  order, the arguments and the oracle (`Run`, `Broadcast`, `Fallback`,
  `ResolveOrder`, `FirstMatch`), with lemmas about them.
- `Notifier.dfy`: the `Notifier` class. Its `channels` and `fallbackOrder` fields
  are updated in place. Its `Send` walks them with loops that are proved equal to
  `Dispatch.Run`.
- `Scenarios.dfy`: the engine's test cases, replayed through the class contracts.

Three behaviours of `add_channel` and `send` that a reader of the code may not expect:

- Base-name derivation removes every occurrence of "channel" from the lower-cased
  class name, not only a trailing suffix. `Naming.LeadingChannelRemoved` shows it.
- Auto-derived names are not guaranteed unique. When "base_1" is the only registered
  name starting with "base" (given explicitly, or derived for another class), an
  unnamed channel with base "base" is named "base_1" as well.
  `Naming.DerivedNameMayRepeat` shows it. Within a run of unnamed channels of one
  class the names are distinct: after base and base_1 the next is base_2
  (`Naming.UnnamedRunIsNumbered`).
- `recipients or channel.recipients` treats an empty explicit list as absent. Such
  a call uses each channel's defaults.

## Model

| member | source | states |
|---|---|---|
| `Naming.DerivedName` | snotify/core.py:72-81 | the derived name starts with the base name; it is the bare base exactly when no registered name starts with the base |
| `Naming.UnnamedRunIsNumbered` | snotify/core.py:73-81 | unnamed channels of one class, registered where no name starts with their base, get base, base_1, base_2, … in order, each different from the earlier ones |
| `Naming.DerivedNameMayRepeat` | snotify/core.py:74-81 | with only "base_1" registered, the next unnamed channel of base "base" is also named "base_1" (the derived name need not be fresh) |
| `Naming.SuffixedInjective` | snotify/core.py:78-81 | two derived names of one base are equal only for equal collision counts |
| `Naming.DecimalInjective` | snotify/core.py:81 | distinct counts render as distinct decimal suffixes |
| `Naming.LeadingChannelRemoved` | snotify/core.py:73 | "channel" is removed wherever it occurs, including at the front of the class name |
| `Naming.Lower` | snotify/core.py:73 | lower-casing keeps the length; character by character in `Naming.LowerAt` |
| `Naming.RemoveAll` | snotify/core.py:73 | removal never lengthens the text; its behaviour at the front, at the end and on short or 'c'-free text is in `Naming.RemoveLeading`, `Naming.RemoveTrailing`, `Naming.RemoveShort` and `Naming.RemovePlainPrefix` |
| `Naming.BaseName` | snotify/core.py:73 | the base name is never longer than the class name; properties in `Naming.TrailingChannelRemoved` and `Naming.LeadingChannelRemoved` |
| `Naming.CountStartingWith` | snotify/core.py:74-76 | at most one count per registered name; additivity in `Naming.CountAppend` |
| `Naming.Decimal` | snotify/core.py:81 | the suffix has at least one digit; distinct counts give distinct text in `Naming.DecimalInjective` |
| `Naming.Suffixed` | snotify/core.py:78-81 | the name starts with the base, and equals the bare base exactly when the count is 0 |
| `Naming.TrailingChannelRemoved` | snotify/core.py:73 | a trailing "Channel" never changes the base name, whatever comes before it |
| `Naming.StemBaseName` | snotify/core.py:73 | a class `<Stem>Channel` whose lower-cased stem has no 'c' gets the lower-cased stem as base |
| `Naming.TelegramBaseName` | snotify/channels/telegram.py:6 | TelegramChannel has base "telegram" |
| `Naming.EmailBaseName` | snotify/channels/email.py:14 | EmailChannel has base "email" |
| `Naming.WebhookBaseName` | snotify/channels/webhook.py:7 | WebhookChannel has base "webhook" |
| `Naming.MockBaseName` | tests/test_core.py:111-119 | the tests' MockChannel has base "mock" |
| `Channels.ResolveRecipients` | snotify/core.py:105-106 | definition of `recipients or channel.recipients` (also line 125): the explicit list when it is non-empty, the channel's defaults otherwise; properties in `Dispatch.RunPassesMessageAndRecipients` |
| `Dispatch.Invoke` | snotify/core.py:124-125 | definition of one `channel.send` call with the message and the resolved recipients; properties in `Dispatch.RunPassesMessageAndRecipients` |
| `Dispatch.Broadcast` | snotify/core.py:100-112 | broadcast never ends in the all-failed error and calls no more channels than are registered; further properties in `Dispatch.BroadcastTrace`, `Dispatch.BroadcastSucceedsIffAllDeliver` and `Dispatch.BroadcastFailsFast` |
| `Dispatch.ResolveOrder` | snotify/core.py:114-120 | definition of the candidates a fallback order designates; properties in `Dispatch.ResolveOrderFirstMatches`, `Dispatch.ResolveOrderAppend` and `Dispatch.ResolveOrderStep` |
| `Dispatch.Fallback` | snotify/core.py:122-132 | fallback never re-raises a channel's own error and calls no more channels than there are candidates; further properties in `Dispatch.FallbackTrace`, `Dispatch.FallbackStopsAtFirstSuccess` and `Dispatch.FallbackSucceedsIffSomeDelivers` |
| `Dispatch.Run` | snotify/core.py:100-132 | with an empty order `send` never ends in the all-failed error; with a non-empty order it never re-raises a channel's error |
| `Dispatch.FirstMatch` | snotify/core.py:115-118 | the index found holds the name and no earlier entry does; None exactly when no entry holds the name |
| `Dispatch.ResolveOrderFirstMatches` | snotify/core.py:114-122 | each resolved candidate is the first entry bearing a name of the order; no more candidates than names; no registered name gives no candidates; all registered gives one per name, in order |
| `Dispatch.ResolveOrderAppend` | snotify/core.py:114-120 | names are resolved one at a time, in order: resolving a concatenation concatenates the resolutions |
| `Dispatch.BroadcastTrace` | snotify/core.py:100-107 | broadcast calls registered channels in registration order, each at most once |
| `Dispatch.BroadcastSucceedsIffAllDeliver` | snotify/core.py:100-112 | broadcast succeeds iff every channel's call succeeds (trivially with no channels), and then every channel was called; it never raises the all-failed error |
| `Dispatch.BroadcastFailsFast` | snotify/core.py:104-112 | a failing broadcast re-raises the error of its last call unchanged, and every earlier call succeeded (nothing after the first failure is called) |
| `Dispatch.FallbackTrace` | snotify/core.py:114-126 | fallback calls the resolved candidates in order, each at most once |
| `Dispatch.FallbackStopsAtFirstSuccess` | snotify/core.py:114-132 | every fallback call but the last failed; success iff the last call succeeded; all-failed means every candidate was called and failed; a channel's own error is never re-raised |
| `Dispatch.FallbackSucceedsIffSomeDelivers` | snotify/core.py:114-132 | fallback succeeds iff some candidate's call succeeds at its turn |
| `Dispatch.UnresolvableOrderFails` | snotify/core.py:114-132 | a non-empty order with no registered name fails with the all-failed error and calls nothing |
| `Dispatch.RunPassesMessageAndRecipients` | snotify/core.py:105-106 | every call gets the message unchanged; it gets the explicit recipients when that list is non-empty, and the channel's own defaults when the list is omitted or empty |
| `Dispatch.RunFallbackCallsFirstMatches` | snotify/core.py:114-126 | in fallback mode every called channel is the first registered entry bearing some name of the order |
| `Dispatch.ResolveOrderStep` | snotify/core.py:114-120 | resolving the order from position j puts the first match of name j, if any, before the resolution of the rest |
| `Dispatch.FallbackSkipsUnregistered` | snotify/core.py:118-120 | when the calls so far and the rest of the order complete the campaign, an unregistered name at the current position is skipped without a call |
| `Dispatch.FallbackStopsAtSuccess` | snotify/core.py:122-128 | when the call to the current name's first match succeeds, the campaign ends there with success |
| `Dispatch.FallbackContinuesAfterFailure` | snotify/core.py:122-130 | when the call to the current name's first match fails, the campaign is completed by that call followed by the names after it |
| `Dispatch.BroadcastStep` | snotify/core.py:104-110 | after a successful broadcast call the campaign continues with the remaining channels |
| `Core.ChosenName` | snotify/core.py:72-83 | an explicit name is registered verbatim; otherwise the registered name starts with the base name of the channel's class |
| `Core.Notifier.constructor` | snotify/core.py:60-62 | a new engine has an empty registry and an empty fallback order |
| `Core.Notifier.AddChannel` | snotify/core.py:64-83 | if validation fails its error is returned and the registry is unchanged; otherwise exactly one entry is appended, named verbatim or by derivation; the order is untouched |
| `Core.Notifier.SetFallbackOrder` | snotify/core.py:85-90 | the order is replaced wholesale and the registry is untouched |
| `Core.Notifier.Send` | snotify/core.py:92-132 | outcome and calls equal `Dispatch.Run` for the current registry and order: broadcast when the order is empty, fallback otherwise |
| `Core.Notifier.SendToAll` | snotify/core.py:100-112 | the broadcast loop produces exactly the `Dispatch.Broadcast` campaign |
| `Core.Notifier.SendWithFallback` | snotify/core.py:113-132 | the fallback loop, with skips, break and for-else, produces exactly the `Dispatch.Fallback` campaign over the resolved order |
| `Scenarios.AutoNamedFallback` | tests/test_core.py:122-138 | two unnamed channels of one class are named base and base_1; with that order and the first failing, both are called once, in order, with their own recipients, and send succeeds |
| `Scenarios.FailingBroadcast` | snotify/core.py:100-112 | as in the failing-channel test (tests/test_core.py, lines 53-59), with no order and the second of three channels failing, send raises that error and the third channel is never called |
| `Scenarios.MissingNameSkipped` | snotify/core.py:114-128 | an unregistered name in the order is skipped and the next channel, called with the explicit recipients, succeeds |
| `Scenarios.InvalidChannelRejected` | snotify/core.py:71 | a channel whose validation raises is not registered and the error reaches the caller |

## Left out

- `configure_logging` and every `logger` call. These are logging configuration and output and do not affect outcomes.
- The transports behind `TelegramChannel.send`, `EmailChannel.send` and `WebhookChannel.send` (HTTP and SMTP libraries). An oracle replaces them. It says how the k-th `channel.send` call of a campaign ends, given the call (channel, message, recipients).
- The bodies of the channels' `validate_config`. Each channel carries the result as a field: it returns, or it raises with a given message.
- The recipient classes and the abstract base classes in snotify/channels/base.py. They become plain datatypes.
- `async`/`await`. The engine awaits each channel in turn, so the model treats each call as an ordinary sequential call.
- A blocking sync adapter around the engine. There is no such code in the repository, so it is not part of this model.
- Python's exception classes. Every channel failure is treated as an `Exception`. A `BaseException` that is not an `Exception` (a cancellation, an interrupt) would escape even fallback mode. The model does not represent this.
- Aliasing. `set_fallback_order` stores the caller's list object, so a later change to that list changes the order. The model stores a value. Likewise, a channel's default recipients cannot change between calls.
- Re-entrancy. A channel's `send` could change the notifier during a campaign. The model does not represent this.
- `Naming.Lower` lower-cases ASCII letters only; Python's `str.lower` also folds other Unicode letters.
- `Core.Notifier.AddChannel` returns the configuration error as a value instead of raising it.
- `Core.Notifier.Send` returns the outcome as a value. `Raised(e)` stands for re-raising the channel's exception. `AllChannelsFailed` stands for `RuntimeError(Dispatch.AllChannelsFailedMessage)`.
