/** How `Notifier.add_channel` derives a name for a channel registered without one
    (snotify/core.py, lines 72-81): the lower-cased class name with every occurrence
    of "channel" removed is the base; if some registered name already starts with the
    base, the count k of such names is appended as "_k". */
module Naming {

  /** ASCII lower-casing of one character. */
  function LowerChar(c: char): char
  {
    if 'A' <= c <= 'Z' then (c as int + 32) as char else c
  }

  /** `str.lower()`, restricted to ASCII letters. */
  function Lower(s: string): (r: string)
    ensures |r| == |s|
  {
    if s == [] then [] else [LowerChar(s[0])] + Lower(s[1..])
  }

  /** `s.startswith(prefix)`. */
  predicate StartsWith(s: string, prefix: string)
  {
    |prefix| <= |s| && s[..|prefix|] == prefix
  }

  /** `s.replace(pattern, "")`: scanning left to right, every non-overlapping
      occurrence of `pattern` is dropped; text uncovered by a removal is not rescanned
      against what precedes it. */
  function RemoveAll(s: string, pattern: string): (r: string)
    requires pattern != []
    ensures |r| <= |s|
    decreases |s|
  {
    if s == [] then []
    else if StartsWith(s, pattern) then RemoveAll(s[|pattern|..], pattern)
    else [s[0]] + RemoveAll(s[1..], pattern)
  }

  /** `channel.__class__.__name__.lower().replace("channel", "")`. */
  function BaseName(typeName: string): (r: string)
    ensures |r| <= |typeName|
  {
    RemoveAll(Lower(typeName), "channel")
  }

  function Digit(d: nat): (c: char)
    requires d < 10
  {
    ('0' as int + d) as char
  }

  /** The decimal text of n, as an f-string renders an int. */
  function Decimal(n: nat): (r: string)
    ensures |r| >= 1
    decreases n
  {
    if n < 10 then [Digit(n)] else Decimal(n / 10) + [Digit(n % 10)]
  }

  /** `len([ch for ch in self.channels if ch["name"].startswith(base)])`. */
  function CountStartingWith(names: seq<string>, base: string): (k: nat)
    ensures k <= |names|
  {
    if names == [] then 0
    else CountStartingWith(names[..|names| - 1], base)
         + (if StartsWith(names[|names| - 1], base) then 1 else 0)
  }

  /** The k-th auto-derived name for a base: the base itself for k = 0, "base_k" after. */
  function Suffixed(base: string, k: nat): (r: string)
    ensures StartsWith(r, base)
    ensures r == base <==> k == 0
  {
    if k == 0 then base else base + "_" + Decimal(k)
  }

  /** The name `add_channel` gives a channel of class `typeName` registered without a
      name, given the names already registered. */
  function DerivedName(names: seq<string>, typeName: string): (r: string)
    ensures StartsWith(r, BaseName(typeName))
    ensures CountStartingWith(names, BaseName(typeName)) == 0 <==> r == BaseName(typeName)
  {
    var base := BaseName(typeName);
    var k := CountStartingWith(names, base);
    Suffixed(base, k)
  }

  /** The names a run of unnamed registrations of one base receives, in order:
      base, base_1, base_2, ... */
  function AutoSeries(base: string, n: nat): (names: seq<string>)
    ensures |names| == n
  {
    if n == 0 then [] else AutoSeries(base, n - 1) + [Suffixed(base, n - 1)]
  }

  lemma {:induction false} CountAppend(a: seq<string>, b: seq<string>, base: string)
    ensures CountStartingWith(a + b, base) == CountStartingWith(a, base) + CountStartingWith(b, base)
    decreases |b|
  {
    if b != [] {
      var b' := b[..|b| - 1];
      assert (a + b)[..|a + b| - 1] == a + b';
      assert (a + b)[|a + b| - 1] == b[|b| - 1];
      CountAppend(a, b', base);
    } else {
      assert a + b == a;
    }
  }

  lemma {:induction false} CountAutoSeries(base: string, n: nat)
    ensures CountStartingWith(AutoSeries(base, n), base) == n
  {
    if n > 0 {
      var s := AutoSeries(base, n);
      assert s[..|s| - 1] == AutoSeries(base, n - 1);
      CountAutoSeries(base, n - 1);
      assert StartsWith(Suffixed(base, n - 1), base);
    }
  }

  /** Distinct numbers have distinct decimal texts. */
  lemma {:induction false} DecimalInjective(m: nat, n: nat)
    requires Decimal(m) == Decimal(n)
    ensures m == n
    decreases m
  {
    if m < 10 && n < 10 {
      assert Decimal(m)[0] == Decimal(n)[0];
    } else if m >= 10 && n >= 10 {
      var dm, dn := Decimal(m), Decimal(n);
      assert dm[|dm| - 1] == dn[|dn| - 1];
      assert dm[..|dm| - 1] == Decimal(m / 10);
      assert dn[..|dn| - 1] == Decimal(n / 10);
      DecimalInjective(m / 10, n / 10);
    }
  }

  /** Two auto-derived names of one base coincide only for the same count. */
  lemma {:induction false} SuffixedInjective(base: string, i: nat, j: nat)
    requires Suffixed(base, i) == Suffixed(base, j)
    ensures i == j
  {
    if i != 0 && j != 0 {
      var si, sj := Suffixed(base, i), Suffixed(base, j);
      assert si[|base| + 1..] == Decimal(i);
      assert sj[|base| + 1..] == Decimal(j);
      DecimalInjective(i, j);
    }
  }

  /** Channels of one class registered without names, into a registry where no name
      starts with their base, are named base, base_1, base_2, ... in registration
      order, and each new name differs from all the earlier ones of the run. */
  lemma {:induction false} UnnamedRunIsNumbered(earlier: seq<string>, typeName: string, n: nat)
    requires CountStartingWith(earlier, BaseName(typeName)) == 0
    ensures DerivedName(earlier + AutoSeries(BaseName(typeName), n), typeName)
            == Suffixed(BaseName(typeName), n)
    ensures Suffixed(BaseName(typeName), n) !in AutoSeries(BaseName(typeName), n)
  {
    var base := BaseName(typeName);
    CountAppend(earlier, AutoSeries(base, n), base);
    CountAutoSeries(base, n);
    forall i | 0 <= i < n
      ensures AutoSeries(base, n)[i] != Suffixed(base, n)
    {
      SeriesAt(base, n, i);
      if Suffixed(base, i) == Suffixed(base, n) {
        SuffixedInjective(base, i, n);
      }
    }
  }

  lemma {:induction false} SeriesAt(base: string, n: nat, i: nat)
    requires i < n
    ensures AutoSeries(base, n)[i] == Suffixed(base, i)
  {
    if i < n - 1 {
      SeriesAt(base, n - 1, i);
    }
  }

  lemma {:induction false} LowerAppend(a: string, b: string)
    ensures Lower(a + b) == Lower(a) + Lower(b)
  {
    if a == [] {
      assert a + b == b;
    } else {
      assert (a + b)[1..] == a[1..] + b;
      LowerAppend(a[1..], b);
    }
  }

  /** Lower-casing works character by character. */
  lemma {:induction false} LowerAt(s: string)
    ensures forall i :: 0 <= i < |s| ==> Lower(s)[i] == LowerChar(s[i])
  {
    if s != [] {
      LowerAt(s[1..]);
      assert forall i :: 1 <= i < |s| ==> s[i] == s[1..][i - 1];
    }
  }

  lemma LowerChannel()
    ensures Lower("Channel") == "channel"
  {
    LowerAt("Channel");
  }

  /** An occurrence of the pattern at the front is dropped. */
  lemma RemoveLeading(pattern: string, s: string)
    requires pattern != []
    ensures RemoveAll(pattern + s, pattern) == RemoveAll(s, pattern)
  {
    assert (pattern + s)[..|pattern|] == pattern;
    assert (pattern + s)[|pattern|..] == s;
  }

  /** Text free of the pattern's first character is kept as it is. */
  lemma {:induction false} RemovePlainPrefix(s: string, rest: string, pattern: string)
    requires pattern != [] && pattern[0] !in s
    ensures RemoveAll(s + rest, pattern) == s + RemoveAll(rest, pattern)
  {
    if s == [] {
      assert s + rest == rest;
    } else {
      assert (s + rest)[0] == s[0];
      assert (s + rest)[1..] == s[1..] + rest;
      RemovePlainPrefix(s[1..], rest, pattern);
    }
  }

  /** When the pattern's first character does not recur later in it, no occurrence
      can straddle the end of s, so an occurrence appended to s is all that goes. */
  lemma {:induction false} RemoveTrailing(s: string, pattern: string)
    requires pattern != [] && pattern[0] !in pattern[1..]
    ensures RemoveAll(s + pattern, pattern) == RemoveAll(s, pattern)
    decreases |s|
  {
    if s == [] {
      assert s + pattern == pattern + [];
      RemoveLeading(pattern, []);
    } else if StartsWith(s, pattern) {
      assert (s + pattern)[..|pattern|] == s[..|pattern|];
      assert (s + pattern)[|pattern|..] == s[|pattern|..] + pattern;
      RemoveTrailing(s[|pattern|..], pattern);
    } else {
      if |pattern| <= |s| {
        assert (s + pattern)[..|pattern|] == s[..|pattern|];
      } else {
        assert (s + pattern)[..|pattern|][|s|] == pattern[0];
        assert pattern[|s|] == pattern[1..][|s| - 1];
      }
      assert (s + pattern)[0] == s[0];
      assert (s + pattern)[1..] == s[1..] + pattern;
      RemoveTrailing(s[1..], pattern);
    }
  }

  /** Text shorter than the pattern cannot contain it. */
  lemma {:induction false} RemoveShort(s: string, pattern: string)
    requires pattern != [] && |s| < |pattern|
    ensures RemoveAll(s, pattern) == s
    decreases |s|
  {
    if s != [] {
      RemoveShort(s[1..], pattern);
    }
  }

  /** A trailing "Channel" on the class name never changes its base name. */
  lemma TrailingChannelRemoved(typeName: string)
    ensures BaseName(typeName + "Channel") == BaseName(typeName)
  {
    LowerChannel();
    LowerAppend(typeName, "Channel");
    assert "channel"[1..] == "hannel";
    RemoveTrailing(Lower(typeName), "channel");
  }

  /** "channel" is removed wherever it occurs, also at the front of the class name,
      not only as a trailing suffix. */
  lemma LeadingChannelRemoved(typeName: string)
    ensures BaseName("Channel" + typeName) == BaseName(typeName)
  {
    LowerChannel();
    LowerAppend("Channel", typeName);
    RemoveLeading("channel", Lower(typeName));
  }

  /** A class name whose lower-cased form has no 'c' is its own base name. */
  lemma PlainBaseName(typeName: string)
    requires 'c' !in Lower(typeName)
    ensures BaseName(typeName) == Lower(typeName)
  {
    RemovePlainPrefix(Lower(typeName), [], "channel");
    assert Lower(typeName) + [] == Lower(typeName);
  }

  /** A class `<stem>Channel` whose lower-cased stem has no 'c' gets that stem as base. */
  lemma StemBaseName(stem: string, low: string)
    requires Lower(stem) == low && 'c' !in low
    ensures BaseName(stem + "Channel") == low
  {
    PlainBaseName(stem);
    TrailingChannelRemoved(stem);
  }

  lemma LowerTelegram() ensures Lower("Telegram") == "telegram" { LowerAt("Telegram"); }
  lemma LowerEmail() ensures Lower("Email") == "email" { LowerAt("Email"); }
  lemma LowerWebhook() ensures Lower("Webhook") == "webhook" { LowerAt("Webhook"); }
  lemma LowerMock() ensures Lower("Mock") == "mock" { LowerAt("Mock"); }

  /** The base names of the three channel classes the library ships: TelegramChannel,
      EmailChannel and WebhookChannel. */
  lemma TelegramBaseName()
    ensures BaseName("TelegramChannel") == "telegram"
  {
    LowerTelegram();
    StemBaseName("Telegram", "telegram");
    assert "TelegramChannel" == "Telegram" + "Channel";
  }

  lemma EmailBaseName()
    ensures BaseName("EmailChannel") == "email"
  {
    LowerEmail();
    StemBaseName("Email", "email");
    assert "EmailChannel" == "Email" + "Channel";
  }

  lemma WebhookBaseName()
    ensures BaseName("WebhookChannel") == "webhook"
  {
    LowerWebhook();
    StemBaseName("Webhook", "webhook");
    assert "WebhookChannel" == "Webhook" + "Channel";
  }

  /** The test suite's MockChannel has base name "mock": its stem contains a 'c' but is
      shorter than "channel". */
  lemma MockBaseName()
    ensures BaseName("MockChannel") == "mock"
  {
    LowerMock();
    TrailingChannelRemoved("Mock");
    RemoveShort("mock", "channel");
    assert "MockChannel" == "Mock" + "Channel";
  }

  /** An auto-derived name need not be fresh: when the only registered name is
      "base_1" (given explicitly, or derived for another class), an unnamed channel
      whose base is "base" is named "base_1" as well. */
  lemma {:induction false} DerivedNameMayRepeat(typeName: string)
    ensures var taken := Suffixed(BaseName(typeName), 1);
            DerivedName([taken], typeName) == taken
  {
    var base := BaseName(typeName);
    var taken := Suffixed(base, 1);
    assert StartsWith(taken, base);
    assert [taken][..0] == [];
  }
}
