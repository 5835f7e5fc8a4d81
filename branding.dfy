/**
 * The rebranding pass (BrandingUpdater in update-branding.js): an ordered
 * table of literal replace-all rules applied in turn to every text node, to
 * the `data-product` and `data-category` attributes (with the rules
 * lowercased) and to `alt`, `title` and `aria-label`.
 */
module Branding {
  import opened Wrappers
  import opened Text

  /** A mapping entry: the pattern and what each occurrence becomes. */
  type Rule = (string, string)

  /** The entries for the company name, in its three spellings. */
  const AppleRules: seq<Rule> := [("Apple", "LemOn"), ("apple", "LemOn"), ("APPLE", "LEMON")]

  /** The entries for Mac, in its three spellings. */
  const MacRules: seq<Rule> := [("Mac", "Desktop"), ("mac", "Desktop"), ("MAC", "DESKTOP")]

  /** The entries for MacBook, in its three spellings. */
  const MacBookRules: seq<Rule> := [("MacBook", "DesktopBook"), ("macbook", "DesktopBook"), ("MACBOOK", "DESKTOPBOOK")]

  /** The entries for iMac, in its three spellings. */
  const IMacRules: seq<Rule> := [("iMac", "iDesktop"), ("imac", "iDesktop"), ("IMAC", "IDESKTOP")]

  /** The entries for iPad, in its three spellings. */
  const PadRules: seq<Rule> := [("iPad", "Pad"), ("ipad", "Pad"), ("IPAD", "PAD")]

  /** The entries for iPhone, in its three spellings. */
  const PhoneRules: seq<Rule> := [("iPhone", "Phone"), ("iphone", "Phone"), ("IPHONE", "PHONE")]

  /** The entries for Apple Watch, in its three spellings. */
  const AppleWatchRules: seq<Rule> := [("Apple Watch", "LemOn Watch"), ("apple watch", "LemOn Watch"), ("APPLE WATCH", "LEMON WATCH")]

  /** The entries for MacOS, in its three spellings. */
  const MacOSRules: seq<Rule> := [("MacOS", "DesktopOS"), ("macOS", "DesktopOS"), ("MACOS", "DESKTOPOS")]

  /** The entries for iPadOS, in its three spellings. */
  const PadOSRules: seq<Rule> := [("iPadOS", "PadOS"), ("ipadOS", "PadOS"), ("IPADOS", "PADOS")]

  /** The entries for iOS, in its three spellings. */
  const IOSRules: seq<Rule> := [("iOS", "PhoneOS"), ("ios", "PhoneOS"), ("IOS", "PHONEOS")]

  /** The entries for watchOS, in its three spellings. */
  const WatchOSRules: seq<Rule> := [("watchOS", "LemOn WatchOS"), ("watchos", "LemOn WatchOS"), ("WATCHOS", "LEMON WATCHOS")]

  /** The mapping table, in declaration order. */
  const BrandingMappings: seq<Rule> :=
    AppleRules + MacRules + MacBookRules + IMacRules
    + PadRules + PhoneRules + AppleWatchRules
    + MacOSRules + PadOSRules + IOSRules + WatchOSRules

  predicate ValidRules(rules: seq<Rule>)
  {
    forall k :: 0 <= k < |rules| ==> |rules[k].0| > 0
  }

  lemma ValidAppend(a: seq<Rule>, b: seq<Rule>)
    requires ValidRules(a) && ValidRules(b)
    ensures ValidRules(a + b)
  {
    forall k | 0 <= k < |a + b| ensures |(a + b)[k].0| > 0 {
      if k >= |a| {
        assert (a + b)[k] == b[k - |a|];
      }
    }
  }

  /** Characters that would make a pattern more than a literal inside `new RegExp(p, 'g')`. */
  predicate IsRegexMeta(c: char)
  {
    c == '.' || c == '*' || c == '+' || c == '?' || c == '^' || c == '$' || c == '{' || c == '}'
    || c == '(' || c == ')' || c == '|' || c == '[' || c == ']' || c == '\\' || c == '/'
  }

  /** A letter or a space. */
  predicate IsPlain(c: char)
  {
    ('a' <= c <= 'z') || ('A' <= c <= 'Z') || c == ' '
  }

  lemma PlainIsNotMeta(c: char)
    requires IsPlain(c)
    ensures !IsRegexMeta(c) && c != '$'
  {
  }

  /** Every character of s from position i on is a letter or a space. */
  predicate PlainFrom(s: string, i: nat)
    decreases |s| - i
  {
    i >= |s| || (IsPlain(s[i]) && PlainFrom(s, i + 1))
  }

  lemma {:induction false} PlainFromAt(s: string, i: nat, j: nat)
    requires PlainFrom(s, i) && i <= j < |s|
    ensures IsPlain(s[j])
    decreases j - i
  {
    if i < j {
      PlainFromAt(s, i + 1, j);
    }
  }

  /** A string with no regular-expression metacharacter and no `$`. */
  lemma PlainHasNoMeta(s: string)
    requires PlainFrom(s, 0)
    ensures forall j :: 0 <= j < |s| ==> !IsRegexMeta(s[j]) && s[j] != '$'
  {
    forall j | 0 <= j < |s| ensures !IsRegexMeta(s[j]) && s[j] != '$' {
      PlainFromAt(s, 0, j);
      PlainIsNotMeta(s[j]);
    }
  }

  /**
   * A non-empty pattern and a replacement made of letters and spaces (so the
   * pattern has no metacharacter and the replacement no `$`), and a real change.
   */
  predicate LiteralRule(rule: Rule)
  {
    && |rule.0| > 0
    && PlainFrom(rule.0, 0)
    && PlainFrom(rule.1, 0)
    && rule.0 != rule.1
  }

  predicate AllLiteral(rules: seq<Rule>)
  {
    forall k :: 0 <= k < |rules| ==> LiteralRule(rules[k])
  }

  lemma AllLiteralAppend(a: seq<Rule>, b: seq<Rule>)
    requires AllLiteral(a) && AllLiteral(b)
    ensures AllLiteral(a + b)
  {
    forall k | 0 <= k < |a + b| ensures LiteralRule((a + b)[k]) {
      if k >= |a| {
        assert (a + b)[k] == b[k - |a|];
      }
    }
  }

  lemma GroupsValid()
    ensures ValidRules(AppleRules)
      && ValidRules(MacRules)
      && ValidRules(MacBookRules)
      && ValidRules(IMacRules)
      && ValidRules(PadRules)
      && ValidRules(PhoneRules)
      && ValidRules(AppleWatchRules)
      && ValidRules(MacOSRules)
      && ValidRules(PadOSRules)
      && ValidRules(IOSRules)
      && ValidRules(WatchOSRules)
  {
  }

  lemma MappingsValid()
    ensures ValidRules(BrandingMappings)
  {
    GroupsValid();
    ValidAppend(AppleRules, MacRules);
    ValidAppend(AppleRules + MacRules, MacBookRules);
    ValidAppend(AppleRules + MacRules + MacBookRules, IMacRules);
    ValidAppend(AppleRules + MacRules + MacBookRules + IMacRules, PadRules);
    ValidAppend(AppleRules + MacRules + MacBookRules + IMacRules + PadRules, PhoneRules);
    ValidAppend(AppleRules + MacRules + MacBookRules + IMacRules + PadRules + PhoneRules, AppleWatchRules);
    ValidAppend(AppleRules + MacRules + MacBookRules + IMacRules + PadRules + PhoneRules + AppleWatchRules, MacOSRules);
    ValidAppend(AppleRules + MacRules + MacBookRules + IMacRules + PadRules + PhoneRules + AppleWatchRules + MacOSRules, PadOSRules);
    ValidAppend(AppleRules + MacRules + MacBookRules + IMacRules + PadRules + PhoneRules + AppleWatchRules + MacOSRules + PadOSRules, IOSRules);
    ValidAppend(AppleRules + MacRules + MacBookRules + IMacRules + PadRules + PhoneRules + AppleWatchRules + MacOSRules + PadOSRules + IOSRules, WatchOSRules);
  }

  lemma AppleLiteral()
    ensures AllLiteral(AppleRules)
  {
  }

  lemma MacLiteral()
    ensures AllLiteral(MacRules)
  {
    assert PlainFrom("Desktop", 4);
    assert PlainFrom("DESKTOP", 4);
  }

  lemma MacBookLiteral()
    ensures AllLiteral(MacBookRules)
  {
    assert PlainFrom("MacBook", 4);
    assert PlainFrom("DesktopBook", 8);
    assert PlainFrom("DesktopBook", 4);
    assert PlainFrom("macbook", 4);
    assert PlainFrom("MACBOOK", 4);
    assert PlainFrom("DESKTOPBOOK", 8);
    assert PlainFrom("DESKTOPBOOK", 4);
  }

  lemma IMacLiteral()
    ensures AllLiteral(IMacRules)
  {
    assert PlainFrom("iDesktop", 4);
    assert PlainFrom("IDESKTOP", 4);
  }

  lemma PadLiteral()
    ensures AllLiteral(PadRules)
  {
  }

  lemma PhoneLiteral()
    ensures AllLiteral(PhoneRules)
  {
    assert PlainFrom("iPhone", 4);
    assert PlainFrom("iphone", 4);
    assert PlainFrom("IPHONE", 4);
  }

  lemma AppleWatchLiteral()
    ensures AllLiteral(AppleWatchRules)
  {
    assert PlainFrom("Apple Watch", 8);
    assert PlainFrom("Apple Watch", 4);
    assert PlainFrom("LemOn Watch", 8);
    assert PlainFrom("LemOn Watch", 4);
    assert PlainFrom("apple watch", 8);
    assert PlainFrom("apple watch", 4);
    assert PlainFrom("APPLE WATCH", 8);
    assert PlainFrom("APPLE WATCH", 4);
    assert PlainFrom("LEMON WATCH", 8);
    assert PlainFrom("LEMON WATCH", 4);
  }

  lemma MacOSLiteral()
    ensures AllLiteral(MacOSRules)
  {
    assert PlainFrom("DesktopOS", 8);
    assert PlainFrom("DesktopOS", 4);
    assert PlainFrom("DESKTOPOS", 8);
    assert PlainFrom("DESKTOPOS", 4);
  }

  lemma PadOSLiteral()
    ensures AllLiteral(PadOSRules)
  {
    assert PlainFrom("iPadOS", 4);
    assert PlainFrom("ipadOS", 4);
    assert PlainFrom("IPADOS", 4);
  }

  lemma IOSLiteral()
    ensures AllLiteral(IOSRules)
  {
    assert PlainFrom("PhoneOS", 4);
    assert PlainFrom("PHONEOS", 4);
  }

  lemma WatchOSLiteral()
    ensures AllLiteral(WatchOSRules)
  {
    assert PlainFrom("watchOS", 4);
    assert PlainFrom("LemOn WatchOS", 12);
    assert PlainFrom("LemOn WatchOS", 8);
    assert PlainFrom("LemOn WatchOS", 4);
    assert PlainFrom("watchos", 4);
    assert PlainFrom("WATCHOS", 4);
    assert PlainFrom("LEMON WATCHOS", 12);
    assert PlainFrom("LEMON WATCHOS", 8);
    assert PlainFrom("LEMON WATCHOS", 4);
  }

  /**
   * Every pattern is a non-empty literal, no replacement holds a `$`
   * substitution, and no rule replaces a pattern by itself; so each
   * `replace(new RegExp(p, 'g'), r)` is exactly ReplaceAll(s, p, r).
   */
  lemma MappingsAreLiteral()
    ensures ValidRules(BrandingMappings)
    ensures forall k :: 0 <= k < |BrandingMappings| ==> LiteralRule(BrandingMappings[k])
  {
    MappingsValid();
    AppleLiteral();
    MacLiteral();
    MacBookLiteral();
    IMacLiteral();
    PadLiteral();
    PhoneLiteral();
    AppleWatchLiteral();
    MacOSLiteral();
    PadOSLiteral();
    IOSLiteral();
    WatchOSLiteral();
    AllLiteralAppend(AppleRules, MacRules);
    AllLiteralAppend(AppleRules + MacRules, MacBookRules);
    AllLiteralAppend(AppleRules + MacRules + MacBookRules, IMacRules);
    AllLiteralAppend(AppleRules + MacRules + MacBookRules + IMacRules, PadRules);
    AllLiteralAppend(AppleRules + MacRules + MacBookRules + IMacRules + PadRules, PhoneRules);
    AllLiteralAppend(AppleRules + MacRules + MacBookRules + IMacRules + PadRules + PhoneRules, AppleWatchRules);
    AllLiteralAppend(AppleRules + MacRules + MacBookRules + IMacRules + PadRules + PhoneRules + AppleWatchRules, MacOSRules);
    AllLiteralAppend(AppleRules + MacRules + MacBookRules + IMacRules + PadRules + PhoneRules + AppleWatchRules + MacOSRules, PadOSRules);
    AllLiteralAppend(AppleRules + MacRules + MacBookRules + IMacRules + PadRules + PhoneRules + AppleWatchRules + MacOSRules + PadOSRules, IOSRules);
    AllLiteralAppend(AppleRules + MacRules + MacBookRules + IMacRules + PadRules + PhoneRules + AppleWatchRules + MacOSRules + PadOSRules + IOSRules, WatchOSRules);
  }

  /** One entry of the inner loop: replace every occurrence if the pattern occurs at all. */
  function Step(s: string, rule: Rule): string
    requires |rule.0| > 0
  {
    if Contains(s, rule.0) then ReplaceAll(s, rule.0, rule.1) else s
  }

  /** A rule whose pattern holds a character the text lacks leaves the text alone. */
  lemma StepAbsentChar(s: string, rule: Rule, k: nat)
    requires |rule.0| > 0 && k < |rule.0| && rule.0[k] !in s
    ensures Step(s, rule) == s
  {
    MissingCharAbsent(s, rule.0, k);
  }

  /**
   * A rule whose pattern occurs once, after a prefix that cannot start it and
   * before a rest that does not hold it, swaps just that occurrence.
   */
  lemma StepFiresOnce(a: string, p: string, b: string, r: string)
    requires |p| > 0 && p[0] !in a && !Contains(b, p)
    ensures Step(a + p + b, (p, r)) == a + r + b
  {
    OccursAtIff(a + p + b, p, |a|);
    assert (a + p + b)[|a|..|a| + |p|] == p;
    OccursAtContains(a + p + b, p, |a|);
    FirstCharNotBefore(a, p, b);
    ReplaceAllFirst(a, p, b, r);
  }

  /** StepFiresOnce with nothing after the occurrence. */
  lemma StepFiresLast(a: string, p: string, r: string)
    requires |p| > 0 && p[0] !in a
    ensures Step(a + p, (p, r)) == a + r
  {
    assert a + p + [] == a + p && a + r + [] == a + r;
    StepFiresOnce(a, p, [], r);
  }

  /** The rules from position i on, each applied to the previous result. */
  function ApplyFrom(s: string, rules: seq<Rule>, i: nat): string
    requires ValidRules(rules) && i <= |rules|
    decreases |rules| - i
  {
    if i == |rules| then s else ApplyFrom(Step(s, rules[i]), rules, i + 1)
  }

  /** Whether any rule from position i on finds its pattern in the text it is applied to. */
  predicate FiredFrom(s: string, rules: seq<Rule>, i: nat)
    requires ValidRules(rules) && i <= |rules|
    decreases |rules| - i
  {
    i < |rules| && (Contains(s, rules[i].0) || FiredFrom(Step(s, rules[i]), rules, i + 1))
  }

  /** What the text pass makes of one string. */
  function Rebrand(s: string): string
  {
    MappingsValid();
    ApplyFrom(s, BrandingMappings, 0)
  }

  /** A text holding none of the patterns passes through the text pass unchanged. */
  lemma RebrandPassesThrough(s: string)
    requires forall k :: 0 <= k < |BrandingMappings| ==> !Contains(s, BrandingMappings[k].0)
    ensures Rebrand(s) == s
  {
    MappingsValid();
    NoPatternNoChange(s, BrandingMappings);
  }

  /** The rules of b, placed after a, act as b alone. */
  lemma {:induction false} ApplyFromShift(s: string, a: seq<Rule>, b: seq<Rule>, j: nat)
    requires ValidRules(a) && ValidRules(b) && j <= |b|
    ensures ValidRules(a + b)
    ensures ApplyFrom(s, a + b, |a| + j) == ApplyFrom(s, b, j)
    decreases |b| - j
  {
    ValidAppend(a, b);
    if j < |b| {
      assert (a + b)[|a| + j] == b[j];
      ApplyFromShift(Step(s, b[j]), a, b, j + 1);
    }
  }

  lemma {:induction false} ApplyFromAppendAt(s: string, a: seq<Rule>, b: seq<Rule>, i: nat)
    requires ValidRules(a) && ValidRules(b) && i <= |a|
    ensures ValidRules(a + b)
    ensures ApplyFrom(s, a + b, i) == ApplyFrom(ApplyFrom(s, a, i), b, 0)
    decreases |a| - i
  {
    ValidAppend(a, b);
    if i == |a| {
      ApplyFromShift(s, a, b, 0);
    } else {
      assert (a + b)[i] == a[i];
      ApplyFromAppendAt(Step(s, a[i]), a, b, i + 1);
    }
  }

  /** Applying a concatenated table is applying its first part, then its second. */
  lemma ApplyFromAppend(s: string, a: seq<Rule>, b: seq<Rule>)
    requires ValidRules(a) && ValidRules(b)
    ensures ValidRules(a + b)
    ensures ApplyFrom(s, a + b, 0) == ApplyFrom(ApplyFrom(s, a, 0), b, 0)
  {
    ApplyFromAppendAt(s, a, b, 0);
  }

  /** A group of three rules is three steps. */
  lemma ApplyThree(s: string, rules: seq<Rule>)
    requires |rules| == 3 && |rules[0].0| > 0 && |rules[1].0| > 0 && |rules[2].0| > 0
    ensures ValidRules(rules)
    ensures ApplyFrom(s, rules, 0) == Step(Step(Step(s, rules[0]), rules[1]), rules[2])
  {
    var s1 := Step(s, rules[0]);
    var s2 := Step(s1, rules[1]);
    assert ApplyFrom(s2, rules, 2) == ApplyFrom(Step(s2, rules[2]), rules, 3);
  }

  /** The rules with pattern and replacement lowercased, as the data-attribute pass uses them. */
  function LowerRules(rules: seq<Rule>): (r: seq<Rule>)
    ensures |r| == |rules|
    ensures forall k :: 0 <= k < |rules| ==> r[k] == (Lower(rules[k].0), Lower(rules[k].1))
    ensures ValidRules(rules) ==> ValidRules(r)
  {
    seq(|rules|, k requires 0 <= k < |rules| => (Lower(rules[k].0), Lower(rules[k].1)))
  }

  lemma LowerRulesAppend(a: seq<Rule>, b: seq<Rule>)
    ensures LowerRules(a + b) == LowerRules(a) + LowerRules(b)
  {
    var l, r := LowerRules(a + b), LowerRules(a) + LowerRules(b);
    forall k | 0 <= k < |l| ensures l[k] == r[k] {
      if k >= |a| {
        assert (a + b)[k] == b[k - |a|];
      }
    }
  }

  /** The text pass, group by group. */
  lemma RebrandInGroups(s: string)
    ensures
      Rebrand(s) ==
      ApplyFrom(ApplyFrom(ApplyFrom(ApplyFrom(ApplyFrom(ApplyFrom(ApplyFrom(ApplyFrom(ApplyFrom(ApplyFrom(ApplyFrom(s, AppleRules, 0), MacRules, 0), MacBookRules, 0), IMacRules, 0), PadRules, 0), PhoneRules, 0), AppleWatchRules, 0), MacOSRules, 0), PadOSRules, 0), IOSRules, 0), WatchOSRules, 0)
  {
    GroupsValid();
    ApplyFromAppend(s, AppleRules, MacRules);
    ApplyFromAppend(s, AppleRules + MacRules, MacBookRules);
    ApplyFromAppend(s, AppleRules + MacRules + MacBookRules, IMacRules);
    ApplyFromAppend(s, AppleRules + MacRules + MacBookRules + IMacRules, PadRules);
    ApplyFromAppend(s, AppleRules + MacRules + MacBookRules + IMacRules + PadRules, PhoneRules);
    ApplyFromAppend(s, AppleRules + MacRules + MacBookRules + IMacRules + PadRules + PhoneRules, AppleWatchRules);
    ApplyFromAppend(s, AppleRules + MacRules + MacBookRules + IMacRules + PadRules + PhoneRules + AppleWatchRules, MacOSRules);
    ApplyFromAppend(s, AppleRules + MacRules + MacBookRules + IMacRules + PadRules + PhoneRules + AppleWatchRules + MacOSRules, PadOSRules);
    ApplyFromAppend(s, AppleRules + MacRules + MacBookRules + IMacRules + PadRules + PhoneRules + AppleWatchRules + MacOSRules + PadOSRules, IOSRules);
    ApplyFromAppend(s, AppleRules + MacRules + MacBookRules + IMacRules + PadRules + PhoneRules + AppleWatchRules + MacOSRules + PadOSRules + IOSRules, WatchOSRules);
  }

  const AppleData: seq<Rule> := [("apple", "lemon"), ("apple", "lemon"), ("apple", "lemon")]

  const MacData: seq<Rule> := [("mac", "desktop"), ("mac", "desktop"), ("mac", "desktop")]

  const MacBookData: seq<Rule> := [("macbook", "desktopbook"), ("macbook", "desktopbook"), ("macbook", "desktopbook")]

  const IMacData: seq<Rule> := [("imac", "idesktop"), ("imac", "idesktop"), ("imac", "idesktop")]

  const PadData: seq<Rule> := [("ipad", "pad"), ("ipad", "pad"), ("ipad", "pad")]

  const PhoneData: seq<Rule> := [("iphone", "phone"), ("iphone", "phone"), ("iphone", "phone")]

  const AppleWatchData: seq<Rule> := [("apple watch", "lemon watch"), ("apple watch", "lemon watch"), ("apple watch", "lemon watch")]

  const MacOSData: seq<Rule> := [("macos", "desktopos"), ("macos", "desktopos"), ("macos", "desktopos")]

  const PadOSData: seq<Rule> := [("ipados", "pados"), ("ipados", "pados"), ("ipados", "pados")]

  const IOSData: seq<Rule> := [("ios", "phoneos"), ("ios", "phoneos"), ("ios", "phoneos")]

  const WatchOSData: seq<Rule> := [("watchos", "lemon watchos"), ("watchos", "lemon watchos"), ("watchos", "lemon watchos")]

  /** The table as the data-attribute pass sees it: every pattern and replacement lowercased. */
  const DataMappings: seq<Rule> :=
    AppleData + MacData + MacBookData + IMacData
    + PadData + PhoneData + AppleWatchData
    + MacOSData + PadOSData + IOSData + WatchOSData

  lemma AppleLowered()
    ensures LowerRules(AppleRules) == AppleData
  {
    LowerIs("Apple", "apple");
    LowerIs("LemOn", "lemon");
    LowerIs("apple", "apple");
    LowerIs("LemOn", "lemon");
    LowerIs("APPLE", "apple");
    LowerIs("LEMON", "lemon");
  }

  lemma MacLowered()
    ensures LowerRules(MacRules) == MacData
  {
    LowerIs("Mac", "mac");
    LowerIs("Desktop", "desktop");
    LowerIs("mac", "mac");
    LowerIs("Desktop", "desktop");
    LowerIs("MAC", "mac");
    LowerIs("DESKTOP", "desktop");
  }

  lemma MacBookLowered()
    ensures LowerRules(MacBookRules) == MacBookData
  {
    LowerIs("MacBook", "macbook");
    LowerIs("DesktopBook", "desktopbook");
    LowerIs("macbook", "macbook");
    LowerIs("DesktopBook", "desktopbook");
    LowerIs("MACBOOK", "macbook");
    LowerIs("DESKTOPBOOK", "desktopbook");
  }

  lemma IMacLowered()
    ensures LowerRules(IMacRules) == IMacData
  {
    LowerIs("iMac", "imac");
    LowerIs("iDesktop", "idesktop");
    LowerIs("imac", "imac");
    LowerIs("iDesktop", "idesktop");
    LowerIs("IMAC", "imac");
    LowerIs("IDESKTOP", "idesktop");
  }

  lemma PadLowered()
    ensures LowerRules(PadRules) == PadData
  {
    LowerIs("iPad", "ipad");
    LowerIs("Pad", "pad");
    LowerIs("ipad", "ipad");
    LowerIs("Pad", "pad");
    LowerIs("IPAD", "ipad");
    LowerIs("PAD", "pad");
  }

  lemma PhoneLowered()
    ensures LowerRules(PhoneRules) == PhoneData
  {
    LowerIs("iPhone", "iphone");
    LowerIs("Phone", "phone");
    LowerIs("iphone", "iphone");
    LowerIs("Phone", "phone");
    LowerIs("IPHONE", "iphone");
    LowerIs("PHONE", "phone");
  }

  lemma AppleWatchLowered()
    ensures LowerRules(AppleWatchRules) == AppleWatchData
  {
    LowerIs("Apple Watch", "apple watch");
    LowerIs("LemOn Watch", "lemon watch");
    LowerIs("apple watch", "apple watch");
    LowerIs("LemOn Watch", "lemon watch");
    LowerIs("APPLE WATCH", "apple watch");
    LowerIs("LEMON WATCH", "lemon watch");
  }

  lemma MacOSLowered()
    ensures LowerRules(MacOSRules) == MacOSData
  {
    LowerIs("MacOS", "macos");
    LowerIs("DesktopOS", "desktopos");
    LowerIs("macOS", "macos");
    LowerIs("DesktopOS", "desktopos");
    LowerIs("MACOS", "macos");
    LowerIs("DESKTOPOS", "desktopos");
  }

  lemma PadOSLowered()
    ensures LowerRules(PadOSRules) == PadOSData
  {
    LowerIs("iPadOS", "ipados");
    LowerIs("PadOS", "pados");
    LowerIs("ipadOS", "ipados");
    LowerIs("PadOS", "pados");
    LowerIs("IPADOS", "ipados");
    LowerIs("PADOS", "pados");
  }

  lemma IOSLowered()
    ensures LowerRules(IOSRules) == IOSData
  {
    LowerIs("iOS", "ios");
    LowerIs("PhoneOS", "phoneos");
    LowerIs("ios", "ios");
    LowerIs("PhoneOS", "phoneos");
    LowerIs("IOS", "ios");
    LowerIs("PHONEOS", "phoneos");
  }

  lemma WatchOSLowered()
    ensures LowerRules(WatchOSRules) == WatchOSData
  {
    LowerIs("watchOS", "watchos");
    LowerIs("LemOn WatchOS", "lemon watchos");
    LowerIs("watchos", "watchos");
    LowerIs("LemOn WatchOS", "lemon watchos");
    LowerIs("WATCHOS", "watchos");
    LowerIs("LEMON WATCHOS", "lemon watchos");
  }

  lemma DataGroupsValid()
    ensures ValidRules(AppleData)
      && ValidRules(MacData)
      && ValidRules(MacBookData)
      && ValidRules(IMacData)
      && ValidRules(PadData)
      && ValidRules(PhoneData)
      && ValidRules(AppleWatchData)
      && ValidRules(MacOSData)
      && ValidRules(PadOSData)
      && ValidRules(IOSData)
      && ValidRules(WatchOSData)
  {
  }

  lemma DataMappingsValid()
    ensures ValidRules(DataMappings)
  {
    DataGroupsValid();
    ValidAppend(AppleData, MacData);
    ValidAppend(AppleData + MacData, MacBookData);
    ValidAppend(AppleData + MacData + MacBookData, IMacData);
    ValidAppend(AppleData + MacData + MacBookData + IMacData, PadData);
    ValidAppend(AppleData + MacData + MacBookData + IMacData + PadData, PhoneData);
    ValidAppend(AppleData + MacData + MacBookData + IMacData + PadData + PhoneData, AppleWatchData);
    ValidAppend(AppleData + MacData + MacBookData + IMacData + PadData + PhoneData + AppleWatchData, MacOSData);
    ValidAppend(AppleData + MacData + MacBookData + IMacData + PadData + PhoneData + AppleWatchData + MacOSData, PadOSData);
    ValidAppend(AppleData + MacData + MacBookData + IMacData + PadData + PhoneData + AppleWatchData + MacOSData + PadOSData, IOSData);
    ValidAppend(AppleData + MacData + MacBookData + IMacData + PadData + PhoneData + AppleWatchData + MacOSData + PadOSData + IOSData, WatchOSData);
  }

  /** Lowercasing the mapping table gives DataMappings. */
  lemma DataMappingsAreLowered()
    ensures LowerRules(BrandingMappings) == DataMappings
  {
    AppleLowered();
    MacLowered();
    MacBookLowered();
    IMacLowered();
    PadLowered();
    PhoneLowered();
    AppleWatchLowered();
    MacOSLowered();
    PadOSLowered();
    IOSLowered();
    WatchOSLowered();
    LowerRulesAppend(AppleRules + MacRules + MacBookRules + IMacRules + PadRules + PhoneRules + AppleWatchRules + MacOSRules + PadOSRules + IOSRules, WatchOSRules);
    LowerRulesAppend(AppleRules + MacRules + MacBookRules + IMacRules + PadRules + PhoneRules + AppleWatchRules + MacOSRules + PadOSRules, IOSRules);
    LowerRulesAppend(AppleRules + MacRules + MacBookRules + IMacRules + PadRules + PhoneRules + AppleWatchRules + MacOSRules, PadOSRules);
    LowerRulesAppend(AppleRules + MacRules + MacBookRules + IMacRules + PadRules + PhoneRules + AppleWatchRules, MacOSRules);
    LowerRulesAppend(AppleRules + MacRules + MacBookRules + IMacRules + PadRules + PhoneRules, AppleWatchRules);
    LowerRulesAppend(AppleRules + MacRules + MacBookRules + IMacRules + PadRules, PhoneRules);
    LowerRulesAppend(AppleRules + MacRules + MacBookRules + IMacRules, PadRules);
    LowerRulesAppend(AppleRules + MacRules + MacBookRules, IMacRules);
    LowerRulesAppend(AppleRules + MacRules, MacBookRules);
    LowerRulesAppend(AppleRules, MacRules);
  }

  /** What the data-attribute pass makes of one attribute value. */
  function RebrandData(s: string): string
  {
    MappingsValid();
    ApplyFrom(s, LowerRules(BrandingMappings), 0)
  }

  /** A value holding none of the lower-cased patterns passes through the data-attribute pass unchanged. */
  lemma RebrandDataPassesThrough(s: string)
    requires forall k :: 0 <= k < |BrandingMappings| ==> !Contains(s, Lower(BrandingMappings[k].0))
    ensures RebrandData(s) == s
  {
    MappingsValid();
    NoPatternNoChange(s, LowerRules(BrandingMappings));
  }

  /** The data-attribute pass, group by group. */
  lemma RebrandDataInGroups(s: string)
    ensures
      RebrandData(s) ==
      ApplyFrom(ApplyFrom(ApplyFrom(ApplyFrom(ApplyFrom(ApplyFrom(ApplyFrom(ApplyFrom(ApplyFrom(ApplyFrom(ApplyFrom(s, AppleData, 0), MacData, 0), MacBookData, 0), IMacData, 0), PadData, 0), PhoneData, 0), AppleWatchData, 0), MacOSData, 0), PadOSData, 0), IOSData, 0), WatchOSData, 0)
  {
    DataMappingsAreLowered();
    DataGroupsValid();
    ApplyFromAppend(s, AppleData, MacData);
    ApplyFromAppend(s, AppleData + MacData, MacBookData);
    ApplyFromAppend(s, AppleData + MacData + MacBookData, IMacData);
    ApplyFromAppend(s, AppleData + MacData + MacBookData + IMacData, PadData);
    ApplyFromAppend(s, AppleData + MacData + MacBookData + IMacData + PadData, PhoneData);
    ApplyFromAppend(s, AppleData + MacData + MacBookData + IMacData + PadData + PhoneData, AppleWatchData);
    ApplyFromAppend(s, AppleData + MacData + MacBookData + IMacData + PadData + PhoneData + AppleWatchData, MacOSData);
    ApplyFromAppend(s, AppleData + MacData + MacBookData + IMacData + PadData + PhoneData + AppleWatchData + MacOSData, PadOSData);
    ApplyFromAppend(s, AppleData + MacData + MacBookData + IMacData + PadData + PhoneData + AppleWatchData + MacOSData + PadOSData, IOSData);
    ApplyFromAppend(s, AppleData + MacData + MacBookData + IMacData + PadData + PhoneData + AppleWatchData + MacOSData + PadOSData + IOSData, WatchOSData);
  }

  /** A replacement step leaves the text as it was exactly when the pattern is absent or replaced by itself. */
  lemma StepUnchangedIff(s: string, rule: Rule)
    requires |rule.0| > 0
    ensures Step(s, rule) == s <==> !Contains(s, rule.0) || rule.0 == rule.1
  {
    if Contains(s, rule.0) {
      assert Step(s, rule) == ReplaceAll(s, rule.0, rule.1);
    }
  }

  /** Rules whose patterns do not occur in the text pass over it. */
  lemma {:induction false} SkipAbsent(s: string, rules: seq<Rule>, i: nat, j: nat)
    requires ValidRules(rules) && i <= j <= |rules|
    requires forall k :: i <= k < j ==> !Contains(s, rules[k].0)
    ensures ApplyFrom(s, rules, i) == ApplyFrom(s, rules, j)
    ensures FiredFrom(s, rules, i) == FiredFrom(s, rules, j)
    decreases j - i
  {
    if i < j {
      assert Step(s, rules[i]) == s;
      SkipAbsent(s, rules, i + 1, j);
    }
  }

  /** Text in which no pattern occurs is left unchanged and not marked as updated. */
  lemma NoPatternNoChange(s: string, rules: seq<Rule>)
    requires ValidRules(rules)
    requires forall k :: 0 <= k < |rules| ==> !Contains(s, rules[k].0)
    ensures ApplyFrom(s, rules, 0) == s && !FiredFrom(s, rules, 0)
  {
    SkipAbsent(s, rules, 0, |rules|);
  }

  /** A text the rules never fire on comes out unchanged, so skipping the write loses nothing. */
  lemma {:induction false} NotFiredUnchanged(s: string, rules: seq<Rule>, i: nat)
    requires ValidRules(rules) && i <= |rules|
    requires !FiredFrom(s, rules, i)
    ensures ApplyFrom(s, rules, i) == s
    decreases |rules| - i
  {
    if i < |rules| {
      assert Step(s, rules[i]) == s;
      NotFiredUnchanged(s, rules, i + 1);
    }
  }

  /** If the first rule fires, the text changes at that step (no rule maps a pattern to itself). */
  lemma FiringRuleChanges(s: string, k: nat)
    requires k < |BrandingMappings|
    requires Contains(s, BrandingMappings[k].0)
    ensures |BrandingMappings[k].0| > 0 && Step(s, BrandingMappings[k]) != s
  {
    MappingsAreLiteral();
    StepUnchangedIff(s, BrandingMappings[k]);
  }

  /**
   * The inner loop of the text pass for one string: each rule whose pattern
   * occurs in the current text rewrites it and raises the updated flag.
   */
  method RewriteText(text: string, rules: seq<Rule>) returns (result: string, updated: bool)
    requires ValidRules(rules)
    ensures result == ApplyFrom(text, rules, 0)
    ensures updated == FiredFrom(text, rules, 0)
    ensures !updated ==> result == text
  {
    result := text;
    updated := false;
    var i := 0;
    while i < |rules|
      invariant 0 <= i <= |rules|
      invariant ApplyFrom(result, rules, i) == ApplyFrom(text, rules, 0)
      invariant FiredFrom(text, rules, 0) == (updated || FiredFrom(result, rules, i))
    {
      if Contains(result, rules[i].0) {
        result := ReplaceAll(result, rules[i].0, rules[i].1);
        updated := true;
      }
      i := i + 1;
    }
    if !updated {
      NotFiredUnchanged(text, rules, 0);
    }
  }

  /** An attribute value the pass may rewrite; an absent attribute stays absent. */
  function RewriteAttribute(v: Option<string>, rules: seq<Rule>): (r: Option<string>)
    requires ValidRules(rules)
    ensures r.None? <==> v.None?
    ensures v.Some? ==> r.value == ApplyFrom(v.value, rules, 0)
  {
    match v
    case None => None
    case Some(s) => Some(ApplyFrom(s, rules, 0))
  }

  /** An element matched by `[data-product], [data-category], [data-name]`. */
  datatype DataElement = DataElement(product: Option<string>, category: Option<string>, name: Option<string>)

  /** An element matched by `[alt], [title], [aria-label]`. */
  datatype LabelledElement = LabelledElement(alt: Option<string>, title: Option<string>, ariaLabel: Option<string>)

  /** The data pass rewrites product and category with the lowercased table and never touches the name. */
  function RebrandDataElement(e: DataElement): (r: DataElement)
    ensures r.name == e.name
    ensures r.product.Some? <==> e.product.Some?
    ensures r.category.Some? <==> e.category.Some?
    ensures e.product.Some? ==> r.product.value == RebrandData(e.product.value)
    ensures e.category.Some? ==> r.category.value == RebrandData(e.category.value)
  {
    MappingsValid();
    var rules := LowerRules(BrandingMappings);
    e.(product := RewriteAttribute(e.product, rules), category := RewriteAttribute(e.category, rules))
  }

  /** The attribute pass gives alt, title and aria-label the same case-sensitive rules as text. */
  function RebrandLabels(e: LabelledElement): (r: LabelledElement)
    ensures r.alt.Some? <==> e.alt.Some?
    ensures r.title.Some? <==> e.title.Some?
    ensures r.ariaLabel.Some? <==> e.ariaLabel.Some?
    ensures e.alt.Some? ==> r.alt.value == Rebrand(e.alt.value)
    ensures e.title.Some? ==> r.title.value == Rebrand(e.title.value)
    ensures e.ariaLabel.Some? ==> r.ariaLabel.value == Rebrand(e.ariaLabel.value)
  {
    MappingsValid();
    LabelledElement(
      RewriteAttribute(e.alt, BrandingMappings),
      RewriteAttribute(e.title, BrandingMappings),
      RewriteAttribute(e.ariaLabel, BrandingMappings))
  }

  /** Rewrites one attribute value when it is present. */
  method RewriteAttributeValue(v: Option<string>, rules: seq<Rule>) returns (r: Option<string>)
    requires ValidRules(rules)
    ensures r == RewriteAttribute(v, rules)
  {
    r := v;
    if v.Some? {
      var text, _ := RewriteText(v.value, rules);
      r := Some(text);
    }
  }

  /** One element's step of the data pass: the inner loop over the rules for each attribute. */
  method RewriteDataElement(e: DataElement) returns (r: DataElement)
    ensures r == RebrandDataElement(e)
  {
    MappingsValid();
    var rules := LowerRules(BrandingMappings);
    var product := RewriteAttributeValue(e.product, rules);
    var category := RewriteAttributeValue(e.category, rules);
    r := e.(product := product, category := category);
  }

  /** One element's step of the attribute pass. */
  method RewriteLabels(e: LabelledElement) returns (r: LabelledElement)
    ensures r == RebrandLabels(e)
  {
    MappingsValid();
    var alt := RewriteAttributeValue(e.alt, BrandingMappings);
    var title := RewriteAttributeValue(e.title, BrandingMappings);
    var ariaLabel := RewriteAttributeValue(e.ariaLabel, BrandingMappings);
    r := LabelledElement(alt, title, ariaLabel);
  }

  /** The page content the pass reads and writes, as flat lists in document order. */
  class BrandingUpdater {
    var textNodes: seq<string>
    var dataElements: seq<DataElement>
    var labelled: seq<LabelledElement>

    constructor (textNodes: seq<string>, dataElements: seq<DataElement>, labelled: seq<LabelledElement>)
      ensures this.textNodes == textNodes && this.dataElements == dataElements && this.labelled == labelled
    {
      this.textNodes := textNodes;
      this.dataElements := dataElements;
      this.labelled := labelled;
    }

    /** Every text node ends up rebranded; one no rule fired on is not written. */
    method UpdateTextContent()
      modifies this`textNodes
      ensures |textNodes| == |old(textNodes)|
      ensures forall i :: 0 <= i < |textNodes| ==> textNodes[i] == Rebrand(old(textNodes)[i])
    {
      MappingsValid();
      var i := 0;
      while i < |textNodes|
        invariant 0 <= i <= |textNodes| == |old(textNodes)|
        invariant forall j :: 0 <= j < i ==> textNodes[j] == Rebrand(old(textNodes)[j])
        invariant forall j :: i <= j < |textNodes| ==> textNodes[j] == old(textNodes)[j]
      {
        var text, updated := RewriteText(textNodes[i], BrandingMappings);
        if updated {
          textNodes := textNodes[i := text];
        }
        i := i + 1;
      }
    }

    method UpdateDataAttributes()
      modifies this`dataElements
      ensures |dataElements| == |old(dataElements)|
      ensures forall i :: 0 <= i < |dataElements| ==> dataElements[i] == RebrandDataElement(old(dataElements)[i])
    {
      var i := 0;
      while i < |dataElements|
        invariant 0 <= i <= |dataElements| == |old(dataElements)|
        invariant forall j :: 0 <= j < i ==> dataElements[j] == RebrandDataElement(old(dataElements)[j])
        invariant forall j :: i <= j < |dataElements| ==> dataElements[j] == old(dataElements)[j]
      {
        var e := RewriteDataElement(dataElements[i]);
        dataElements := dataElements[i := e];
        i := i + 1;
      }
    }

    method UpdateAttributes()
      modifies this`labelled
      ensures |labelled| == |old(labelled)|
      ensures forall i :: 0 <= i < |labelled| ==> labelled[i] == RebrandLabels(old(labelled)[i])
    {
      var i := 0;
      while i < |labelled|
        invariant 0 <= i <= |labelled| == |old(labelled)|
        invariant forall j :: 0 <= j < i ==> labelled[j] == RebrandLabels(old(labelled)[j])
        invariant forall j :: i <= j < |labelled| ==> labelled[j] == old(labelled)[j]
      {
        var e := RewriteLabels(labelled[i]);
        labelled := labelled[i := e];
        i := i + 1;
      }
    }

    /** The three passes in turn. */
    method UpdateBranding()
      modifies this
      ensures |textNodes| == |old(textNodes)| && |dataElements| == |old(dataElements)| && |labelled| == |old(labelled)|
      ensures forall i :: 0 <= i < |textNodes| ==> textNodes[i] == Rebrand(old(textNodes)[i])
      ensures forall i :: 0 <= i < |dataElements| ==> dataElements[i] == RebrandDataElement(old(dataElements)[i])
      ensures forall i :: 0 <= i < |labelled| ==> labelled[i] == RebrandLabels(old(labelled)[i])
    {
      UpdateTextContent();
      UpdateDataAttributes();
      UpdateAttributes();
    }
  }
}
