/**
 * Worked examples of the rebranding pass on concrete strings. Each example
 * follows the table one group of three spellings at a time (RebrandInGroups,
 * ApplyThree). A rule whose pattern holds a character the text lacks leaves
 * the text alone (StepAbsentChar); a rule that fires replaces its one
 * occurrence (StepFiresOnce) and gets a lemma of its own, as does the rare
 * absent pattern all of whose characters occur in the text.
 */
module BrandingExamples {
  import opened Text
  import opened Branding

  /** The lowercase `mac` rule fires before `macbook`, so the later rule never sees its pattern. */
  lemma MacbookShadowed()
    ensures Rebrand("macbook") == "Desktopbook"
  {
    RebrandInGroups("macbook");
    MacbookShadowedApple();
    MacbookShadowedMac();
    MacbookShadowedMacBook();
    MacbookShadowedIMac();
    MacbookShadowedPad();
    MacbookShadowedPhone();
    MacbookShadowedAppleWatch();
    MacbookShadowedMacOS();
    MacbookShadowedPadOS();
    MacbookShadowedIOS();
    MacbookShadowedWatchOS();
  }

  /** The one-word `apple` rule fires before `apple watch`, leaving the second word as it was. */
  lemma AppleWatchShadowed()
    ensures Rebrand("apple watch") == "LemOn watch"
  {
    RebrandInGroups("apple watch");
    AppleWatchShadowedApple();
    AppleWatchShadowedMac();
    AppleWatchShadowedMacBook();
    AppleWatchShadowedIMac();
    AppleWatchShadowedPad();
    AppleWatchShadowedPhone();
    AppleWatchShadowedAppleWatch();
    AppleWatchShadowedMacOS();
    AppleWatchShadowedPadOS();
    AppleWatchShadowedIOS();
    AppleWatchShadowedWatchOS();
  }

  /** Replacement is by substring, not by word: `ios` is rewritten inside an ordinary word. */
  lemma SubstringNotWord()
    ensures Rebrand("studios") == "studPhoneOS"
  {
    RebrandInGroups("studios");
    SubstringNotWordApple();
    SubstringNotWordMac();
    SubstringNotWordMacBook();
    SubstringNotWordIMac();
    SubstringNotWordPad();
    SubstringNotWordPhone();
    SubstringNotWordAppleWatch();
    SubstringNotWordMacOS();
    SubstringNotWordPadOS();
    SubstringNotWordIOS();
    SubstringNotWordWatchOS();
  }

  /** A second pass rewrites the output of the first: the replacement for `WATCHOS` contains the pattern. */
  lemma NotIdempotent()
    ensures Rebrand("WATCHOS") == "LEMON WATCHOS"
    ensures Rebrand("LEMON WATCHOS") == "LEMON LEMON WATCHOS"
  {
    NotIdempotentA();
    NotIdempotentB();
  }

  /** Lowercased, the three watchOS spellings become one pattern whose replacement contains it, so the data pass applies it three times where the text pass applies one rule. */
  lemma DataRulesCollide()
    ensures RebrandData("watchos") == "lemon lemon lemon watchos"
    ensures Rebrand("watchos") == "LemOn WatchOS"
  {
    DataRulesCollideA();
    DataRulesCollideB();
  }

  // The groups of the examples above, one lemma per group and starting text.

  lemma MacbookShadowedApple()
    ensures ApplyFrom("macbook", AppleRules, 0) == "macbook"
  {
    StepAbsentChar("macbook", ("Apple", "LemOn"), 0);
    StepAbsentChar("macbook", ("apple", "LemOn"), 1);
    StepAbsentChar("macbook", ("APPLE", "LEMON"), 0);
    ApplyThree("macbook", AppleRules);
  }

  lemma MacbookShadowedMacFires1()
    ensures Step("macbook", ("mac", "Desktop")) == "Desktopbook"
  {
    MissingCharAbsent("book", "mac", 0);
    assert "" + "mac" + "book" == "macbook";
    assert "" + "Desktop" + "book" == "Desktopbook";
    StepFiresOnce("", "mac", "book", "Desktop");
  }

  lemma MacbookShadowedMac()
    ensures ApplyFrom("macbook", MacRules, 0) == "Desktopbook"
  {
    StepAbsentChar("macbook", ("Mac", "Desktop"), 0);
    MacbookShadowedMacFires1();
    StepAbsentChar("Desktopbook", ("MAC", "DESKTOP"), 0);
    ApplyThree("macbook", MacRules);
  }

  lemma MacbookShadowedMacBook()
    ensures ApplyFrom("Desktopbook", MacBookRules, 0) == "Desktopbook"
  {
    StepAbsentChar("Desktopbook", ("MacBook", "DesktopBook"), 0);
    StepAbsentChar("Desktopbook", ("macbook", "DesktopBook"), 0);
    StepAbsentChar("Desktopbook", ("MACBOOK", "DESKTOPBOOK"), 0);
    ApplyThree("Desktopbook", MacBookRules);
  }

  lemma MacbookShadowedIMac()
    ensures ApplyFrom("Desktopbook", IMacRules, 0) == "Desktopbook"
  {
    StepAbsentChar("Desktopbook", ("iMac", "iDesktop"), 0);
    StepAbsentChar("Desktopbook", ("imac", "iDesktop"), 0);
    StepAbsentChar("Desktopbook", ("IMAC", "IDESKTOP"), 0);
    ApplyThree("Desktopbook", IMacRules);
  }

  lemma MacbookShadowedPad()
    ensures ApplyFrom("Desktopbook", PadRules, 0) == "Desktopbook"
  {
    StepAbsentChar("Desktopbook", ("iPad", "Pad"), 0);
    StepAbsentChar("Desktopbook", ("ipad", "Pad"), 0);
    StepAbsentChar("Desktopbook", ("IPAD", "PAD"), 0);
    ApplyThree("Desktopbook", PadRules);
  }

  lemma MacbookShadowedPhone()
    ensures ApplyFrom("Desktopbook", PhoneRules, 0) == "Desktopbook"
  {
    StepAbsentChar("Desktopbook", ("iPhone", "Phone"), 0);
    StepAbsentChar("Desktopbook", ("iphone", "Phone"), 0);
    StepAbsentChar("Desktopbook", ("IPHONE", "PHONE"), 0);
    ApplyThree("Desktopbook", PhoneRules);
  }

  lemma MacbookShadowedAppleWatch()
    ensures ApplyFrom("Desktopbook", AppleWatchRules, 0) == "Desktopbook"
  {
    StepAbsentChar("Desktopbook", ("Apple Watch", "LemOn Watch"), 0);
    StepAbsentChar("Desktopbook", ("apple watch", "LemOn Watch"), 0);
    StepAbsentChar("Desktopbook", ("APPLE WATCH", "LEMON WATCH"), 0);
    ApplyThree("Desktopbook", AppleWatchRules);
  }

  lemma MacbookShadowedMacOS()
    ensures ApplyFrom("Desktopbook", MacOSRules, 0) == "Desktopbook"
  {
    StepAbsentChar("Desktopbook", ("MacOS", "DesktopOS"), 0);
    StepAbsentChar("Desktopbook", ("macOS", "DesktopOS"), 0);
    StepAbsentChar("Desktopbook", ("MACOS", "DESKTOPOS"), 0);
    ApplyThree("Desktopbook", MacOSRules);
  }

  lemma MacbookShadowedPadOS()
    ensures ApplyFrom("Desktopbook", PadOSRules, 0) == "Desktopbook"
  {
    StepAbsentChar("Desktopbook", ("iPadOS", "PadOS"), 0);
    StepAbsentChar("Desktopbook", ("ipadOS", "PadOS"), 0);
    StepAbsentChar("Desktopbook", ("IPADOS", "PADOS"), 0);
    ApplyThree("Desktopbook", PadOSRules);
  }

  lemma MacbookShadowedIOS()
    ensures ApplyFrom("Desktopbook", IOSRules, 0) == "Desktopbook"
  {
    StepAbsentChar("Desktopbook", ("iOS", "PhoneOS"), 0);
    StepAbsentChar("Desktopbook", ("ios", "PhoneOS"), 0);
    StepAbsentChar("Desktopbook", ("IOS", "PHONEOS"), 0);
    ApplyThree("Desktopbook", IOSRules);
  }

  lemma MacbookShadowedWatchOS()
    ensures ApplyFrom("Desktopbook", WatchOSRules, 0) == "Desktopbook"
  {
    StepAbsentChar("Desktopbook", ("watchOS", "LemOn WatchOS"), 0);
    StepAbsentChar("Desktopbook", ("watchos", "LemOn WatchOS"), 0);
    StepAbsentChar("Desktopbook", ("WATCHOS", "LEMON WATCHOS"), 0);
    ApplyThree("Desktopbook", WatchOSRules);
  }

  lemma AppleWatchShadowedAppleFires1()
    ensures Step("apple watch", ("apple", "LemOn")) == "LemOn watch"
  {
    MissingCharAbsent(" watch", "apple", 1);
    assert "" + "apple" + " watch" == "apple watch";
    assert "" + "LemOn" + " watch" == "LemOn watch";
    StepFiresOnce("", "apple", " watch", "LemOn");
  }

  lemma AppleWatchShadowedApple()
    ensures ApplyFrom("apple watch", AppleRules, 0) == "LemOn watch"
  {
    StepAbsentChar("apple watch", ("Apple", "LemOn"), 0);
    AppleWatchShadowedAppleFires1();
    StepAbsentChar("LemOn watch", ("APPLE", "LEMON"), 0);
    ApplyThree("apple watch", AppleRules);
  }

  lemma AppleWatchShadowedMacMisses1()
    ensures Step("LemOn watch", ("mac", "Desktop")) == "LemOn watch"
  {
    assert !ContainsFrom("LemOn watch", "mac", 6);
    assert !ContainsFrom("LemOn watch", "mac", 3);
  }

  lemma AppleWatchShadowedMac()
    ensures ApplyFrom("LemOn watch", MacRules, 0) == "LemOn watch"
  {
    StepAbsentChar("LemOn watch", ("Mac", "Desktop"), 0);
    AppleWatchShadowedMacMisses1();
    StepAbsentChar("LemOn watch", ("MAC", "DESKTOP"), 0);
    ApplyThree("LemOn watch", MacRules);
  }

  lemma AppleWatchShadowedMacBook()
    ensures ApplyFrom("LemOn watch", MacBookRules, 0) == "LemOn watch"
  {
    StepAbsentChar("LemOn watch", ("MacBook", "DesktopBook"), 0);
    StepAbsentChar("LemOn watch", ("macbook", "DesktopBook"), 3);
    StepAbsentChar("LemOn watch", ("MACBOOK", "DESKTOPBOOK"), 0);
    ApplyThree("LemOn watch", MacBookRules);
  }

  lemma AppleWatchShadowedIMac()
    ensures ApplyFrom("LemOn watch", IMacRules, 0) == "LemOn watch"
  {
    StepAbsentChar("LemOn watch", ("iMac", "iDesktop"), 0);
    StepAbsentChar("LemOn watch", ("imac", "iDesktop"), 0);
    StepAbsentChar("LemOn watch", ("IMAC", "IDESKTOP"), 0);
    ApplyThree("LemOn watch", IMacRules);
  }

  lemma AppleWatchShadowedPad()
    ensures ApplyFrom("LemOn watch", PadRules, 0) == "LemOn watch"
  {
    StepAbsentChar("LemOn watch", ("iPad", "Pad"), 0);
    StepAbsentChar("LemOn watch", ("ipad", "Pad"), 0);
    StepAbsentChar("LemOn watch", ("IPAD", "PAD"), 0);
    ApplyThree("LemOn watch", PadRules);
  }

  lemma AppleWatchShadowedPhone()
    ensures ApplyFrom("LemOn watch", PhoneRules, 0) == "LemOn watch"
  {
    StepAbsentChar("LemOn watch", ("iPhone", "Phone"), 0);
    StepAbsentChar("LemOn watch", ("iphone", "Phone"), 0);
    StepAbsentChar("LemOn watch", ("IPHONE", "PHONE"), 0);
    ApplyThree("LemOn watch", PhoneRules);
  }

  lemma AppleWatchShadowedAppleWatch()
    ensures ApplyFrom("LemOn watch", AppleWatchRules, 0) == "LemOn watch"
  {
    StepAbsentChar("LemOn watch", ("Apple Watch", "LemOn Watch"), 0);
    StepAbsentChar("LemOn watch", ("apple watch", "LemOn Watch"), 1);
    StepAbsentChar("LemOn watch", ("APPLE WATCH", "LEMON WATCH"), 0);
    ApplyThree("LemOn watch", AppleWatchRules);
  }

  lemma AppleWatchShadowedMacOS()
    ensures ApplyFrom("LemOn watch", MacOSRules, 0) == "LemOn watch"
  {
    StepAbsentChar("LemOn watch", ("MacOS", "DesktopOS"), 0);
    StepAbsentChar("LemOn watch", ("macOS", "DesktopOS"), 4);
    StepAbsentChar("LemOn watch", ("MACOS", "DESKTOPOS"), 0);
    ApplyThree("LemOn watch", MacOSRules);
  }

  lemma AppleWatchShadowedPadOS()
    ensures ApplyFrom("LemOn watch", PadOSRules, 0) == "LemOn watch"
  {
    StepAbsentChar("LemOn watch", ("iPadOS", "PadOS"), 0);
    StepAbsentChar("LemOn watch", ("ipadOS", "PadOS"), 0);
    StepAbsentChar("LemOn watch", ("IPADOS", "PADOS"), 0);
    ApplyThree("LemOn watch", PadOSRules);
  }

  lemma AppleWatchShadowedIOS()
    ensures ApplyFrom("LemOn watch", IOSRules, 0) == "LemOn watch"
  {
    StepAbsentChar("LemOn watch", ("iOS", "PhoneOS"), 0);
    StepAbsentChar("LemOn watch", ("ios", "PhoneOS"), 0);
    StepAbsentChar("LemOn watch", ("IOS", "PHONEOS"), 0);
    ApplyThree("LemOn watch", IOSRules);
  }

  lemma AppleWatchShadowedWatchOS()
    ensures ApplyFrom("LemOn watch", WatchOSRules, 0) == "LemOn watch"
  {
    StepAbsentChar("LemOn watch", ("watchOS", "LemOn WatchOS"), 6);
    StepAbsentChar("LemOn watch", ("watchos", "LemOn WatchOS"), 5);
    StepAbsentChar("LemOn watch", ("WATCHOS", "LEMON WATCHOS"), 0);
    ApplyThree("LemOn watch", WatchOSRules);
  }

  lemma SubstringNotWordApple()
    ensures ApplyFrom("studios", AppleRules, 0) == "studios"
  {
    StepAbsentChar("studios", ("Apple", "LemOn"), 0);
    StepAbsentChar("studios", ("apple", "LemOn"), 0);
    StepAbsentChar("studios", ("APPLE", "LEMON"), 0);
    ApplyThree("studios", AppleRules);
  }

  lemma SubstringNotWordMac()
    ensures ApplyFrom("studios", MacRules, 0) == "studios"
  {
    StepAbsentChar("studios", ("Mac", "Desktop"), 0);
    StepAbsentChar("studios", ("mac", "Desktop"), 0);
    StepAbsentChar("studios", ("MAC", "DESKTOP"), 0);
    ApplyThree("studios", MacRules);
  }

  lemma SubstringNotWordMacBook()
    ensures ApplyFrom("studios", MacBookRules, 0) == "studios"
  {
    StepAbsentChar("studios", ("MacBook", "DesktopBook"), 0);
    StepAbsentChar("studios", ("macbook", "DesktopBook"), 0);
    StepAbsentChar("studios", ("MACBOOK", "DESKTOPBOOK"), 0);
    ApplyThree("studios", MacBookRules);
  }

  lemma SubstringNotWordIMac()
    ensures ApplyFrom("studios", IMacRules, 0) == "studios"
  {
    StepAbsentChar("studios", ("iMac", "iDesktop"), 1);
    StepAbsentChar("studios", ("imac", "iDesktop"), 1);
    StepAbsentChar("studios", ("IMAC", "IDESKTOP"), 0);
    ApplyThree("studios", IMacRules);
  }

  lemma SubstringNotWordPad()
    ensures ApplyFrom("studios", PadRules, 0) == "studios"
  {
    StepAbsentChar("studios", ("iPad", "Pad"), 1);
    StepAbsentChar("studios", ("ipad", "Pad"), 1);
    StepAbsentChar("studios", ("IPAD", "PAD"), 0);
    ApplyThree("studios", PadRules);
  }

  lemma SubstringNotWordPhone()
    ensures ApplyFrom("studios", PhoneRules, 0) == "studios"
  {
    StepAbsentChar("studios", ("iPhone", "Phone"), 1);
    StepAbsentChar("studios", ("iphone", "Phone"), 1);
    StepAbsentChar("studios", ("IPHONE", "PHONE"), 0);
    ApplyThree("studios", PhoneRules);
  }

  lemma SubstringNotWordAppleWatch()
    ensures ApplyFrom("studios", AppleWatchRules, 0) == "studios"
  {
    StepAbsentChar("studios", ("Apple Watch", "LemOn Watch"), 0);
    StepAbsentChar("studios", ("apple watch", "LemOn Watch"), 0);
    StepAbsentChar("studios", ("APPLE WATCH", "LEMON WATCH"), 0);
    ApplyThree("studios", AppleWatchRules);
  }

  lemma SubstringNotWordMacOS()
    ensures ApplyFrom("studios", MacOSRules, 0) == "studios"
  {
    StepAbsentChar("studios", ("MacOS", "DesktopOS"), 0);
    StepAbsentChar("studios", ("macOS", "DesktopOS"), 0);
    StepAbsentChar("studios", ("MACOS", "DESKTOPOS"), 0);
    ApplyThree("studios", MacOSRules);
  }

  lemma SubstringNotWordPadOS()
    ensures ApplyFrom("studios", PadOSRules, 0) == "studios"
  {
    StepAbsentChar("studios", ("iPadOS", "PadOS"), 1);
    StepAbsentChar("studios", ("ipadOS", "PadOS"), 1);
    StepAbsentChar("studios", ("IPADOS", "PADOS"), 0);
    ApplyThree("studios", PadOSRules);
  }

  lemma SubstringNotWordIOSFires1()
    ensures Step("studios", ("ios", "PhoneOS")) == "studPhoneOS"
  {
    assert "stud" + "ios" == "studios";
    assert "stud" + "PhoneOS" == "studPhoneOS";
    StepFiresLast("stud", "ios", "PhoneOS");
  }

  lemma SubstringNotWordIOS()
    ensures ApplyFrom("studios", IOSRules, 0) == "studPhoneOS"
  {
    StepAbsentChar("studios", ("iOS", "PhoneOS"), 1);
    SubstringNotWordIOSFires1();
    StepAbsentChar("studPhoneOS", ("IOS", "PHONEOS"), 0);
    ApplyThree("studios", IOSRules);
  }

  lemma SubstringNotWordWatchOS()
    ensures ApplyFrom("studPhoneOS", WatchOSRules, 0) == "studPhoneOS"
  {
    StepAbsentChar("studPhoneOS", ("watchOS", "LemOn WatchOS"), 0);
    StepAbsentChar("studPhoneOS", ("watchos", "LemOn WatchOS"), 0);
    StepAbsentChar("studPhoneOS", ("WATCHOS", "LEMON WATCHOS"), 0);
    ApplyThree("studPhoneOS", WatchOSRules);
  }

  lemma NotIdempotentAApple()
    ensures ApplyFrom("WATCHOS", AppleRules, 0) == "WATCHOS"
  {
    StepAbsentChar("WATCHOS", ("Apple", "LemOn"), 1);
    StepAbsentChar("WATCHOS", ("apple", "LemOn"), 0);
    StepAbsentChar("WATCHOS", ("APPLE", "LEMON"), 1);
    ApplyThree("WATCHOS", AppleRules);
  }

  lemma NotIdempotentAMac()
    ensures ApplyFrom("WATCHOS", MacRules, 0) == "WATCHOS"
  {
    StepAbsentChar("WATCHOS", ("Mac", "Desktop"), 0);
    StepAbsentChar("WATCHOS", ("mac", "Desktop"), 0);
    StepAbsentChar("WATCHOS", ("MAC", "DESKTOP"), 0);
    ApplyThree("WATCHOS", MacRules);
  }

  lemma NotIdempotentAMacBook()
    ensures ApplyFrom("WATCHOS", MacBookRules, 0) == "WATCHOS"
  {
    StepAbsentChar("WATCHOS", ("MacBook", "DesktopBook"), 0);
    StepAbsentChar("WATCHOS", ("macbook", "DesktopBook"), 0);
    StepAbsentChar("WATCHOS", ("MACBOOK", "DESKTOPBOOK"), 0);
    ApplyThree("WATCHOS", MacBookRules);
  }

  lemma NotIdempotentAIMac()
    ensures ApplyFrom("WATCHOS", IMacRules, 0) == "WATCHOS"
  {
    StepAbsentChar("WATCHOS", ("iMac", "iDesktop"), 0);
    StepAbsentChar("WATCHOS", ("imac", "iDesktop"), 0);
    StepAbsentChar("WATCHOS", ("IMAC", "IDESKTOP"), 0);
    ApplyThree("WATCHOS", IMacRules);
  }

  lemma NotIdempotentAPad()
    ensures ApplyFrom("WATCHOS", PadRules, 0) == "WATCHOS"
  {
    StepAbsentChar("WATCHOS", ("iPad", "Pad"), 0);
    StepAbsentChar("WATCHOS", ("ipad", "Pad"), 0);
    StepAbsentChar("WATCHOS", ("IPAD", "PAD"), 0);
    ApplyThree("WATCHOS", PadRules);
  }

  lemma NotIdempotentAPhone()
    ensures ApplyFrom("WATCHOS", PhoneRules, 0) == "WATCHOS"
  {
    StepAbsentChar("WATCHOS", ("iPhone", "Phone"), 0);
    StepAbsentChar("WATCHOS", ("iphone", "Phone"), 0);
    StepAbsentChar("WATCHOS", ("IPHONE", "PHONE"), 0);
    ApplyThree("WATCHOS", PhoneRules);
  }

  lemma NotIdempotentAAppleWatch()
    ensures ApplyFrom("WATCHOS", AppleWatchRules, 0) == "WATCHOS"
  {
    StepAbsentChar("WATCHOS", ("Apple Watch", "LemOn Watch"), 1);
    StepAbsentChar("WATCHOS", ("apple watch", "LemOn Watch"), 0);
    StepAbsentChar("WATCHOS", ("APPLE WATCH", "LEMON WATCH"), 1);
    ApplyThree("WATCHOS", AppleWatchRules);
  }

  lemma NotIdempotentAMacOS()
    ensures ApplyFrom("WATCHOS", MacOSRules, 0) == "WATCHOS"
  {
    StepAbsentChar("WATCHOS", ("MacOS", "DesktopOS"), 0);
    StepAbsentChar("WATCHOS", ("macOS", "DesktopOS"), 0);
    StepAbsentChar("WATCHOS", ("MACOS", "DESKTOPOS"), 0);
    ApplyThree("WATCHOS", MacOSRules);
  }

  lemma NotIdempotentAPadOS()
    ensures ApplyFrom("WATCHOS", PadOSRules, 0) == "WATCHOS"
  {
    StepAbsentChar("WATCHOS", ("iPadOS", "PadOS"), 0);
    StepAbsentChar("WATCHOS", ("ipadOS", "PadOS"), 0);
    StepAbsentChar("WATCHOS", ("IPADOS", "PADOS"), 0);
    ApplyThree("WATCHOS", PadOSRules);
  }

  lemma NotIdempotentAIOS()
    ensures ApplyFrom("WATCHOS", IOSRules, 0) == "WATCHOS"
  {
    StepAbsentChar("WATCHOS", ("iOS", "PhoneOS"), 0);
    StepAbsentChar("WATCHOS", ("ios", "PhoneOS"), 0);
    StepAbsentChar("WATCHOS", ("IOS", "PHONEOS"), 0);
    ApplyThree("WATCHOS", IOSRules);
  }

  lemma NotIdempotentAWatchOSFires2()
    ensures Step("WATCHOS", ("WATCHOS", "LEMON WATCHOS")) == "LEMON WATCHOS"
  {
    assert "" + "WATCHOS" == "WATCHOS";
    assert "" + "LEMON WATCHOS" == "LEMON WATCHOS";
    StepFiresLast("", "WATCHOS", "LEMON WATCHOS");
  }

  lemma NotIdempotentAWatchOS()
    ensures ApplyFrom("WATCHOS", WatchOSRules, 0) == "LEMON WATCHOS"
  {
    StepAbsentChar("WATCHOS", ("watchOS", "LemOn WatchOS"), 0);
    StepAbsentChar("WATCHOS", ("watchos", "LemOn WatchOS"), 0);
    NotIdempotentAWatchOSFires2();
    ApplyThree("WATCHOS", WatchOSRules);
  }

  lemma NotIdempotentA()
    ensures Rebrand("WATCHOS") == "LEMON WATCHOS"
  {
    RebrandInGroups("WATCHOS");
    NotIdempotentAApple();
    NotIdempotentAMac();
    NotIdempotentAMacBook();
    NotIdempotentAIMac();
    NotIdempotentAPad();
    NotIdempotentAPhone();
    NotIdempotentAAppleWatch();
    NotIdempotentAMacOS();
    NotIdempotentAPadOS();
    NotIdempotentAIOS();
    NotIdempotentAWatchOS();
  }

  lemma NotIdempotentBApple()
    ensures ApplyFrom("LEMON WATCHOS", AppleRules, 0) == "LEMON WATCHOS"
  {
    StepAbsentChar("LEMON WATCHOS", ("Apple", "LemOn"), 1);
    StepAbsentChar("LEMON WATCHOS", ("apple", "LemOn"), 0);
    StepAbsentChar("LEMON WATCHOS", ("APPLE", "LEMON"), 1);
    ApplyThree("LEMON WATCHOS", AppleRules);
  }

  lemma NotIdempotentBMacMisses2()
    ensures Step("LEMON WATCHOS", ("MAC", "DESKTOP")) == "LEMON WATCHOS"
  {
    assert !ContainsFrom("LEMON WATCHOS", "MAC", 9);
    assert !ContainsFrom("LEMON WATCHOS", "MAC", 6);
    assert !ContainsFrom("LEMON WATCHOS", "MAC", 3);
  }

  lemma NotIdempotentBMac()
    ensures ApplyFrom("LEMON WATCHOS", MacRules, 0) == "LEMON WATCHOS"
  {
    StepAbsentChar("LEMON WATCHOS", ("Mac", "Desktop"), 1);
    StepAbsentChar("LEMON WATCHOS", ("mac", "Desktop"), 0);
    NotIdempotentBMacMisses2();
    ApplyThree("LEMON WATCHOS", MacRules);
  }

  lemma NotIdempotentBMacBook()
    ensures ApplyFrom("LEMON WATCHOS", MacBookRules, 0) == "LEMON WATCHOS"
  {
    StepAbsentChar("LEMON WATCHOS", ("MacBook", "DesktopBook"), 1);
    StepAbsentChar("LEMON WATCHOS", ("macbook", "DesktopBook"), 0);
    StepAbsentChar("LEMON WATCHOS", ("MACBOOK", "DESKTOPBOOK"), 3);
    ApplyThree("LEMON WATCHOS", MacBookRules);
  }

  lemma NotIdempotentBIMac()
    ensures ApplyFrom("LEMON WATCHOS", IMacRules, 0) == "LEMON WATCHOS"
  {
    StepAbsentChar("LEMON WATCHOS", ("iMac", "iDesktop"), 0);
    StepAbsentChar("LEMON WATCHOS", ("imac", "iDesktop"), 0);
    StepAbsentChar("LEMON WATCHOS", ("IMAC", "IDESKTOP"), 0);
    ApplyThree("LEMON WATCHOS", IMacRules);
  }

  lemma NotIdempotentBPad()
    ensures ApplyFrom("LEMON WATCHOS", PadRules, 0) == "LEMON WATCHOS"
  {
    StepAbsentChar("LEMON WATCHOS", ("iPad", "Pad"), 0);
    StepAbsentChar("LEMON WATCHOS", ("ipad", "Pad"), 0);
    StepAbsentChar("LEMON WATCHOS", ("IPAD", "PAD"), 0);
    ApplyThree("LEMON WATCHOS", PadRules);
  }

  lemma NotIdempotentBPhone()
    ensures ApplyFrom("LEMON WATCHOS", PhoneRules, 0) == "LEMON WATCHOS"
  {
    StepAbsentChar("LEMON WATCHOS", ("iPhone", "Phone"), 0);
    StepAbsentChar("LEMON WATCHOS", ("iphone", "Phone"), 0);
    StepAbsentChar("LEMON WATCHOS", ("IPHONE", "PHONE"), 0);
    ApplyThree("LEMON WATCHOS", PhoneRules);
  }

  lemma NotIdempotentBAppleWatch()
    ensures ApplyFrom("LEMON WATCHOS", AppleWatchRules, 0) == "LEMON WATCHOS"
  {
    StepAbsentChar("LEMON WATCHOS", ("Apple Watch", "LemOn Watch"), 1);
    StepAbsentChar("LEMON WATCHOS", ("apple watch", "LemOn Watch"), 0);
    StepAbsentChar("LEMON WATCHOS", ("APPLE WATCH", "LEMON WATCH"), 1);
    ApplyThree("LEMON WATCHOS", AppleWatchRules);
  }

  lemma NotIdempotentBMacOSMisses2()
    ensures Step("LEMON WATCHOS", ("MACOS", "DESKTOPOS")) == "LEMON WATCHOS"
  {
    assert !ContainsFrom("LEMON WATCHOS", "MACOS", 6);
    assert !ContainsFrom("LEMON WATCHOS", "MACOS", 3);
  }

  lemma NotIdempotentBMacOS()
    ensures ApplyFrom("LEMON WATCHOS", MacOSRules, 0) == "LEMON WATCHOS"
  {
    StepAbsentChar("LEMON WATCHOS", ("MacOS", "DesktopOS"), 1);
    StepAbsentChar("LEMON WATCHOS", ("macOS", "DesktopOS"), 0);
    NotIdempotentBMacOSMisses2();
    ApplyThree("LEMON WATCHOS", MacOSRules);
  }

  lemma NotIdempotentBPadOS()
    ensures ApplyFrom("LEMON WATCHOS", PadOSRules, 0) == "LEMON WATCHOS"
  {
    StepAbsentChar("LEMON WATCHOS", ("iPadOS", "PadOS"), 0);
    StepAbsentChar("LEMON WATCHOS", ("ipadOS", "PadOS"), 0);
    StepAbsentChar("LEMON WATCHOS", ("IPADOS", "PADOS"), 0);
    ApplyThree("LEMON WATCHOS", PadOSRules);
  }

  lemma NotIdempotentBIOS()
    ensures ApplyFrom("LEMON WATCHOS", IOSRules, 0) == "LEMON WATCHOS"
  {
    StepAbsentChar("LEMON WATCHOS", ("iOS", "PhoneOS"), 0);
    StepAbsentChar("LEMON WATCHOS", ("ios", "PhoneOS"), 0);
    StepAbsentChar("LEMON WATCHOS", ("IOS", "PHONEOS"), 0);
    ApplyThree("LEMON WATCHOS", IOSRules);
  }

  lemma NotIdempotentBWatchOSFires2()
    ensures Step("LEMON WATCHOS", ("WATCHOS", "LEMON WATCHOS")) == "LEMON LEMON WATCHOS"
  {
    assert "LEMON " + "WATCHOS" == "LEMON WATCHOS";
    assert "LEMON " + "LEMON WATCHOS" == "LEMON LEMON WATCHOS";
    StepFiresLast("LEMON ", "WATCHOS", "LEMON WATCHOS");
  }

  lemma NotIdempotentBWatchOS()
    ensures ApplyFrom("LEMON WATCHOS", WatchOSRules, 0) == "LEMON LEMON WATCHOS"
  {
    StepAbsentChar("LEMON WATCHOS", ("watchOS", "LemOn WatchOS"), 0);
    StepAbsentChar("LEMON WATCHOS", ("watchos", "LemOn WatchOS"), 0);
    NotIdempotentBWatchOSFires2();
    ApplyThree("LEMON WATCHOS", WatchOSRules);
  }

  lemma NotIdempotentB()
    ensures Rebrand("LEMON WATCHOS") == "LEMON LEMON WATCHOS"
  {
    RebrandInGroups("LEMON WATCHOS");
    NotIdempotentBApple();
    NotIdempotentBMac();
    NotIdempotentBMacBook();
    NotIdempotentBIMac();
    NotIdempotentBPad();
    NotIdempotentBPhone();
    NotIdempotentBAppleWatch();
    NotIdempotentBMacOS();
    NotIdempotentBPadOS();
    NotIdempotentBIOS();
    NotIdempotentBWatchOS();
  }

  lemma DataRulesCollideAApple()
    ensures ApplyFrom("watchos", AppleData, 0) == "watchos"
  {
    StepAbsentChar("watchos", ("apple", "lemon"), 1);
    StepAbsentChar("watchos", ("apple", "lemon"), 1);
    StepAbsentChar("watchos", ("apple", "lemon"), 1);
    ApplyThree("watchos", AppleData);
  }

  lemma DataRulesCollideAMac()
    ensures ApplyFrom("watchos", MacData, 0) == "watchos"
  {
    StepAbsentChar("watchos", ("mac", "desktop"), 0);
    StepAbsentChar("watchos", ("mac", "desktop"), 0);
    StepAbsentChar("watchos", ("mac", "desktop"), 0);
    ApplyThree("watchos", MacData);
  }

  lemma DataRulesCollideAMacBook()
    ensures ApplyFrom("watchos", MacBookData, 0) == "watchos"
  {
    StepAbsentChar("watchos", ("macbook", "desktopbook"), 0);
    StepAbsentChar("watchos", ("macbook", "desktopbook"), 0);
    StepAbsentChar("watchos", ("macbook", "desktopbook"), 0);
    ApplyThree("watchos", MacBookData);
  }

  lemma DataRulesCollideAIMac()
    ensures ApplyFrom("watchos", IMacData, 0) == "watchos"
  {
    StepAbsentChar("watchos", ("imac", "idesktop"), 0);
    StepAbsentChar("watchos", ("imac", "idesktop"), 0);
    StepAbsentChar("watchos", ("imac", "idesktop"), 0);
    ApplyThree("watchos", IMacData);
  }

  lemma DataRulesCollideAPad()
    ensures ApplyFrom("watchos", PadData, 0) == "watchos"
  {
    StepAbsentChar("watchos", ("ipad", "pad"), 0);
    StepAbsentChar("watchos", ("ipad", "pad"), 0);
    StepAbsentChar("watchos", ("ipad", "pad"), 0);
    ApplyThree("watchos", PadData);
  }

  lemma DataRulesCollideAPhone()
    ensures ApplyFrom("watchos", PhoneData, 0) == "watchos"
  {
    StepAbsentChar("watchos", ("iphone", "phone"), 0);
    StepAbsentChar("watchos", ("iphone", "phone"), 0);
    StepAbsentChar("watchos", ("iphone", "phone"), 0);
    ApplyThree("watchos", PhoneData);
  }

  lemma DataRulesCollideAAppleWatch()
    ensures ApplyFrom("watchos", AppleWatchData, 0) == "watchos"
  {
    StepAbsentChar("watchos", ("apple watch", "lemon watch"), 1);
    StepAbsentChar("watchos", ("apple watch", "lemon watch"), 1);
    StepAbsentChar("watchos", ("apple watch", "lemon watch"), 1);
    ApplyThree("watchos", AppleWatchData);
  }

  lemma DataRulesCollideAMacOS()
    ensures ApplyFrom("watchos", MacOSData, 0) == "watchos"
  {
    StepAbsentChar("watchos", ("macos", "desktopos"), 0);
    StepAbsentChar("watchos", ("macos", "desktopos"), 0);
    StepAbsentChar("watchos", ("macos", "desktopos"), 0);
    ApplyThree("watchos", MacOSData);
  }

  lemma DataRulesCollideAPadOS()
    ensures ApplyFrom("watchos", PadOSData, 0) == "watchos"
  {
    StepAbsentChar("watchos", ("ipados", "pados"), 0);
    StepAbsentChar("watchos", ("ipados", "pados"), 0);
    StepAbsentChar("watchos", ("ipados", "pados"), 0);
    ApplyThree("watchos", PadOSData);
  }

  lemma DataRulesCollideAIOS()
    ensures ApplyFrom("watchos", IOSData, 0) == "watchos"
  {
    StepAbsentChar("watchos", ("ios", "phoneos"), 0);
    StepAbsentChar("watchos", ("ios", "phoneos"), 0);
    StepAbsentChar("watchos", ("ios", "phoneos"), 0);
    ApplyThree("watchos", IOSData);
  }

  lemma DataRulesCollideAWatchOSFires0()
    ensures Step("watchos", ("watchos", "lemon watchos")) == "lemon watchos"
  {
    assert "" + "watchos" == "watchos";
    assert "" + "lemon watchos" == "lemon watchos";
    StepFiresLast("", "watchos", "lemon watchos");
  }

  lemma DataRulesCollideAWatchOSFires1()
    ensures Step("lemon watchos", ("watchos", "lemon watchos")) == "lemon lemon watchos"
  {
    assert "lemon " + "watchos" == "lemon watchos";
    assert "lemon " + "lemon watchos" == "lemon lemon watchos";
    StepFiresLast("lemon ", "watchos", "lemon watchos");
  }

  lemma DataRulesCollideAWatchOSFires2()
    ensures Step("lemon lemon watchos", ("watchos", "lemon watchos")) == "lemon lemon lemon watchos"
  {
    assert "lemon lemon " + "watchos" == "lemon lemon watchos";
    assert "lemon lemon " + "lemon watchos" == "lemon lemon lemon watchos";
    StepFiresLast("lemon lemon ", "watchos", "lemon watchos");
  }

  lemma DataRulesCollideAWatchOS()
    ensures ApplyFrom("watchos", WatchOSData, 0) == "lemon lemon lemon watchos"
  {
    DataRulesCollideAWatchOSFires0();
    DataRulesCollideAWatchOSFires1();
    DataRulesCollideAWatchOSFires2();
    ApplyThree("watchos", WatchOSData);
  }

  lemma DataRulesCollideA()
    ensures RebrandData("watchos") == "lemon lemon lemon watchos"
  {
    RebrandDataInGroups("watchos");
    DataRulesCollideAApple();
    DataRulesCollideAMac();
    DataRulesCollideAMacBook();
    DataRulesCollideAIMac();
    DataRulesCollideAPad();
    DataRulesCollideAPhone();
    DataRulesCollideAAppleWatch();
    DataRulesCollideAMacOS();
    DataRulesCollideAPadOS();
    DataRulesCollideAIOS();
    DataRulesCollideAWatchOS();
  }

  lemma DataRulesCollideBApple()
    ensures ApplyFrom("watchos", AppleRules, 0) == "watchos"
  {
    StepAbsentChar("watchos", ("Apple", "LemOn"), 0);
    StepAbsentChar("watchos", ("apple", "LemOn"), 1);
    StepAbsentChar("watchos", ("APPLE", "LEMON"), 0);
    ApplyThree("watchos", AppleRules);
  }

  lemma DataRulesCollideBMac()
    ensures ApplyFrom("watchos", MacRules, 0) == "watchos"
  {
    StepAbsentChar("watchos", ("Mac", "Desktop"), 0);
    StepAbsentChar("watchos", ("mac", "Desktop"), 0);
    StepAbsentChar("watchos", ("MAC", "DESKTOP"), 0);
    ApplyThree("watchos", MacRules);
  }

  lemma DataRulesCollideBMacBook()
    ensures ApplyFrom("watchos", MacBookRules, 0) == "watchos"
  {
    StepAbsentChar("watchos", ("MacBook", "DesktopBook"), 0);
    StepAbsentChar("watchos", ("macbook", "DesktopBook"), 0);
    StepAbsentChar("watchos", ("MACBOOK", "DESKTOPBOOK"), 0);
    ApplyThree("watchos", MacBookRules);
  }

  lemma DataRulesCollideBIMac()
    ensures ApplyFrom("watchos", IMacRules, 0) == "watchos"
  {
    StepAbsentChar("watchos", ("iMac", "iDesktop"), 0);
    StepAbsentChar("watchos", ("imac", "iDesktop"), 0);
    StepAbsentChar("watchos", ("IMAC", "IDESKTOP"), 0);
    ApplyThree("watchos", IMacRules);
  }

  lemma DataRulesCollideBPad()
    ensures ApplyFrom("watchos", PadRules, 0) == "watchos"
  {
    StepAbsentChar("watchos", ("iPad", "Pad"), 0);
    StepAbsentChar("watchos", ("ipad", "Pad"), 0);
    StepAbsentChar("watchos", ("IPAD", "PAD"), 0);
    ApplyThree("watchos", PadRules);
  }

  lemma DataRulesCollideBPhone()
    ensures ApplyFrom("watchos", PhoneRules, 0) == "watchos"
  {
    StepAbsentChar("watchos", ("iPhone", "Phone"), 0);
    StepAbsentChar("watchos", ("iphone", "Phone"), 0);
    StepAbsentChar("watchos", ("IPHONE", "PHONE"), 0);
    ApplyThree("watchos", PhoneRules);
  }

  lemma DataRulesCollideBAppleWatch()
    ensures ApplyFrom("watchos", AppleWatchRules, 0) == "watchos"
  {
    StepAbsentChar("watchos", ("Apple Watch", "LemOn Watch"), 0);
    StepAbsentChar("watchos", ("apple watch", "LemOn Watch"), 1);
    StepAbsentChar("watchos", ("APPLE WATCH", "LEMON WATCH"), 0);
    ApplyThree("watchos", AppleWatchRules);
  }

  lemma DataRulesCollideBMacOS()
    ensures ApplyFrom("watchos", MacOSRules, 0) == "watchos"
  {
    StepAbsentChar("watchos", ("MacOS", "DesktopOS"), 0);
    StepAbsentChar("watchos", ("macOS", "DesktopOS"), 0);
    StepAbsentChar("watchos", ("MACOS", "DESKTOPOS"), 0);
    ApplyThree("watchos", MacOSRules);
  }

  lemma DataRulesCollideBPadOS()
    ensures ApplyFrom("watchos", PadOSRules, 0) == "watchos"
  {
    StepAbsentChar("watchos", ("iPadOS", "PadOS"), 0);
    StepAbsentChar("watchos", ("ipadOS", "PadOS"), 0);
    StepAbsentChar("watchos", ("IPADOS", "PADOS"), 0);
    ApplyThree("watchos", PadOSRules);
  }

  lemma DataRulesCollideBIOS()
    ensures ApplyFrom("watchos", IOSRules, 0) == "watchos"
  {
    StepAbsentChar("watchos", ("iOS", "PhoneOS"), 0);
    StepAbsentChar("watchos", ("ios", "PhoneOS"), 0);
    StepAbsentChar("watchos", ("IOS", "PHONEOS"), 0);
    ApplyThree("watchos", IOSRules);
  }

  lemma DataRulesCollideBWatchOSFires1()
    ensures Step("watchos", ("watchos", "LemOn WatchOS")) == "LemOn WatchOS"
  {
    assert "" + "watchos" == "watchos";
    assert "" + "LemOn WatchOS" == "LemOn WatchOS";
    StepFiresLast("", "watchos", "LemOn WatchOS");
  }

  lemma DataRulesCollideBWatchOS()
    ensures ApplyFrom("watchos", WatchOSRules, 0) == "LemOn WatchOS"
  {
    StepAbsentChar("watchos", ("watchOS", "LemOn WatchOS"), 5);
    DataRulesCollideBWatchOSFires1();
    StepAbsentChar("LemOn WatchOS", ("WATCHOS", "LEMON WATCHOS"), 1);
    ApplyThree("watchos", WatchOSRules);
  }

  lemma DataRulesCollideB()
    ensures Rebrand("watchos") == "LemOn WatchOS"
  {
    RebrandInGroups("watchos");
    DataRulesCollideBApple();
    DataRulesCollideBMac();
    DataRulesCollideBMacBook();
    DataRulesCollideBIMac();
    DataRulesCollideBPad();
    DataRulesCollideBPhone();
    DataRulesCollideBAppleWatch();
    DataRulesCollideBMacOS();
    DataRulesCollideBPadOS();
    DataRulesCollideBIOS();
    DataRulesCollideBWatchOS();
  }
}
